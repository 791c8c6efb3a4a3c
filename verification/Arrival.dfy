/** The destination of a copy: where its path leads, and what making it changes. */
module Arrival {
  import opened Wrappers
  import opened FileSystem
  import Lines
  import opened ExtractSafety
  import opened NoClobber
  import opened CopyOut

  // ---------------------------------------------------------------------
  // Lookups of a path and of the path above it
  // ---------------------------------------------------------------------

  function Up(comps: seq<string>): seq<string>
    requires comps != []
  {
    comps[..|comps| - 1]
  }

  /** Where an absolute path leads, all links followed. */
  function Leads(fs: Fs, at: Path): Option<Path> { Walk(fs, [], at, MAX_LINKS) }

  /** What a lookup found it still finds while nothing that was there changes, so
      resolving a destination once is resolving it at every call. */
  lemma {:induction false} WalkStill(a: Fs, b: Fs, cur: Path, comps: seq<string>, links: nat)
    requires forall p :: p in a.nodes ==> SameAt(p, a, b)
    requires Walk(a, cur, comps, links).Some?
    ensures Walk(b, cur, comps, links) == Walk(a, cur, comps, links)
    decreases links, |comps|
  {
    if comps != [] {
      assert SameAt(cur, a, b);
      if comps[0] == "" || comps[0] == "." {
        WalkStill(a, b, cur, comps[1..], links);
      } else if comps[0] == ".." {
        WalkStill(a, b, Parent(cur), comps[1..], links);
      } else {
        var p := cur + [comps[0]];
        assert SameAt(p, a, b);
        if !a.nodes[p].Link? {
          WalkStill(a, b, p, comps[1..], links);
        } else {
          var target := a.nodes[p].target;
          var start := if target != "" && target[0] == '/' then [] else cur;
          WalkStill(a, b, start, Lines.Split(target, '/') + comps[1..], links - 1);
        }
      }
    }
  }

  /** A lookup ends at something. */
  lemma {:induction false} WalkLands(fs: Fs, cur: Path, comps: seq<string>, links: nat)
    requires fs.WellFormed() && cur in fs.nodes && Walk(fs, cur, comps, links).Some?
    ensures Walk(fs, cur, comps, links).value in fs.nodes
    decreases links, |comps|
  {
    if comps != [] {
      if comps[0] == "" || comps[0] == "." {
        WalkLands(fs, cur, comps[1..], links);
      } else if comps[0] == ".." {
        WalkLands(fs, Parent(cur), comps[1..], links);
      } else {
        var p := cur + [comps[0]];
        if !fs.nodes[p].Link? {
          WalkLands(fs, p, comps[1..], links);
        } else {
          var target := fs.nodes[p].target;
          var start := if target != "" && target[0] == '/' then [] else cur;
          WalkLands(fs, start, Lines.Split(target, '/') + comps[1..], links - 1);
        }
      }
    }
  }

  /** The last step of a lookup, from where the path above leads. */
  lemma {:induction false} WalkLast(fs: Fs, cur: Path, comps: seq<string>, links: nat)
    requires comps != [] && Normal(comps[|comps| - 1])
    ensures Walk(fs, cur, Up(comps), links).None? ==> Walk(fs, cur, comps, links).None?
    ensures Walk(fs, cur, Up(comps), links).Some? ==>
              var up := Walk(fs, cur, Up(comps), links).value;
              var q := up + [comps[|comps| - 1]];
              && (Walk(fs, cur, comps, links).Some? ==> fs.Searchable(up) && q in fs.nodes)
              && (fs.Searchable(up) && q in fs.nodes && !fs.nodes[q].Link? ==> Walk(fs, cur, comps, links) == Some(q))
    decreases links, |comps|
  {
    if |comps| == 1 {
      assert comps[1..] == [];
    } else if fs.Searchable(cur) {
      var rest := comps[1..];
      assert Up(comps)[1..] == Up(rest) && Up(comps)[0] == comps[0];
      if comps[0] == "" || comps[0] == "." {
        WalkLast(fs, cur, rest, links);
      } else if comps[0] == ".." {
        WalkLast(fs, Parent(cur), rest, links);
      } else if cur + [comps[0]] in fs.nodes {
        var p := cur + [comps[0]];
        if !fs.nodes[p].Link? {
          WalkLast(fs, p, rest, links);
        } else if links != 0 {
          var target := fs.nodes[p].target;
          var start := if target != "" && target[0] == '/' then [] else cur;
          var more := Lines.Split(target, '/');
          assert Up(more + rest) == more + Up(rest);
          assert (more + rest)[|more + rest| - 1] == rest[|rest| - 1];
          WalkLast(fs, start, more + rest, links - 1);
        }
      }
    }
  }

  // ---------------------------------------------------------------------
  // Making the destination
  // ---------------------------------------------------------------------

  /** Where `at` leads, or else the topmost thing that would have to be made. */
  function Landing(fs: Fs, at: Path): Path {
    match Leads(fs, at)
    case Some(q) => q
    case None =>
      if at == [] then []
      else match Leads(fs, Up(at))
           case Some(q) => q + [Last(at)]
           case None => Landing(fs, Up(at))
  }

  /** From `a` to `b` only directories came, all at or below `t`, which was not
      there. */
  ghost predicate Grew(t: Path, a: Fs, b: Fs) {
    && b.WellFormed() && b.umask == a.umask && b.inodes == a.inodes
    && (forall p :: p in a.nodes ==> SameAt(p, a, b))
    && (forall p :: p in b.nodes && p !in a.nodes ==> b.IsDir(p) && t <= p)
    && (b.nodes != a.nodes ==> t !in a.nodes)
  }

  lemma GrewSame(t: Path, a: Fs, b: Fs, c: Fs)
    requires Grew(t, a, b) && c.nodes == b.nodes && c.inodes == b.inodes && c.umask == b.umask
    ensures Grew(t, a, c)
  {
    forall p | p in a.nodes ensures SameAt(p, a, c) {
      assert SameAt(p, a, b);
    }
    assert forall p :: c.IsDir(p) <==> b.IsDir(p);
  }

  lemma GrewMore(t: Path, a: Fs, b: Fs, c: Fs, q: Path, mode: Perm)
    requires Grew(t, a, b) && q !in b.nodes && q != [] && b.IsDir(Parent(q)) && t <= q && t !in a.nodes
    requires c.nodes == b.nodes[q := Dir(mode)] && c.inodes == b.inodes && c.umask == b.umask
    ensures Grew(t, a, c)
  {
    LeafMade(b, c, q, mode);
    hide Fs.WellFormed;
    forall p | p in a.nodes ensures SameAt(p, a, c) {
      assert SameAt(p, a, b);
    }
    forall p | p in c.nodes && p !in a.nodes ensures c.IsDir(p) && t <= p {
      assert p != q ==> b.IsDir(p);
    }
  }

  lemma LeafMade(b: Fs, c: Fs, q: Path, mode: Perm)
    requires b.WellFormed() && q !in b.nodes && q != [] && b.IsDir(Parent(q))
    requires c.nodes == b.nodes[q := Dir(mode)] && c.inodes == b.inodes
    ensures c.WellFormed()
  {
    assert forall p :: b.IsDir(p) ==> c.IsDir(p);
    forall p: Path | p in c.nodes && p != [] ensures c.IsDir(Parent(p)) {
      assert p != q ==> b.IsDir(Parent(p));
    }
  }

  /** What came is spared and confined. */
  lemma GrewSpares(t: Path, a: Fs, b: Fs)
    requires Grew(t, a, b)
    ensures Spared(a, b) && Confined(t, a, b)
  {
    assert forall i :: Named(t, a, i) <== Named(t, b, i);
  }

  /** One mkdir below where the path above leads. */
  lemma MkdirThere(fs: Fs, at: Path, up: Path)
    requires fs.WellFormed() && at != [] && Normal(Last(at)) && Leads(fs, Up(at)) == Some(up)
    ensures var (fs', ok) := Mkdir(fs, [], at, DIR_MODE);
            var q := up + [Last(at)];
            && fs'.inodes == fs.inodes && fs'.umask == fs.umask
            && (ok ==> fs.Searchable(up) && q !in fs.nodes && fs'.nodes == fs.nodes[q := Dir(DIR_MODE - fs.umask)])
            && (!ok ==> fs'.nodes == fs.nodes)
  {
    hide Walk;
    assert Parent(up + [Last(at)]) == up;
  }

  lemma LstatThere(fs: Fs, at: Path, up: Path)
    requires at != [] && Normal(Last(at)) && Leads(fs, Up(at)) == Some(up)
    ensures var q := up + [Last(at)];
            Lookup(fs, [], at).Some? ==> fs.Searchable(up) && q in fs.nodes && Lookup(fs, [], at).value == fs.nodes[q]
  {
    hide Walk;
  }

  lemma LeadsSame(a: Fs, b: Fs, at: Path)
    requires a.nodes == b.nodes
    ensures Leads(a, at) == Leads(b, at)
  {
    WalkSame(a, b, [], at, MAX_LINKS);
  }

  lemma {:induction false} LandingSame(a: Fs, b: Fs, at: Path)
    requires a.nodes == b.nodes
    ensures Landing(a, at) == Landing(b, at)
    decreases |at|
  {
    hide Leads;
    LeadsSame(a, b, at);
    if at != [] {
      LeadsSame(a, b, Up(at));
      LandingSame(a, b, Up(at));
    }
  }

  lemma RootLeads(fs: Fs)
    ensures Leads(fs, []) == Some([])
  {
  }

  /** After MkdirAll(at): what was there is there, only directories came, none if
      the path led somewhere; and on success it leads to a directory. */
  ghost predicate Making(at: Path, a: Fs, b: Fs, ok: bool)
    requires at != []
  {
    && Grew(Landing(a, at), a, b)
    && (Leads(a, at).Some? ==> b.nodes == a.nodes)
    && (ok ==> Leads(b, at).Some? && b.IsDir(Leads(b, at).value) && Landing(a, at) <= Leads(b, at).value)
    && (ok && Leads(a, Up(at)).None? ==>
          Leads(b, Up(at)).Some? && Landing(a, at) <= Leads(b, Up(at)).value)
  }

  lemma {:induction false} MkdirAllMakes(fs: Fs, at: Path)
    requires fs.WellFormed() && at != [] && AllNormal(at)
    ensures var (fs', ok) := MkdirAll(fs, at); Making(at, fs, fs', ok)
    decreases |at|
  {
    hide Stat, Mkdir, Lookup, Making, AboveReady, Fs.WellFormed;
    var (fs1, there) := Stat(fs, [], at);
    Looked(fs, at);
    if there.None? {
      var up := Up(at);
      var (fs2, above) := if up == [] then (fs1, true) else MkdirAll(fs1, up);
      if up != [] {
        MkdirAllMakes(fs1, up);
      }
      AboveMade(fs, fs1, fs2, at, above);
      if above {
        LastMade(fs, fs2, at);
      }
    }
  }

  /** The look MkdirAll begins with. */
  lemma Looked(fs: Fs, at: Path)
    requires fs.WellFormed() && at != [] && AllNormal(at)
    ensures var (fs1, there) := Stat(fs, [], at);
            && fs1.nodes == fs.nodes && fs1.inodes == fs.inodes && fs1.umask == fs.umask && fs1.WellFormed()
            && (there.Some? ==> Making(at, fs, fs1, fs1.IsDir(there.value)))
  {
    StatLeads(fs, at);
    var (fs1, there) := Stat(fs, [], at);
    GrewNot(Landing(fs, at), fs, fs1);
    LeadsSame(fs, fs1, at);
    LastStep(fs, at);
    LandingHere(fs, at);
    hide Leads, Landing;
  }

  lemma StatLeads(fs: Fs, at: Path)
    ensures var (fs', there) := Stat(fs, [], at);
            && fs'.nodes == fs.nodes && fs'.inodes == fs.inodes && fs'.umask == fs.umask
            && (there.Some? ==> there == Leads(fs, at))
            && (!fs.Faulty() && Leads(fs, at).Some? && Leads(fs, at).value in fs.nodes ==> there.Some?)
  {
    hide Walk;
  }

  lemma GrewNot(t: Path, a: Fs, b: Fs)
    requires a.WellFormed() && b.nodes == a.nodes && b.inodes == a.inodes && b.umask == a.umask
    ensures Grew(t, a, b)
  {
    assert forall p :: b.IsDir(p) <==> a.IsDir(p);
  }

  lemma LandingHere(fs: Fs, at: Path)
    ensures Leads(fs, at).Some? ==> Landing(fs, at) == Leads(fs, at).value
    ensures Leads(fs, at).None? && at != [] && Leads(fs, Up(at)).Some? ==>
              Landing(fs, at) == Leads(fs, Up(at)).value + [Last(at)]
    ensures Leads(fs, at).None? && at != [] && Leads(fs, Up(at)).None? ==>
              Landing(fs, at) == Landing(fs, Up(at))
  {
    hide Walk;
  }

  /** WalkLast for an absolute path. */
  lemma LastStep(fs: Fs, at: Path)
    requires at != [] && AllNormal(at)
    ensures Leads(fs, Up(at)).None? ==> Leads(fs, at).None?
    ensures Leads(fs, Up(at)).Some? ==>
              var up := Leads(fs, Up(at)).value;
              var q := up + [Last(at)];
              && (Leads(fs, at).Some? ==> fs.Searchable(up) && q in fs.nodes)
              && (fs.Searchable(up) && q in fs.nodes && !fs.nodes[q].Link? ==> Leads(fs, at) == Some(q))
  {
    hide Walk;
    WalkLast(fs, [], at, MAX_LINKS);
  }

  /** What making the path above means for `at`. */
  lemma AboveMade(fs: Fs, fs1: Fs, fs2: Fs, at: Path, above: bool)
    requires fs.WellFormed() && at != [] && AllNormal(at)
    requires fs1.nodes == fs.nodes && fs1.inodes == fs.inodes && fs1.umask == fs.umask
    requires if Up(at) == [] then fs2 == fs1 && above else Making(Up(at), fs1, fs2, above)
    ensures if above then AboveReady(fs, fs2, at) else Making(at, fs, fs2, false)
  {
    var up := Up(at);
    LeadsSame(fs, fs1, up);
    LandingSame(fs, fs1, up);
    LastStep(fs, at);
    LandingHere(fs, at);
    LandingHere(fs, up);
    RootLeads(fs1);
    GrewNot(Landing(fs, up), fs, fs1);
    hide Leads, Landing;
    if up != [] {
      GrewFrom(Landing(fs, up), fs, fs1, fs2);
    }
    GrewTree(Landing(fs, up), fs, fs2);
    hide Grew, Fs.WellFormed;
    if fs2.nodes == fs.nodes {
      GrewAnywhere(Landing(fs, up), Landing(fs, at), fs, fs2);
    }
  }

  lemma GrewFrom(t: Path, a: Fs, b: Fs, c: Fs)
    requires b.nodes == a.nodes && b.inodes == a.inodes && b.umask == a.umask && Grew(t, b, c)
    ensures Grew(t, a, c)
  {
    forall p | p in a.nodes ensures SameAt(p, a, c) {
      assert SameAt(p, b, c);
    }
  }

  lemma GrewAnywhere(t: Path, u: Path, a: Fs, b: Fs)
    requires Grew(t, a, b) && b.nodes == a.nodes
    ensures Grew(u, a, b)
  {
  }

  /** The last directory, once the path above leads to one. */
  lemma LastMade(fs: Fs, fs2: Fs, at: Path)
    requires AboveReady(fs, fs2, at)
    ensures var (fs3, made) := Mkdir(fs2, [], at, DIR_MODE);
            var (fs4, node) := Lstat(fs3, [], at);
            && (made ==> Making(at, fs, fs3, true))
            && (!made ==> Making(at, fs, fs4, node.Some? && node.value.Dir?))
  {
    var up := Leads(fs2, Up(at)).value;
    hide Mkdir, Leads, Grew, Lookup, Landing, Making, Fs.WellFormed;
    AboveFacts(fs, fs2, at);
    var (fs3, made) := Mkdir(fs2, [], at, DIR_MODE);
    MkdirThere(fs2, at, up);
    if made {
      NewMade(fs, fs2, fs3, at, up);
    } else {
      LeadsSame(fs2, fs3, Up(at));
      LstatThere(fs3, at, up);
      OldFound(fs, fs2, Lstat(fs3, [], at).0, at, up, Lookup(fs3, [], at).Some? && Lookup(fs3, [], at).value.Dir?);
      OldFound(fs, fs2, Lstat(fs3, [], at).0, at, up, false);
    }
  }

  ghost predicate AboveReady(fs: Fs, fs2: Fs, at: Path) {
    && fs.WellFormed() && fs2.WellFormed() && at != [] && AllNormal(at) && Grew(Landing(fs, at), fs, fs2)
    && (Leads(fs, Up(at)).Some? ==> fs2.nodes == fs.nodes)
    && Leads(fs2, Up(at)).Some? && fs2.IsDir(Leads(fs2, Up(at)).value)
    && Landing(fs, Up(at)) <= Leads(fs2, Up(at)).value
  }

  /** How the two landings and the place of the last directory lie. */
  lemma AboveFacts(fs: Fs, fs2: Fs, at: Path)
    requires AboveReady(fs, fs2, at)
    ensures var q := Leads(fs2, Up(at)).value + [Last(at)];
            && Normal(Last(at)) && Parent(q) == Leads(fs2, Up(at)).value && fs2.IsDir(Parent(q))
            && (q !in fs2.nodes ==> Leads(fs, at).None?)
            && (Leads(fs, at).None? ==> Landing(fs, at) <= q)
            && (Leads(fs, at).Some? ==> Leads(fs2, at) == Leads(fs, at) && Landing(fs, at) == Leads(fs, at).value)
            && (q !in fs2.nodes ==> Landing(fs, at) !in fs.nodes)
            && (Leads(fs, Up(at)).None? ==> Landing(fs, at) <= Leads(fs2, Up(at)).value)
            && fs2.WellFormed() && Grew(Landing(fs, at), fs, fs2) && (Leads(fs, at).Some? ==> fs2.nodes == fs.nodes)
  {
    LandingHere(fs, at);
    LandingHere(fs, Up(at));
    LastStep(fs, at);
    GrewTree(Landing(fs, at), fs, fs2);
    if fs2.nodes == fs.nodes {
      LeadsSame(fs, fs2, at);
      LeadsSame(fs, fs2, Up(at));
    }
    hide Leads, Grew, Landing, Fs.WellFormed;
  }

  lemma NewMade(fs: Fs, fs2: Fs, fs3: Fs, at: Path, up: Path)
    requires AboveReady(fs, fs2, at) && Leads(fs2, Up(at)) == Some(up)
    requires up + [Last(at)] !in fs2.nodes && fs2.Searchable(up)
    requires fs3.nodes == fs2.nodes[up + [Last(at)] := Dir(DIR_MODE - fs2.umask)]
    requires fs3.inodes == fs2.inodes && fs3.umask == fs2.umask
    ensures Making(at, fs, fs3, true)
  {
    AboveFacts(fs, fs2, at);
    hide Leads, Grew, Landing, Fs.WellFormed;
    var q := up + [Last(at)];
    GrewMore(Landing(fs, at), fs, fs2, fs3, q, DIR_MODE - fs2.umask);
    LeadsStill(fs2, fs3, Up(at), q);
    assert q != up;
    LastStep(fs3, at);
  }

  lemma OldFound(fs: Fs, fs2: Fs, fs4: Fs, at: Path, up: Path, ok: bool)
    requires AboveReady(fs, fs2, at) && Leads(fs2, Up(at)) == Some(up)
    requires fs4.nodes == fs2.nodes && fs4.inodes == fs2.inodes && fs4.umask == fs2.umask
    requires ok ==> fs2.Searchable(up) && fs2.IsDir(up + [Last(at)])
    ensures Making(at, fs, fs4, ok)
  {
    AboveFacts(fs, fs2, at);
    GrewSame(Landing(fs, at), fs, fs2, fs4);
    LeadsSame(fs2, fs4, at);
    LeadsSame(fs2, fs4, Up(at));
    LastStep(fs2, at);
    hide Leads, Grew, Landing, Fs.WellFormed;
  }

  lemma GrewTree(t: Path, a: Fs, b: Fs)
    requires Grew(t, a, b)
    ensures b.WellFormed() && b.inodes == a.inodes && b.umask == a.umask && (b.nodes != a.nodes ==> t !in a.nodes)
  {
  }

  lemma LeadsStill(a: Fs, b: Fs, at: Path, q: Path)
    requires Leads(a, at).Some? && q !in a.nodes && q in b.nodes && b.nodes == a.nodes[q := b.nodes[q]]
    ensures Leads(b, at) == Leads(a, at)
  {
    hide Walk;
    WalkStill(a, b, [], at, MAX_LINKS);
  }

  // ---------------------------------------------------------------------
  // Choosing the place
  // ---------------------------------------------------------------------

  /** What a copy into this place may change lies at or below this path. */
  function Reach(p: Place, base: Name): Path { if p.into then p.dir else p.dir + [base] }

  /** What is known of a place that was chosen: it is the destination if that is
      a directory, and else below what the path above leads to. */
  ghost predicate Chosen(a: Fs, b: Fs, at: Path, asDir: bool, p: Place)
    requires at != []
  {
    && p.dir in b.nodes
    && (if p.into then Leads(b, at) == Some(p.dir) && b.IsDir(p.dir) else Leads(b, Up(at)) == Some(p.dir))
    && (Landing(a, at) <= Reach(p, Last(at)) || (!p.into && Leads(a, Up(at)) == Some(p.dir)))
    && (b.nodes != a.nodes ==> Landing(a, at) <= Reach(p, Last(at)))
    && (asDir ==> Leads(b, at).Some? && b.IsDir(Leads(b, at).value))
  }

  lemma DestinationChosen(fs: Fs, at: Path, asDir: bool)
    requires fs.WellFormed() && at != [] && AllNormal(at)
    ensures var (fs', place) := Destination(fs, at, asDir);
            Grew(Landing(fs, at), fs, fs') && (place.Some? ==> Chosen(fs, fs', at, asDir, place.value))
  {
    hide MkdirAll, Leads, Grew, Landing;
    if asDir {
      MkdirAllMakes(fs, at);
    } else {
      GrewNot(Landing(fs, at), fs, fs);
      LandingHere(fs, at);
    }
    var (fs1, made) := EnsureDir(fs, at, asDir);
    GrewTree(Landing(fs, at), fs, fs1);
    if made {
      ChooseChosen(fs, fs1, at, asDir);
    }
  }

  lemma ChooseChosen(a: Fs, fs: Fs, at: Path, asDir: bool)
    requires a.WellFormed() && fs.WellFormed() && at != [] && AllNormal(at) && Grew(Landing(a, at), a, fs)
    requires if asDir then Making(at, a, fs, true) else fs == a
    ensures var (fs', place) := Choose(fs, at);
            Grew(Landing(a, at), a, fs') && (place.Some? ==> Chosen(a, fs', at, asDir, place.value))
  {
    hide Leads, Grew, Landing, Stat, Fs.WellFormed, Making, Chosen;
    StatLeads(fs, at);
    StatExists(fs, at);
    var (fs1, dst) := Stat(fs, [], at);
    GrewSame(Landing(a, at), a, fs, fs1);
    if dst.Some? && fs1.IsDir(dst.value) {
      IntoChosen(a, fs, fs1, at, asDir);
    } else {
      StatLeads(fs1, Up(at));
      StatExists(fs1, Up(at));
      var (fs2, up) := Stat(fs1, [], Up(at));
      GrewSame(Landing(a, at), a, fs1, fs2);
      if up.Some? {
        LeadsSame(fs, fs1, Up(at));
        UnderChosen(a, fs, fs2, at, asDir);
      }
    }
  }

  lemma StatExists(fs: Fs, at: Path)
    ensures Stat(fs, [], at).1.Some? ==> Stat(fs, [], at).1.value in fs.nodes
  {
    hide Walk;
  }

  lemma IntoChosen(a: Fs, fs: Fs, fs1: Fs, at: Path, asDir: bool)
    requires a.WellFormed() && at != [] && AllNormal(at) && fs1.nodes == fs.nodes
    requires if asDir then Making(at, a, fs, true) else fs == a
    requires Leads(fs, at).Some? && fs.IsDir(Leads(fs, at).value)
    ensures Chosen(a, fs1, at, asDir, Place(Leads(fs, at).value, true))
  {
    LeadsSame(fs, fs1, at);
    LandingHere(a, at);
    hide Leads, Landing, Grew;
  }

  lemma UnderChosen(a: Fs, fs: Fs, fs1: Fs, at: Path, asDir: bool)
    requires a.WellFormed() && at != [] && AllNormal(at) && fs1.nodes == fs.nodes && Grew(Landing(a, at), a, fs)
    requires if asDir then Making(at, a, fs, true) else fs == a
    requires Leads(fs, Up(at)).Some? && Leads(fs, Up(at)).value in fs.nodes
    ensures Chosen(a, fs1, at, asDir, Place(Leads(fs, Up(at)).value, false))
  {
    hide Leads, Landing, Grew, Fs.WellFormed;
    LeadsSame(fs, fs1, at);
    LeadsSame(fs, fs1, Up(at));
    UnderLanding(a, fs, at, asDir);
  }

  lemma UnderLanding(a: Fs, fs: Fs, at: Path, asDir: bool)
    requires a.WellFormed() && at != [] && AllNormal(at) && Grew(Landing(a, at), a, fs)
    requires if asDir then Making(at, a, fs, true) else fs == a
    requires Leads(fs, Up(at)).Some?
    ensures var q := Leads(fs, Up(at)).value;
            && (Landing(a, at) <= q + [Last(at)] || Leads(a, Up(at)) == Some(q))
            && (fs.nodes != a.nodes ==> Landing(a, at) <= q + [Last(at)])
  {
    LandingHere(a, at);
    LastStep(a, at);
    hide Leads, Landing, Grew, Fs.WellFormed;
    if Leads(a, Up(at)).Some? {
      AboveStill(Landing(a, at), a, fs, at);
    }
  }

  lemma AboveStill(t: Path, a: Fs, b: Fs, at: Path)
    requires Grew(t, a, b) && at != [] && Leads(a, Up(at)).Some?
    ensures Leads(b, Up(at)) == Leads(a, Up(at))
  {
    hide Walk;
    WalkStill(a, b, [], Up(at), MAX_LINKS);
  }
}
