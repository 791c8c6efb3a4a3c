/** Archives as a sequence of typed headers with their data, and readArchive:
    the validation every archive passes before anything is written. */
module Archive {
  import opened Wrappers
  import opened FileSystem
  import Lines

  datatype TypeFlag = Reg | Directory | SymLink | HardLink | GlobalHeader | Unsupported

  datatype Header = Header(flag: TypeFlag, name: string, linkname: string, mode: Perm, content: Bytes)

  /** `broken`: the tar reader reports an error after these headers. */
  datatype Tar = Tar(headers: seq<Header>, broken: bool)

  datatype ArchivePath = ArchivePath(rel: Path, isDir: bool)
  datatype ArchiveEntry = ArchiveEntry(name: Name, paths: seq<ArchivePath>)

  // ---------------------------------------------------------------------
  // Names
  // ---------------------------------------------------------------------

  /** path.Clean on the components of a relative name: `acc` is what is kept so
      far; `..` takes back a kept component unless there is none to take. */
  function CleanComps(cs: seq<string>, acc: Path): Path {
    if cs == [] then acc
    else if cs[0] == "" || cs[0] == "." then CleanComps(cs[1..], acc)
    else if cs[0] == ".." && acc != [] && acc[|acc| - 1] != ".." then CleanComps(cs[1..], acc[..|acc| - 1])
    else CleanComps(cs[1..], acc + [cs[0]])
  }

  /** cleanArchiveName: the cleaned components, or a refusal of an absolute name,
      of one that is empty, and of one that climbs out. (Trimming one trailing
      slash first, as the source does, changes no outcome: an empty component
      disappears anyway.) */
  function CleanName(name: string): (r: Option<Path>)
    ensures r.Some? ==> r.value != [] && r.value[0] != ".."
  {
    if name != "" && name[0] == '/' then None
    else
      var cs := CleanComps(Lines.Split(name, '/'), []);
      if cs == [] || cs[0] == ".." then None else Some(cs)
  }

  /** What path.Clean keeps: some leading `..`, then normal components. */
  ghost predicate Climbs(acc: Path) {
    exists k :: 0 <= k <= |acc| && (forall j :: 0 <= j < k ==> acc[j] == "..") && AllNormal(acc[k..])
  }

  lemma {:induction false} CleanCompsClimbs(cs: seq<string>, acc: Path)
    requires forall k :: 0 <= k < |cs| ==> '/' !in cs[k]
    requires Climbs(acc)
    ensures Climbs(CleanComps(cs, acc))
    decreases |cs|
  {
    if cs != [] {
      var k :| 0 <= k <= |acc| && (forall j :: 0 <= j < k ==> acc[j] == "..") && AllNormal(acc[k..]);
      if cs[0] == "" || cs[0] == "." {
        CleanCompsClimbs(cs[1..], acc);
      } else if cs[0] == ".." && acc != [] && acc[|acc| - 1] != ".." {
        var up := acc[..|acc| - 1];
        assert k < |acc|;
        assert up[k..] == acc[k..][..|acc| - 1 - k];
        CleanCompsClimbs(cs[1..], up);
      } else {
        var more := acc + [cs[0]];
        if cs[0] == ".." {
          assert k == |acc|;
          assert more[|more|..] == [];
          assert forall j :: 0 <= j < |more| ==> more[j] == "..";
          assert Climbs(more);
        } else {
          assert more[k..] == acc[k..] + [cs[0]];
        }
        CleanCompsClimbs(cs[1..], more);
      }
    }
  }

  lemma CleanPartsClimb(name: string)
    ensures Climbs(CleanComps(Lines.Split(name, '/'), []))
  {
    Lines.SplitParts(name, '/');
    var parts := Lines.Split(name, '/');
    assert forall k :: 0 <= k < |parts| ==> parts[k] in parts;
    var none: Path := [];
    assert Climbs(none) by { assert none[0..] == []; }
    CleanCompsClimbs(parts, []);
  }

  /** A name that is accepted stays below the entry it starts with: no component
      of it is empty, `.`, `..` or holds a slash. */
  lemma CleanNameIsNormal(name: string)
    requires CleanName(name).Some?
    ensures AllNormal(CleanName(name).value)
  {
    CleanPartsClimb(name);
    var cs := CleanName(name).value;
    var k :| 0 <= k <= |cs| && (forall j :: 0 <= j < k ==> cs[j] == "..") && AllNormal(cs[k..]);
    assert k == 0;
    assert cs[0..] == cs;
  }

  // ---------------------------------------------------------------------
  // What an accepted name means
  // ---------------------------------------------------------------------

  /** One component, taken from directory `at`: nothing and `.` stay, `..` goes up
      (and stays at the top), anything else goes down. */
  function Go(at: Path, c: string): Path {
    if c == "" || c == "." then at
    else if c == ".." then if at == [] then at else at[..|at| - 1]
    else at + [c]
  }

  /** Where components lead from directory `at`. */
  function Resolve(at: Path, cs: seq<string>): Path
    decreases |cs|
  {
    if cs == [] then at else Resolve(Go(at, cs[0]), cs[1..])
  }

  lemma {:induction false} ResolveAppend(at: Path, cs: seq<string>, c: string)
    ensures Resolve(at, cs + [c]) == Go(Resolve(at, cs), c)
    decreases |cs|
  {
    if cs == [] {
      assert Resolve(Go(at, c), [c][1..]) == Go(at, c);
    } else {
      assert (cs + [c])[1..] == cs[1..] + [c];
      ResolveAppend(Go(at, cs[0]), cs[1..], c);
    }
  }

  lemma {:induction false} ResolveNormal(at: Path, p: Path)
    requires AllNormal(p)
    ensures Resolve(at, p) == at + p
    decreases |p|
  {
    if p != [] {
      var n := |p| - 1;
      ResolveNormal(at, p[..n]);
      ResolveAppend(at, p[..n], p[n]);
      assert p == p[..n] + [p[n]];
      assert Normal(p[n]);
    } else {
      assert at + p == at;
    }
  }

  /** Cleaning components changes nothing about where they lead, from anywhere. */
  lemma {:induction false} CleanCompsLeads(at: Path, cs: seq<string>, acc: Path)
    requires forall k :: 0 <= k < |acc| ==> acc[k] != "" && acc[k] != "."
    ensures Resolve(at, CleanComps(cs, acc)) == Resolve(Resolve(at, acc), cs)
    decreases |cs|
  {
    if cs != [] {
      if cs[0] == "" || cs[0] == "." {
        CleanCompsLeads(at, cs[1..], acc);
      } else if cs[0] == ".." && acc != [] && acc[|acc| - 1] != ".." {
        var n := |acc| - 1;
        ResolveAppend(at, acc[..n], acc[n]);
        assert acc == acc[..n] + [acc[n]];
        CleanCompsLeads(at, cs[1..], acc[..n]);
      } else {
        ResolveAppend(at, acc, cs[0]);
        CleanCompsLeads(at, cs[1..], acc + [cs[0]]);
      }
    }
  }

  /** From a directory right below the top, climbing first cannot lead deeper
      below it. */
  lemma ClimbsOut(z: string, cs: Path)
    requires Climbs(cs) && cs != [] && cs[0] == ".."
    ensures |Resolve([z], cs)| == |Resolve([], cs)|
  {
    assert Go([z], cs[0]) == Go([], cs[0]) by { assert [z][..0] == []; }
  }

  /** An entry's name is accepted as path `p` exactly if it is relative and leads,
      from whatever directory it is followed, strictly below it, to `p`. */
  lemma CleanNameExact(name: string, p: Path)
    ensures CleanName(name) == Some(p)
            <==> (name == "" || name[0] != '/') && p != []
                 && forall at: Path :: Resolve(at, Lines.Split(name, '/')) == at + p
  {
    var parts := Lines.Split(name, '/');
    var cs := CleanComps(parts, []);
    forall at: Path ensures Resolve(at, cs) == Resolve(at, parts) {
      CleanCompsLeads(at, parts, []);
      assert Resolve(at, []) == at;
    }
    if CleanName(name) == Some(p) {
      CleanNameIsNormal(name);
      forall at: Path ensures Resolve(at, parts) == at + p {
        ResolveNormal(at, p);
      }
    }
    if (name == "" || name[0] != '/') && p != [] && forall at: Path :: Resolve(at, parts) == at + p {
      assert Resolve([], parts) == [] + p && Resolve(["z"], parts) == ["z"] + p;
      CleanPartsClimb(name);
      if cs != [] && cs[0] == ".." {
        ClimbsOut("z", cs);
      } else if cs != [] {
        CleanNameIsNormal(name);
        ResolveNormal([], cs);
        assert [] + cs == cs && [] + p == p;
      }
    }
  }

  // ---------------------------------------------------------------------
  // What readArchive accepts
  // ---------------------------------------------------------------------

  predicate Considered(h: Header) { h.flag != GlobalHeader }

  predicate Kept(h: Header) { h.flag.Reg? || h.flag.Directory? || h.flag.SymLink? || h.flag.HardLink? }

  /** Header `h` names path `p`. */
  predicate Names(h: Header, p: Path) { Considered(h) && CleanName(h.name) == Some(p) }

  /** Some header among `hs`, of one of the types `flags`, names `p`. */
  ghost predicate NamedBy(hs: seq<Header>, p: Path, flags: set<TypeFlag>) {
    exists k :: 0 <= k < |hs| && Names(hs[k], p) && hs[k].flag in flags
  }

  /** What one more header adds to NamedBy. */
  lemma NamedByNext(hs: seq<Header>, h: Header, flags: set<TypeFlag>)
    ensures forall p :: NamedBy(hs + [h], p, flags) <==> NamedBy(hs, p, flags) || (Names(h, p) && h.flag in flags)
  {
    var next := hs + [h];
    forall p
      ensures NamedBy(next, p, flags) <==> NamedBy(hs, p, flags) || (Names(h, p) && h.flag in flags)
    {
      assert next[|hs|] == h;
      if NamedBy(hs, p, flags) {
        var k :| 0 <= k < |hs| && Names(hs[k], p) && hs[k].flag in flags;
        assert next[k] == hs[k];
      }
    }
  }

  const KEPT: set<TypeFlag> := {Reg, Directory, SymLink, HardLink}
  const ANY: set<TypeFlag> := KEPT + {Unsupported}

  ghost predicate NamesClean(hs: seq<Header>) {
    forall i :: 0 <= i < |hs| && Considered(hs[i]) ==> CleanName(hs[i].name).Some?
  }

  /** One path, one entry, skipped entries included. */
  ghost predicate NamedOnce(hs: seq<Header>) {
    forall i, j :: 0 <= i < j < |hs| && Considered(hs[i]) && Considered(hs[j]) ==>
      CleanName(hs[i].name) != CleanName(hs[j].name)
  }

  /** A hard link names an earlier file, or hard link, of its own entry. */
  ghost predicate LinkInside(hs: seq<Header>, i: nat)
    requires i < |hs|
  {
    var t := CleanName(hs[i].linkname);
    && t.Some?
    && CleanName(hs[i].name).Some?
    && t.value[0] == CleanName(hs[i].name).value[0]
    && NamedBy(hs[..i], t.value, {Reg, HardLink})
  }

  ghost predicate Acceptable(hs: seq<Header>) {
    && NamesClean(hs)
    && NamedOnce(hs)
    && forall i :: 0 <= i < |hs| && hs[i].flag.HardLink? ==> LinkInside(hs, i)
  }

  // ---------------------------------------------------------------------
  // The listing, grouped by top-level entry
  // ---------------------------------------------------------------------

  function IndexOf(es: seq<ArchiveEntry>, top: Name): (i: nat)
    ensures i <= |es|
    ensures i < |es| ==> es[i].name == top
    ensures forall k :: 0 <= k < i ==> es[k].name != top
  {
    if es == [] then 0 else if es[0].name == top then 0 else 1 + IndexOf(es[1..], top)
  }

  function AddPath(es: seq<ArchiveEntry>, h: Header): seq<ArchiveEntry> {
    match CleanName(h.name)
    case Some(p) =>
      if !Kept(h) then es
      else
        var i := IndexOf(es, p[0]);
        var path := ArchivePath(p[1..], h.flag.Directory?);
        if i < |es| then es[i := es[i].(paths := es[i].paths + [path])]
        else es + [ArchiveEntry(p[0], [path])]
    case None => es
  }

  function Listing(hs: seq<Header>): seq<ArchiveEntry> {
    if hs == [] then [] else AddPath(Listing(hs[..|hs| - 1]), hs[|hs| - 1])
  }

  ghost predicate Lists(es: seq<ArchiveEntry>, top: Name, path: ArchivePath) {
    exists i :: 0 <= i < |es| && es[i].name == top && path in es[i].paths
  }

  ghost predicate DistinctTops(es: seq<ArchiveEntry>) {
    forall i, j :: 0 <= i < j < |es| ==> es[i].name != es[j].name
  }

  /** Some kept header of `hs` is what the listing shows as `path` below `top`. */
  ghost predicate ListedFrom(hs: seq<Header>, top: Name, path: ArchivePath) {
    exists k :: 0 <= k < |hs| && Kept(hs[k]) && Names(hs[k], [top] + path.rel)
                && path.isDir == hs[k].flag.Directory?
  }

  lemma AddPathAdds(es: seq<ArchiveEntry>, h: Header)
    requires DistinctTops(es)
    ensures DistinctTops(AddPath(es, h))
    ensures forall top, path :: Lists(AddPath(es, h), top, path) <==>
              Lists(es, top, path)
              || (Kept(h) && CleanName(h.name) == Some([top] + path.rel) && path.isDir == h.flag.Directory?)
  {
    hide CleanName;
    if Kept(h) && CleanName(h.name).Some? {
      var p, es' := CleanName(h.name).value, AddPath(es, h);
      var i, added := IndexOf(es, p[0]), ArchivePath(p[1..], h.flag.Directory?);
      assert p == [p[0]] + p[1..];
      forall top, path
        ensures Lists(es', top, path) <==>
                Lists(es, top, path) || (p == [top] + path.rel && path.isDir == h.flag.Directory?)
      {
        if Lists(es, top, path) {
          var j :| 0 <= j < |es| && es[j].name == top && path in es[j].paths;
          assert es'[j].name == top && path in es'[j].paths;
        }
        if p == [top] + path.rel && path.isDir == h.flag.Directory? {
          assert path.rel == p[1..];
          assert es'[i].name == top && added in es'[i].paths;
        }
        if Lists(es', top, path) {
          var j :| 0 <= j < |es'| && es'[j].name == top && path in es'[j].paths;
          assert (j < |es| && path in es[j].paths) || (j == i && path == added);
        }
      }
    }
  }

  /** The listing shows exactly the kept entries, one group for each top name. */
  lemma {:induction false} ListingExact(hs: seq<Header>)
    ensures DistinctTops(Listing(hs))
    ensures forall top, path :: Lists(Listing(hs), top, path) <==> ListedFrom(hs, top, path)
  {
    hide CleanName;
    if hs != [] {
      var n := |hs| - 1;
      ListingExact(hs[..n]);
      AddPathAdds(Listing(hs[..n]), hs[n]);
      forall top, path
        ensures ListedFrom(hs, top, path) <==>
                ListedFrom(hs[..n], top, path)
                || (Kept(hs[n]) && CleanName(hs[n].name) == Some([top] + path.rel) && path.isDir == hs[n].flag.Directory?)
      {
        if ListedFrom(hs[..n], top, path) {
          var k :| 0 <= k < n && Kept(hs[..n][k]) && Names(hs[..n][k], [top] + path.rel)
                   && path.isDir == hs[..n][k].flag.Directory?;
          assert hs[k] == hs[..n][k];
        }
        if ListedFrom(hs, top, path) {
          var k :| 0 <= k < |hs| && Kept(hs[k]) && Names(hs[k], [top] + path.rel)
                   && path.isDir == hs[k].flag.Directory?;
          assert k < n ==> hs[..n][k] == hs[k];
        }
      }
    }
  }

  // ---------------------------------------------------------------------
  // readArchive
  // ---------------------------------------------------------------------

  // The sets readArchive keeps, as functions of the headers read so far.
  function NamedSet(hs: seq<Header>, flags: set<TypeFlag>): set<Path> {
    if hs == [] then {}
    else
      var h, rest := hs[|hs| - 1], NamedSet(hs[..|hs| - 1], flags);
      match CleanName(h.name)
      case Some(p) => if Considered(h) && h.flag in flags then rest + {p} else rest
      case None => rest
  }

  lemma {:induction false} NamedSetExact(hs: seq<Header>, flags: set<TypeFlag>)
    ensures forall p :: p in NamedSet(hs, flags) <==> NamedBy(hs, p, flags)
  {
    if hs != [] {
      NamedSetExact(hs[..|hs| - 1], flags);
      NamedByNext(hs[..|hs| - 1], hs[|hs| - 1], flags);
      assert hs == hs[..|hs| - 1] + [hs[|hs| - 1]];
    }
  }

  /** The decision about one header, from those sets. */
  predicate NextAccepted(hs: seq<Header>, h: Header) {
    Considered(h) ==>
      match CleanName(h.name)
      case None => false
      case Some(name) =>
        && name !in NamedSet(hs, ANY)
        && (h.flag.HardLink? ==>
              match CleanName(h.linkname)
              case None => false
              case Some(target) =>
                && target[0] == name[0]
                && target in NamedSet(hs, KEPT)
                && target !in NamedSet(hs, {Directory})
                && target !in NamedSet(hs, {SymLink}))
  }

  lemma AcceptableNext(hs: seq<Header>, h: Header)
    ensures Acceptable(hs + [h]) <==> Acceptable(hs) && NextAccepted(hs, h)
  {
    hide CleanName;
    var next := hs + [h];
    assert next[..|hs|] == hs;
    assert next[|hs|] == h;
    NamedSetExact(hs, ANY);
    NamedSetExact(hs, KEPT);
    NamedSetExact(hs, {Directory});
    NamedSetExact(hs, {SymLink});
    if Acceptable(next) {
      AcceptablePrefix(next, |hs|);
      assert forall k :: 0 <= k < |hs| ==> next[k] == hs[k];
      if h.flag.HardLink? {
        assert LinkInside(next, |hs|);
      }
    }
    if Acceptable(hs) && NextAccepted(hs, h) {
      assert NamedOnce(next) by {
        forall i, j | 0 <= i < j < |next| && Considered(next[i]) && Considered(next[j])
          ensures CleanName(next[i].name) != CleanName(next[j].name)
        {
          if j == |hs| {
            assert Names(hs[i], CleanName(hs[i].name).value);
          }
        }
      }
      forall i | 0 <= i < |next| && next[i].flag.HardLink? ensures LinkInside(next, i) {
        assert next[..i] == if i < |hs| then hs[..i] else hs;
        if i < |hs| {
          assert LinkInside(hs, i);
        }
      }
    }
  }

  lemma AcceptablePrefix(hs: seq<Header>, n: nat)
    requires Acceptable(hs) && n <= |hs|
    ensures Acceptable(hs[..n])
  {
    forall i | 0 <= i < n && hs[..n][i].flag.HardLink? ensures LinkInside(hs[..n], i) {
      assert hs[..n][..i] == hs[..i];
      assert LinkInside(hs, i);
    }
  }

  /** Accepted header by header. */
  predicate Accepts(hs: seq<Header>) {
    hs == [] || (Accepts(hs[..|hs| - 1]) && NextAccepted(hs[..|hs| - 1], hs[|hs| - 1]))
  }

  lemma {:induction false} AcceptsExact(hs: seq<Header>)
    ensures Accepts(hs) <==> Acceptable(hs)
  {
    if hs != [] {
      AcceptsExact(hs[..|hs| - 1]);
      AcceptableNext(hs[..|hs| - 1], hs[|hs| - 1]);
      assert hs == hs[..|hs| - 1] + [hs[|hs| - 1]];
    }
  }

  lemma {:induction false} RefusedForGood(hs: seq<Header>, n: nat)
    requires n <= |hs| && !Accepts(hs[..n])
    ensures !Accepts(hs)
    decreases |hs| - n
  {
    if n < |hs| {
      assert hs[..n + 1][..n] == hs[..n];
      RefusedForGood(hs, n + 1);
    } else {
      assert hs[..n] == hs;
    }
  }

  ghost predicate Indexed(index: map<Name, nat>, es: seq<ArchiveEntry>) {
    && (forall t :: t in index <==> IndexOf(es, t) < |es|)
    && (forall t :: t in index ==> index[t] == IndexOf(es, t))
  }

  lemma {:induction false} IndexOfAppend(es: seq<ArchiveEntry>, e: ArchiveEntry, t: Name)
    ensures IndexOf(es + [e], t) ==
            if IndexOf(es, t) < |es| then IndexOf(es, t) else if e.name == t then |es| else |es| + 1
  {
    if es != [] {
      assert (es + [e])[1..] == es[1..] + [e];
      IndexOfAppend(es[1..], e, t);
    }
  }

  lemma IndexOfUpdate(es: seq<ArchiveEntry>, at: nat, paths: seq<ArchivePath>, t: Name)
    requires at < |es|
    ensures IndexOf(es[at := es[at].(paths := paths)], t) == IndexOf(es, t)
  {
    var es' := es[at := es[at].(paths := paths)];
    var i, j := IndexOf(es', t), IndexOf(es, t);
    assert i < |es| ==> es[i].name == t;
    assert j < |es| ==> es'[j].name == t;
  }

  lemma AddPathSkips(es: seq<ArchiveEntry>, h: Header)
    ensures !Kept(h) ==> AddPath(es, h) == es
  {
  }

  /** The source's two steps, a group made if need be and then a path appended
      to it, are one AddPath, and the index stays right. */
  lemma AddPathByIndex(index: map<Name, nat>, es: seq<ArchiveEntry>, h: Header)
    requires Indexed(index, es) && Kept(h) && CleanName(h.name).Some?
    ensures var p := CleanName(h.name).value;
            var index' := if p[0] in index then index else index[p[0] := |es|];
            var made := if p[0] in index then es else es + [ArchiveEntry(p[0], [])];
            var at := index'[p[0]];
            && at < |made|
            && made[at := made[at].(paths := made[at].paths + [ArchivePath(p[1..], h.flag.Directory?)])] == AddPath(es, h)
            && Indexed(index', AddPath(es, h))
  {
    hide CleanName;
    var p := CleanName(h.name).value;
    var made := if p[0] in index then es else es + [ArchiveEntry(p[0], [])];
    var at := if p[0] in index then index[p[0]] else |es|;
    AddPathThere(index, es, h);
    forall t ensures IndexOf(AddPath(es, h), t) == IndexAfter(index, es, p[0], t) {
      IndexOfAdded(index, es, h, t);
    }
    IndexOfAppend(es, ArchiveEntry(p[0], []), p[0]);
    hide AddPath, IndexOf;
    AddedLength(index, es, h);
  }

  /** Where `t`'s group is once a path below `top` was added. */
  function IndexAfter(index: map<Name, nat>, es: seq<ArchiveEntry>, top: Name, t: Name): nat {
    if top !in index && IndexOf(es, t) >= |es| && t != top then |es| + 1 else IndexOf(es, t)
  }

  lemma IndexOfAdded(index: map<Name, nat>, es: seq<ArchiveEntry>, h: Header, t: Name)
    requires Indexed(index, es) && Kept(h) && CleanName(h.name).Some?
    ensures IndexOf(AddPath(es, h), t) == IndexAfter(index, es, CleanName(h.name).value[0], t)
  {
    hide CleanName;
    var p := CleanName(h.name).value;
    var made := if p[0] in index then es else es + [ArchiveEntry(p[0], [])];
    var at := if p[0] in index then index[p[0]] else |es|;
    AddPathThere(index, es, h);
    hide AddPath, IndexOf;
    IndexOfAppend(es, ArchiveEntry(p[0], []), t);
    IndexOfUpdate(made, at, made[at].paths + [ArchivePath(p[1..], h.flag.Directory?)], t);
  }

  lemma AddedLength(index: map<Name, nat>, es: seq<ArchiveEntry>, h: Header)
    requires Indexed(index, es) && Kept(h) && CleanName(h.name).Some?
    ensures |AddPath(es, h)| == if CleanName(h.name).value[0] in index then |es| else |es| + 1
  {
    hide CleanName;
    AddPathThere(index, es, h);
    hide AddPath, IndexOf;
  }

  /** The path goes to the group its index names. */
  lemma AddPathThere(index: map<Name, nat>, es: seq<ArchiveEntry>, h: Header)
    requires Indexed(index, es) && Kept(h) && CleanName(h.name).Some?
    ensures var p := CleanName(h.name).value;
            var made := if p[0] in index then es else es + [ArchiveEntry(p[0], [])];
            var at := if p[0] in index then index[p[0]] else |es|;
            && at < |made|
            && made[at := made[at].(paths := made[at].paths + [ArchivePath(p[1..], h.flag.Directory?)])] == AddPath(es, h)
  {
    hide CleanName;
    var p := CleanName(h.name).value;
    var made := if p[0] in index then es else es + [ArchiveEntry(p[0], [])];
    var at := if p[0] in index then index[p[0]] else |es|;
    var paths := made[at].paths + [ArchivePath(p[1..], h.flag.Directory?)];
    assert p[0] !in index ==> made[at].paths == [] && paths == [ArchivePath(p[1..], h.flag.Directory?)];
  }

  /** One header more, in the specification's terms. */
  lemma ReadNext(hs: seq<Header>, i: nat)
    requires i < |hs|
    ensures Accepts(hs[..i + 1]) <==> Accepts(hs[..i]) && NextAccepted(hs[..i], hs[i])
    ensures Listing(hs[..i + 1]) == AddPath(Listing(hs[..i]), hs[i])
    ensures forall flags :: NamedSet(hs[..i + 1], flags) ==
                            if Considered(hs[i]) && hs[i].flag in flags && CleanName(hs[i].name).Some?
                            then NamedSet(hs[..i], flags) + {CleanName(hs[i].name).value} else NamedSet(hs[..i], flags)
  {
    hide CleanName, NextAccepted, AddPath;
    assert hs[..i + 1][..i] == hs[..i];
  }

  /** readArchive: refuses, or lists the whole archive, before anything is
      extracted. */
  method ReadArchive(tar: Tar) returns (r: Option<seq<ArchiveEntry>>)
    ensures r.Some? <==> !tar.broken && Acceptable(tar.headers)
    ensures r.Some? ==> r.value == Listing(tar.headers)
  {
    hide CleanName, AddPath, IndexOf, Acceptable;
    var hs := tar.headers;
    AcceptsExact(hs);
    assert Accepts([]) && Listing([]) == [] && forall flags :: NamedSet([], flags) == {};
    hide Accepts, Listing, NamedSet;
    var entries: seq<ArchiveEntry> := [];
    var index: map<Name, nat> := map[];
    var seen: set<Path> := {};
    var named: set<Path> := {};
    var isDir: set<Path> := {};
    var isLink: set<Path> := {};
    var i := 0;
    while i < |hs|
      invariant 0 <= i <= |hs|
      invariant Accepts(hs[..i])
      invariant entries == Listing(hs[..i]) && Indexed(index, entries)
      invariant named == NamedSet(hs[..i], ANY) && seen == NamedSet(hs[..i], KEPT)
      invariant isDir == NamedSet(hs[..i], {Directory}) && isLink == NamedSet(hs[..i], {SymLink})
    {
      var h := hs[i];
      ReadNext(hs, i);
      AddPathSkips(entries, h);
      i := i + 1;
      if h.flag == GlobalHeader {
        continue;
      }
      var clean := CleanName(h.name);
      if clean.None? || clean.value in named {
        RefusedForGood(hs, i);
        return None;
      }
      var name := clean.value;
      CleanNameIsNormal(h.name);
      named := named + {name};
      var top := name[0];
      if h.flag.HardLink? {
        var target := CleanName(h.linkname);
        if target.None? {
          RefusedForGood(hs, i);
          return None;
        }
        CleanNameIsNormal(h.linkname);
        if target.value[0] != top || target.value !in seen || target.value in isDir || target.value in isLink {
          RefusedForGood(hs, i);
          return None;
        }
      }
      if !Kept(h) {
        continue;
      }
      seen := seen + {name};
      if h.flag.Directory? {
        isDir := isDir + {name};
      }
      if h.flag.SymLink? {
        isLink := isLink + {name};
      }
      AddPathByIndex(index, entries, h);
      if top !in index {
        index := index[top := |entries|];
        entries := entries + [ArchiveEntry(top, [])];
      }
      var at := index[top];
      entries := entries[at := entries[at].(paths := entries[at].paths + [ArchivePath(name[1..], h.flag.Directory?)])];
    }
    assert hs[..i] == hs;
    if tar.broken {
      return None;
    }
    return Some(entries);
  }
}
