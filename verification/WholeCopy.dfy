/** What a copy that answers true has put down, and when it does, with force and
    without. */
module WholeCopy {
  import opened Wrappers
  import opened FileSystem
  import opened Archive
  import opened Extract
  import opened ExtractSafety
  import opened NoClobber
  import opened CopyOut
  import opened Arrival
  import opened CopyOutSafety
  import opened Overwriting
  import opened Unpacking
  import Exposure

  // ---------------------------------------------------------------------
  // Every source
  // ---------------------------------------------------------------------

  /** Everything every source names stands. */
  ghost predicate AllUnpacked(a: Fs, b: Fs, p: Place, base: Name, entries: seq<ArchiveEntry>, tars: seq<Tar>)
    requires |entries| == |tars|
  {
    forall e :: 0 <= e < |entries| ==> Unpacked(a, b, p.dir, RootOf(entries[e], base, p.into), tars[e].headers)
  }

  /** Source `e` finds its places: with nothing failing (`quiet`) all can be put down,
      and else those of its files and links are free. */
  ghost predicate Room(a: Fs, p: Place, base: Name, entry: ArchiveEntry, tar: Tar, force: bool, quiet: bool) {
    var root := RootOf(entry, base, p.into);
    if quiet then AllPuttable(a, p.dir, entry.name, root, tar.headers, force) else FreeFiles(a, p.dir, root, tar.headers)
  }

  /** So far nothing was touched in the destination directory itself, below the roots
      still to come, nor any file that was there. */
  ghost predicate Untouched(a: Fs, fs: Fs, p: Place, base: Name, entries: seq<ArchiveEntry>) {
    && fs.WellFormed() && fs.IsDir(p.dir) && SameAt(p.dir, a, fs) && OldInodes(a, fs) && fs.umask == a.umask
    && forall e, q :: e in entries && p.dir + [RootOf(e, base, p.into)] <= q ==> SameAt(q, a, fs)
  }

  /** The account of one header depends on the directory and what is below the root. */
  lemma PuttableSame(a: Fs, b: Fs, d: Path, top: Name, root: Name, hs: seq<Header>, n: nat, force: bool)
    requires n < |hs| && b.umask == a.umask && SameAt(d, a, b) && forall q :: d + [root] <= q ==> SameAt(q, a, b)
    ensures Puttable(a, d, top, root, hs, n, force) <==> Puttable(b, d, top, root, hs, n, force)
  {
    hide CleanName;
    forall t: Path, k: nat | k <= |t| && t != [] && t[0] == root
      ensures Enterable(a, d, root, hs, n, t[..k]) <==> Enterable(b, d, root, hs, n, t[..k])
      ensures Growable(a, d, root, hs, n, t[..k]) <==> Growable(b, d, root, hs, n, t[..k])
    {
      AccountSame(a, b, d, root, hs, n, t, k);
    }
    forall t: Path | t != [] && t[0] == root ensures SameAt(d + t, a, b) {
      assert d + [root] <= d + t;
    }
    hide Enterable, Growable;
    if CleanName(hs[n].name).Some? {
      var t := Target(root, hs[n]);
      assert t != [] && t[0] == root;
      assert SameAt(d + t, a, b);
      assert Open(a, d, root, hs, n, t) <==> Open(b, d, root, hs, n, t);
    }
  }

  lemma AccountSame(a: Fs, b: Fs, d: Path, root: Name, hs: seq<Header>, n: nat, t: Path, k: nat)
    requires b.umask == a.umask && SameAt(d, a, b) && forall q :: d + [root] <= q ==> SameAt(q, a, b)
    requires k <= |t| && t != [] && t[0] == root
    ensures Enterable(a, d, root, hs, n, t[..k]) <==> Enterable(b, d, root, hs, n, t[..k])
    ensures Growable(a, d, root, hs, n, t[..k]) <==> Growable(b, d, root, hs, n, t[..k])
  {
    hide CleanName;
    assert SameAt(d + t[..k], a, b) by {
      if k == 0 {
        assert d + t[..0] == d;
      } else {
        assert d + [root] <= d + t[..k];
      }
    }
  }

  lemma RoomSame(a: Fs, b: Fs, p: Place, base: Name, entry: ArchiveEntry, tar: Tar, force: bool, quiet: bool)
    requires Room(a, p, base, entry, tar, force, quiet) && b.umask == a.umask && SameAt(p.dir, a, b)
    requires forall q :: p.dir + [RootOf(entry, base, p.into)] <= q ==> SameAt(q, a, b)
    ensures Room(b, p, base, entry, tar, force, quiet)
  {
    hide CleanName, Puttable;
    var root, hs := RootOf(entry, base, p.into), tar.headers;
    if quiet {
      forall n | 0 <= n < |hs| ensures Puttable(b, p.dir, entry.name, root, hs, n, force) {
        PuttableSame(a, b, p.dir, entry.name, root, hs, n, force);
      }
    } else {
      forall k | 0 <= k < |hs| && Kept(hs[k]) && !hs[k].flag.Directory? && CleanName(hs[k].name).Some?
        ensures p.dir + Target(root, hs[k]) !in b.nodes
      {
        assert p.dir + [root] <= p.dir + Target(root, hs[k]);
        assert SameAt(p.dir + Target(root, hs[k]), a, b);
      }
    }
  }

  /** What was unpacked onto `b` was unpacked onto `a`. */
  lemma UnpackedFrom(a: Fs, b: Fs, c: Fs, d: Path, root: Name, hs: seq<Header>)
    requires Unpacked(b, c, d, root, hs) && OldInodes(a, b) && b.umask == a.umask
    requires forall q :: d + [root] <= q ==> SameAt(q, a, b)
    ensures Unpacked(a, c, d, root, hs)
  {
    hide CleanName, LinkSource;
    forall k | 0 <= k < |hs| && Kept(hs[k]) ensures CleanName(hs[k].name).Some? && Stands(a, c, d, root, hs[k], true) {
      assert Stands(b, c, d, root, hs[k], true);
      assert d + [root] <= d + Target(root, hs[k]);
      assert SameAt(d + Target(root, hs[k]), a, b);
    }
  }

  /** What stands below one root goes on standing while another is filled. */
  lemma UnpackedStays(a: Fs, b: Fs, c: Fs, d: Path, root: Name, hs: seq<Header>)
    requires Unpacked(a, b, d, root, hs) && OldInodes(b, c)
    requires forall q :: d + [root] <= q ==> SameAt(q, b, c)
    ensures Unpacked(a, c, d, root, hs)
  {
    hide CleanName;
    forall k | 0 <= k < |hs| && Kept(hs[k]) ensures CleanName(hs[k].name).Some? && Stands(a, c, d, root, hs[k], true) {
      assert Stands(a, b, d, root, hs[k], true);
      assert d + [root] <= d + Target(root, hs[k]) && d + [root] <= d + LinkSource(root, hs[k].linkname);
      assert SameAt(d + Target(root, hs[k]), b, c) && SameAt(d + LinkSource(root, hs[k].linkname), b, c);
    }
  }

  /** The first source, extracted. */
  lemma FirstPut(a: Fs, fs: Fs, p: Place, base: Name, entries: seq<ArchiveEntry>, tars: seq<Tar>, force: bool, quiet: bool)
    requires AllRead(entries, tars) && entries != [] && Normal(base) && Untouched(a, fs, p, base, entries)
    requires Room(a, p, base, entries[0], tars[0], force, quiet) && (quiet ==> fs.faults == [])
    ensures var root := RootOf(entries[0], base, p.into);
            var (fs', ok) := Extraction(fs, p.dir, entries[0].name, root, tars[0], force);
            && Confined(p.dir + [root], fs, fs') && fs'.WellFormed()
            && (quiet ==> ok && fs'.faults == [])
            && (ok ==> Unpacked(a, fs', p.dir, root, tars[0].headers) && fs'.umask == fs.umask && OldInodes(fs, fs'))
  {
    hide Extraction, Acceptable, Listing, Fs.WellFormed, Confined, AllPuttable, FreeFiles, CleanName;
    var e, hs, root := entries[0], tars[0].headers, RootOf(entries[0], base, p.into);
    TopIsNormal(hs, e);
    ExtractionConfined(fs, p.dir, e.name, root, tars[0], force);
    assert e in entries;
    RoomSame(a, fs, p, base, e, tars[0], force, quiet);
    if quiet {
      ExtractionQuiet(fs, p.dir, e.name, root, tars[0], force);
    } else {
      ExtractionPuts(fs, p.dir, e.name, root, tars[0], force);
    }
    var (fs', ok) := Extraction(fs, p.dir, e.name, root, tars[0], force);
    if ok {
      assert OldInodes(fs, fs');
      UnpackedFrom(a, fs, fs', p.dir, root, hs);
    }
  }

  lemma UntouchedNext(a: Fs, fs: Fs, fs': Fs, p: Place, base: Name, entries: seq<ArchiveEntry>)
    requires Untouched(a, fs, p, base, entries) && entries != [] && DistinctTops(entries) && (p.into || |entries| <= 1)
    requires Confined(p.dir + [RootOf(entries[0], base, p.into)], fs, fs') && fs'.WellFormed()
    requires fs'.umask == fs.umask && OldInodes(fs, fs')
    ensures Untouched(a, fs', p, base, entries[1..])
  {
    hide Fs.WellFormed;
    assert SameAt(p.dir, fs, fs');
    forall e, q | e in entries[1..] && p.dir + [RootOf(e, base, p.into)] <= q ensures SameAt(q, a, fs') {
      var k :| 0 <= k < |entries[1..]| && entries[1..][k] == e;
      assert entries[k + 1] == e && entries[0].name != e.name;
      RootsApart(p.dir, RootOf(e, base, p.into), RootOf(entries[0], base, p.into), q);
      assert SameAt(q, fs, fs');
      assert SameAt(q, a, fs);
    }
  }

  lemma RootsApart(d: Path, r: Name, s: Name, q: Path)
    requires r != s && d + [r] <= q
    ensures !(d + [s] <= q)
  {
    assert (d + [r])[|d|] == r && (d + [s])[|d|] == s && q[|d|] == r;
  }

  ghost predicate NoRoot(r: Name, p: Place, base: Name, entries: seq<ArchiveEntry>) {
    forall e :: e in entries ==> r != RootOf(e, base, p.into)
  }

  ghost predicate SameUnder(top: Path, a: Fs, b: Fs) { forall q :: top <= q ==> SameAt(q, a, b) }

  /** The roots of the sources still to come are all that changes. */
  ghost predicate RestOnly(a: Fs, b: Fs, p: Place, base: Name, entries: seq<ArchiveEntry>) {
    OldInodes(a, b) && forall r :: NoRoot(r, p, base, entries) ==> SameUnder(p.dir + [r], a, b)
  }

  lemma RestMore(a: Fs, b: Fs, c: Fs, p: Place, base: Name, entries: seq<ArchiveEntry>)
    requires entries != [] && Confined(p.dir + [RootOf(entries[0], base, p.into)], a, b) && OldInodes(a, b)
    requires RestOnly(b, c, p, base, entries[1..])
    ensures RestOnly(a, c, p, base, entries)
  {
    forall r | NoRoot(r, p, base, entries) ensures SameUnder(p.dir + [r], a, c) {
      assert entries[0] in entries;
      assert forall e :: e in entries[1..] ==> e in entries;
      assert NoRoot(r, p, base, entries[1..]);
      forall q | p.dir + [r] <= q ensures SameAt(q, a, c) {
        RootsApart(p.dir, r, RootOf(entries[0], base, p.into), q);
        assert SameAt(q, a, b) && SameAt(q, b, c);
      }
    }
  }

  /** What the first source put stays while the others are extracted. */
  lemma FirstStays(a: Fs, b: Fs, c: Fs, p: Place, base: Name, entries: seq<ArchiveEntry>, hs: seq<Header>)
    requires entries != [] && DistinctTops(entries) && (p.into || |entries| <= 1)
    requires Unpacked(a, b, p.dir, RootOf(entries[0], base, p.into), hs) && RestOnly(b, c, p, base, entries[1..])
    ensures Unpacked(a, c, p.dir, RootOf(entries[0], base, p.into), hs)
  {
    hide Unpacked;
    var root := RootOf(entries[0], base, p.into);
    forall e | e in entries[1..] ensures root != RootOf(e, base, p.into) {
      var k :| 0 <= k < |entries[1..]| && entries[1..][k] == e;
      assert entries[k + 1] == e && entries[0].name != e.name;
    }
    assert NoRoot(root, p, base, entries[1..]);
    UnpackedStays(a, b, c, p.dir, root, hs);
  }

  /** The sources, extracted one after the other, each under a root of its own. */
  lemma {:induction false} ExtractAllPuts(a: Fs, fs: Fs, p: Place, base: Name, entries: seq<ArchiveEntry>, tars: seq<Tar>, force: bool,
                                          quiet: bool)
    requires AllRead(entries, tars) && Normal(base) && Untouched(a, fs, p, base, entries) && (p.into || |entries| <= 1)
    requires forall e :: 0 <= e < |entries| ==> Room(a, p, base, entries[e], tars[e], force, quiet)
    requires quiet ==> fs.faults == []
    ensures var (fs', ok) := ExtractAll(fs, p, base, entries, tars, force);
            && (quiet ==> ok)
            && (ok ==> AllUnpacked(a, fs', p, base, entries, tars) && RestOnly(fs, fs', p, base, entries))
    decreases |entries|
  {
    hide Extraction, Room, Untouched, Unpacked, Confined, RestOnly;
    if entries == [] {
      NothingOnly(fs, p, base);
    } else {
      FirstPut(a, fs, p, base, entries, tars, force, quiet);
      var root := RootOf(entries[0], base, p.into);
      var (fs1, ok) := Extraction(fs, p.dir, entries[0].name, root, tars[0], force);
      if ok {
        AllReadRest(entries, tars);
        UntouchedNext(a, fs, fs1, p, base, entries);
        RoomRest(a, p, base, entries, tars, force, quiet);
        ExtractAllPuts(a, fs1, p, base, entries[1..], tars[1..], force, quiet);
        var (fs', done) := ExtractAll(fs1, p, base, entries[1..], tars[1..], force);
        if done {
          FirstStays(a, fs1, fs', p, base, entries, tars[0].headers);
          RestMore(fs, fs1, fs', p, base, entries);
          AllFromRest(a, fs', p, base, entries, tars);
        }
      }
    }
  }

  lemma NothingOnly(fs: Fs, p: Place, base: Name)
    ensures RestOnly(fs, fs, p, base, [])
  {
  }

  lemma RoomRest(a: Fs, p: Place, base: Name, entries: seq<ArchiveEntry>, tars: seq<Tar>, force: bool, quiet: bool)
    requires |entries| == |tars| > 0 && forall e :: 0 <= e < |entries| ==> Room(a, p, base, entries[e], tars[e], force, quiet)
    ensures forall e :: 0 <= e < |entries[1..]| ==> Room(a, p, base, entries[1..][e], tars[1..][e], force, quiet)
  {
    hide Room;
    forall e | 0 <= e < |entries[1..]| ensures Room(a, p, base, entries[1..][e], tars[1..][e], force, quiet) {
      assert entries[1..][e] == entries[e + 1] && tars[1..][e] == tars[e + 1];
    }
  }

  lemma AllFromRest(a: Fs, b: Fs, p: Place, base: Name, entries: seq<ArchiveEntry>, tars: seq<Tar>)
    requires |entries| == |tars| > 0 && Unpacked(a, b, p.dir, RootOf(entries[0], base, p.into), tars[0].headers)
    requires AllUnpacked(a, b, p, base, entries[1..], tars[1..])
    ensures AllUnpacked(a, b, p, base, entries, tars)
  {
    hide Unpacked;
    forall e | 0 <= e < |entries| ensures Unpacked(a, b, p.dir, RootOf(entries[e], base, p.into), tars[e].headers) {
      if e > 0 {
        assert entries[1..][e - 1] == entries[e] && tars[1..][e - 1] == tars[e];
      }
    }
  }

  // ---------------------------------------------------------------------
  // The whole copy
  // ---------------------------------------------------------------------

  lemma NoConflicts(fs: Fs, p: Place, base: Name, entries: seq<ArchiveEntry>)
    ensures var (fs', conflicts) := AllConflicts(fs, p, base, entries, []);
            && SameStore(fs, fs') && fs'.umask == fs.umask
            && (fs.faults == [] ==> fs'.faults == [] && (conflicts == [] <==> AllFree(fs, p, base, entries)))
  {
    AllConflictsExact(fs, p, base, entries, []);
    hide AllConflicts, FreeAt;
    if fs.faults == [] {
      forall e, k | 0 <= e < |entries| && 0 <= k < |entries[e].paths|
        ensures MissedAt(fs, p, base, entries, e, k) <==> FreeAt(fs, p, base, entries, e, k)
      {
      }
      hide MissedAt;
    }
  }

  lemma UntouchedStart(a: Fs, fs: Fs, p: Place, base: Name, entries: seq<ArchiveEntry>)
    requires a.WellFormed() && a.IsDir(p.dir) && SameStore(a, fs) && fs.umask == a.umask
    ensures Untouched(a, fs, p, base, entries)
  {
    StoreKeeps(a, fs, p, base);
  }

  lemma FinishPuts(fs: Fs, p: Place, base: Name, entries: seq<ArchiveEntry>, tars: seq<Tar>, force: bool, quiet: bool)
    requires AllRead(entries, tars) && Normal(base) && fs.WellFormed() && fs.IsDir(p.dir) && (p.into || |entries| <= 1)
    requires forall e :: 0 <= e < |entries| ==> Room(fs, p, base, entries[e], tars[e], force, quiet)
    requires quiet ==> fs.faults == [] && (force || AllFree(fs, p, base, entries))
    ensures var (fs', ok) := Finish(fs, p, base, entries, tars, force);
            (quiet ==> ok) && (ok ==> AllUnpacked(fs, fs', p, base, entries, tars))
  {
    assert |entries| == |tars|;
    hide AllConflicts, ExtractAll, AllRead, Room, AllUnpacked, RestOnly, AllFree, Untouched;
    NoConflicts(fs, p, base, entries);
    var (fs1, conflicts) := AllConflicts(fs, p, base, entries, []);
    UntouchedStart(fs, fs1, p, base, entries);
    if conflicts == [] || force {
      ExtractAllPuts(fs, fs1, p, base, entries, tars, force, quiet);
    }
  }

  /** Main result: whatever fails, with or without force: a copy that answers true has
      put down everything its sources hold, file for file, if the places of their files
      and links were free and each source had a root of its own. */
  lemma TrueMeansWhole(fs: Fs, srcs: seq<Option<Tar>>, at: Path, asDir: bool, force: bool)
    requires fs.WellFormed() && at != [] && AllNormal(at) && Gather(srcs).Some?
    requires (forall k :: 0 <= k < |srcs| ==> srcs[k].Some?) && |Gather(srcs).value| == |srcs|
    requires var (fs1, place) := Destination(fs, at, asDir);
             place.Some? ==>
               var p := place.value;
               && fs1.IsDir(p.dir) && (p.into || |srcs| == 1)
               && forall e :: 0 <= e < |srcs| ==>
                    FreeFiles(fs1, p.dir, RootOf(Gather(srcs).value[e], Last(at), p.into), Tars(srcs)[e].headers)
    ensures var (fs1, place) := Destination(fs, at, asDir);
            var (fs', ok) := CopyOut.CopyOut(fs, srcs, at, asDir, force);
            ok ==> place.Some? && AllUnpacked(fs1, fs', place.value, Last(at), Gather(srcs).value, Tars(srcs))
  {
    hide Gather, Destination, Finish, Fs.WellFormed, FreeFiles, AllUnpacked, Grew, Chosen, AllRead;
    GatherReads(srcs);
    var (fs1, place) := Destination(fs, at, asDir);
    DestinationChosen(fs, at, asDir);
    GrewTree(Landing(fs, at), fs, fs1);
    if place.Some? {
      FinishPuts(fs1, place.value, Last(at), Gather(srcs).value, Tars(srcs), force, false);
    }
  }

  // ---------------------------------------------------------------------
  // With nothing failing
  // ---------------------------------------------------------------------

  /** Where a copy goes when nothing fails: into the destination if its path leads to a
      directory; else, if none is to be made, under its name in the directory above. */
  ghost predicate Aims(fs: Fs, at: Path, asDir: bool, p: Place)
    requires at != []
  {
    fs.IsDir(p.dir)
    && if Leads(fs, at).Some? && fs.IsDir(Leads(fs, at).value) then p == Place(Leads(fs, at).value, true)
       else !asDir && Leads(fs, Up(at)) == Some(p.dir) && !p.into
  }

  lemma StatNow(fs: Fs, at: Path)
    requires fs.WellFormed() && fs.faults == []
    ensures Stat(fs, [], at) == (fs, Leads(fs, at))
  {
    hide Walk;
    Exposure.Found(fs, at);
  }

  lemma AimsThere(fs: Fs, at: Path, asDir: bool, p: Place)
    requires fs.WellFormed() && fs.faults == [] && at != [] && Aims(fs, at, asDir, p)
    ensures Destination(fs, at, asDir) == (fs, Some(p))
  {
    hide Leads, Stat, Fs.WellFormed, Mkdir;
    StatNow(fs, at);
    StatNow(fs, Up(at));
  }

  /** A lookup along a way that is open, as far as it is there. */
  lemma OpenLookup(a: Fs, d: Path, root: Name, hs: seq<Header>, n: nat, t: Path)
    requires Open(a, d, root, hs, n, t) && t != [] && AllNormal(t)
    ensures Lookup(a, d, t).Some? ==> d + t in a.nodes && Lookup(a, d, t).value == a.nodes[d + t]
  {
    hide CleanName, Lookup, AllNormal;
    var up := t[..|t| - 1];
    forall k | 1 <= k <= |up| && d + up[..k] in a.nodes ensures !a.nodes[d + up[..k]].Link? {
      assert up[..k] == t[..k];
      assert Enterable(a, d, root, hs, n, t[..k]);
    }
    assert Plain(a, d, t);
    LookupPlain(a, d, t);
  }

  /** Without force, what can be put down meets no conflict. */
  lemma PuttableIsFree(a: Fs, d: Path, root: Name, e: ArchiveEntry, hs: seq<Header>, k: nat)
    requires Listing(hs) == [e] && Normal(root) && AllPuttable(a, d, e.name, root, hs, false) && k < |e.paths|
    ensures Free(a, d, root, e.paths[k])
  {
    hide Listing, CleanName, Lookup, Open, Growable;
    ListingExact(hs);
    var path := e.paths[k];
    assert Listing(hs)[0].name == e.name && path in Listing(hs)[0].paths;
    assert Lists(Listing(hs), e.name, path);
    var n :| 0 <= n < |hs| && Kept(hs[n]) && Names(hs[n], [e.name] + path.rel) && path.isDir == hs[n].flag.Directory?;
    assert Puttable(a, d, e.name, root, hs, n, false);
    var t := Target(root, hs[n]);
    assert ([e.name] + path.rel)[1..] == path.rel;
    TargetPlace(Job(a, d, root, hs), hs[n]);
    OpenLookup(a, d, root, hs, n, t);
  }

  lemma AllPuttableFree(a: Fs, p: Place, base: Name, entries: seq<ArchiveEntry>, tars: seq<Tar>)
    requires AllRead(entries, tars) && Normal(base)
    requires forall e :: 0 <= e < |entries| ==> Room(a, p, base, entries[e], tars[e], false, true)
    ensures AllFree(a, p, base, entries)
  {
    hide Acceptable, Listing, AllPuttable, Free;
    forall e, k | 0 <= e < |entries| && 0 <= k < |entries[e].paths| ensures FreeAt(a, p, base, entries, e, k) {
      assert Room(a, p, base, entries[e], tars[e], false, true);
      TopIsNormal(tars[e].headers, entries[e]);
      PuttableIsFree(a, p.dir, RootOf(entries[e], base, p.into), entries[e], tars[e].headers, k);
    }
  }

  /** What a copy is given: sources that were all read. */
  ghost predicate Given(srcs: seq<Option<Tar>>, asDir: bool) {
    && srcs != [] && (|srcs| == 1 || asDir) && Gather(srcs).Some?
    && (forall k :: 0 <= k < |srcs| ==> srcs[k].Some?) && |Gather(srcs).value| == |srcs|
  }

  lemma CopyIsFinish(fs: Fs, srcs: seq<Option<Tar>>, at: Path, asDir: bool, force: bool, p: Place)
    requires fs.WellFormed() && fs.faults == [] && at != [] && Given(srcs, asDir) && Aims(fs, at, asDir, p)
    ensures CopyOut.CopyOut(fs, srcs, at, asDir, force) == Finish(fs, p, Last(at), Gather(srcs).value, Tars(srcs), force)
    ensures AllRead(Gather(srcs).value, Tars(srcs)) && (p.into || |srcs| == 1)
  {
    AimsThere(fs, at, asDir, p);
    GatherReads(srcs);
    hide Gather, Destination, Finish, Fs.WellFormed, AllRead, Leads;
  }

  /** Main result: with nothing failing a copy succeeds, and puts down everything, if
      every source's entries can be put down: along directories that are there or come
      with it, where nothing stands, or with force, where files and links stand. */
  lemma CopyPuts(fs: Fs, srcs: seq<Option<Tar>>, at: Path, asDir: bool, force: bool, p: Place)
    requires fs.WellFormed() && fs.faults == [] && at != [] && AllNormal(at) && Given(srcs, asDir) && Aims(fs, at, asDir, p)
    requires forall e :: 0 <= e < |srcs| ==>
               AllPuttable(fs, p.dir, Gather(srcs).value[e].name, RootOf(Gather(srcs).value[e], Last(at), p.into),
                           Tars(srcs)[e].headers, force)
    ensures var (fs', ok) := CopyOut.CopyOut(fs, srcs, at, asDir, force);
            ok && AllUnpacked(fs, fs', p, Last(at), Gather(srcs).value, Tars(srcs))
  {
    hide Gather, Finish, Fs.WellFormed, AllRead, Leads, AllPuttable, AllFree, AllUnpacked;
    CopyIsFinish(fs, srcs, at, asDir, force, p);
    var entries, tars := Gather(srcs).value, Tars(srcs);
    if !force {
      AllPuttableFree(fs, p, Last(at), entries, tars);
    }
    FinishPuts(fs, p, Last(at), entries, tars, force, true);
  }

  /** A copy is refused before it looks at the disk if it has no source, several but no
      directory for them, or one that is not a single entry of a name of its own. */
  lemma RefusedFirst(fs: Fs, srcs: seq<Option<Tar>>, at: Path, asDir: bool, force: bool)
    requires at != []
    requires srcs == [] || (|srcs| > 1 && !asDir) || !exists tops :: Admitted(srcs, tops)
    ensures CopyOut.CopyOut(fs, srcs, at, asDir, force) == (fs, false)
  {
    hide Gather, Admitted, Destination, Finish;
    GatherExact(srcs);
  }

  /** Main result: with nothing failing a copy without force says so when a listed path
      is in the way of any source, and has changed nothing at all. */
  lemma InTheWayRefused(fs: Fs, srcs: seq<Option<Tar>>, at: Path, asDir: bool, p: Place)
    requires fs.WellFormed() && fs.faults == [] && at != [] && AllNormal(at) && Given(srcs, asDir) && Aims(fs, at, asDir, p)
    requires !AllFree(fs, p, Last(at), Gather(srcs).value)
    ensures var (fs', ok) := CopyOut.CopyOut(fs, srcs, at, asDir, false); !ok && SameStore(fs, fs') && fs'.umask == fs.umask
  {
    hide Gather, Fs.WellFormed, AllRead, Leads, AllFree, ExtractAll;
    CopyIsFinish(fs, srcs, at, asDir, false, p);
    NoConflicts(fs, p, Last(at), Gather(srcs).value);
  }

  /** Where the only entry of a copy goes. */
  function OnlyPlace(p: Place, n: Name, base: Name): Path { p.dir + [if p.into then n else base] }

  /** A single entry can be put down in a directory that takes it. */
  lemma LeafPuttable(fs: Fs, p: Place, n: Name, base: Name, h: Header, force: bool)
    requires (h.flag.Reg? || h.flag.SymLink? || h.flag.Directory?) && CleanName(h.name) == Some([n])
    requires var q := OnlyPlace(p, n, base);
             if h.flag.Directory? && q in fs.nodes then fs.Searchable(p.dir) && (fs.nodes[q].Dir? || (force && fs.nodes[q].File?))
             else fs.Writable(p.dir) && (q in fs.nodes ==> force && !fs.nodes[q].Dir?)
    ensures AllPuttable(fs, p.dir, n, if p.into then n else base, [h], force)
    ensures Target(if p.into then n else base, h) == [if p.into then n else base]
  {
    var root := if p.into then n else base;
    hide CleanName;
    assert [root] + [n][1..] == [root];
    assert [root][..0] == [] && p.dir + [] == p.dir;
    assert Open(fs, p.dir, root, [h], 0, [root]);
    assert [root][..|[root]| - 1] == [];
    assert Puttable(fs, p.dir, n, root, [h], 0, force);
  }

  lemma LeafPut(fs: Fs, at: Path, asDir: bool, force: bool, p: Place, h: Header, n: Name)
    requires fs.WellFormed() && fs.faults == [] && at != [] && AllNormal(at) && Aims(fs, at, asDir, p)
    requires (h.flag.Reg? || h.flag.SymLink? || h.flag.Directory?) && CleanName(h.name) == Some([n])
    requires var q := OnlyPlace(p, n, Last(at));
             if h.flag.Directory? && q in fs.nodes then fs.Searchable(p.dir) && (fs.nodes[q].Dir? || (force && fs.nodes[q].File?))
             else fs.Writable(p.dir) && (q in fs.nodes ==> force && !fs.nodes[q].Dir?)
    ensures var (fs', ok) := CopyOut.CopyOut(fs, [Some(Tar([h], false))], at, asDir, force);
            ok && Stands(fs, fs', p.dir, if p.into then n else Last(at), h, true)
            && Target(if p.into then n else Last(at), h) == [if p.into then n else Last(at)]
  {
    Exposure.LeafGathered(h, n);
    LeafPuttable(fs, p, n, Last(at), h, force);
    hide CleanName, Gather, Acceptable, Aims, Fs.WellFormed, AllPuttable, AllNormal, Stands, CopyOut.CopyOut;
    var srcs := [Some(Tar([h], false))];
    CopyPuts(fs, srcs, at, asDir, force, p);
    var fs' := CopyOut.CopyOut(fs, srcs, at, asDir, force).0;
    assert Unpacked(fs, fs', p.dir, RootOf(Gather(srcs).value[0], Last(at), p.into), Tars(srcs)[0].headers);
    assert [h][0] == h;
  }

  /** With -f a copy of one file or link takes the place of the file or link that
      stands there, in a directory its owner may write: it succeeds, and the place holds
      the content and mode, or the target, of what was copied. */
  lemma ForcedLeaf(fs: Fs, at: Path, asDir: bool, p: Place, h: Header, n: Name)
    requires fs.WellFormed() && fs.faults == [] && at != [] && AllNormal(at) && Aims(fs, at, asDir, p)
    requires (h.flag.Reg? || h.flag.SymLink?) && CleanName(h.name) == Some([n]) && fs.Writable(p.dir)
    requires var q := OnlyPlace(p, n, Last(at)); q in fs.nodes && !fs.nodes[q].Dir?
    ensures var q := OnlyPlace(p, n, Last(at));
            var (fs', ok) := CopyOut.CopyOut(fs, [Some(Tar([h], false))], at, asDir, true);
            ok && if h.flag.Reg? then FileAt(fs', q, h.content, h.mode) else q in fs'.nodes && fs'.nodes[q] == Link(h.linkname)
  {
    hide CleanName, Aims, Fs.WellFormed, AllNormal, CopyOut.CopyOut;
    LeafPut(fs, at, asDir, true, p, h, n);
  }

  /** ... but a directory copied with -f onto a file is not: the copy answers true, and
      the file stands there as before. */
  lemma FileForDirectory(fs: Fs, at: Path, asDir: bool, p: Place, h: Header, n: Name)
    requires fs.WellFormed() && fs.faults == [] && at != [] && AllNormal(at) && Aims(fs, at, asDir, p)
    requires h.flag.Directory? && CleanName(h.name) == Some([n]) && fs.Searchable(p.dir)
    requires var q := OnlyPlace(p, n, Last(at)); q in fs.nodes && fs.nodes[q].File?
    ensures var q := OnlyPlace(p, n, Last(at));
            var (fs', ok) := CopyOut.CopyOut(fs, [Some(Tar([h], false))], at, asDir, true);
            ok && SameAt(q, fs, fs')
  {
    hide CleanName, Aims, Fs.WellFormed, AllNormal, CopyOut.CopyOut;
    LeafPut(fs, at, asDir, true, p, h, n);
  }

  // ---------------------------------------------------------------------
  // Into a directory made for it
  // ---------------------------------------------------------------------

  /** The destination can be made: the path leads to a directory, or the part of it that
      leads anywhere leads to one that takes an entry, and the next name is free. */
  ghost predicate CanMake(fs: Fs, at: Path)
    requires at != []
    decreases |at|
  {
    if Leads(fs, at).Some? then fs.IsDir(Leads(fs, at).value)
    else if Leads(fs, Up(at)).Some? then
      fs.Writable(Leads(fs, Up(at)).value) && Leads(fs, Up(at)).value + [Last(at)] !in fs.nodes
    else Up(at) != [] && CanMake(fs, Up(at))
  }

  /** The path leads to a new directory: empty, its mode 0755 less the umask, and open
      to its owner. */
  ghost predicate NewDir(fs: Fs, at: Path) {
    && Leads(fs, at).Some? && fs.Writable(Leads(fs, at).value)
    && fs.nodes[Leads(fs, at).value] == Dir(OWNER_ALL + {GroupRead, GroupExec, OtherRead, OtherExec} - fs.umask)
    && forall p :: Leads(fs, at).value < p ==> p !in fs.nodes
  }

  lemma NewDirPlaced(fs: Fs, at: Path)
    requires fs.faults == [] && at != [] && fs.umask !! OWNER_ALL
    requires Leads(fs, Up(at)).Some? && fs.Writable(Leads(fs, Up(at)).value) && Leads(fs, Up(at)).value + [Last(at)] !in fs.nodes
    ensures var (fs', made) := Mkdir(fs, [], at, DIR_MODE);
            made && fs'.faults == [] && fs'.umask == fs.umask
            && fs'.nodes == fs.nodes[Leads(fs, Up(at)).value + [Last(at)] := Dir(DIR_MODE - fs.umask)]
  {
    hide Walk;
    assert Parent(Leads(fs, Up(at)).value + [Last(at)]) == Leads(fs, Up(at)).value;
  }

  lemma NewDirMade(fs: Fs, at: Path)
    requires fs.WellFormed() && fs.faults == [] && at != [] && AllNormal(at) && fs.umask !! OWNER_ALL
    requires Leads(fs, Up(at)).Some? && fs.Writable(Leads(fs, Up(at)).value) && Leads(fs, Up(at)).value + [Last(at)] !in fs.nodes
    ensures var (fs', made) := Mkdir(fs, [], at, DIR_MODE); made && fs'.faults == [] && NewDir(fs', at)
  {
    hide Leads, Mkdir;
    NewDirPlaced(fs, at);
    var up, q, fs' := Leads(fs, Up(at)).value, Leads(fs, Up(at)).value + [Last(at)], Mkdir(fs, [], at, DIR_MODE).0;
    LeadsStill(fs, fs', Up(at), q);
    LastStep(fs', at);
    assert fs'.Searchable(up);
    forall p | q < p ensures p !in fs'.nodes {
      Exposure.AbsentBelow(fs, q, p);
    }
    hide Fs.WellFormed;
  }

  /** With nothing failing, what can be made is. */
  lemma {:induction false} MkdirAllQuiet(fs: Fs, at: Path)
    requires fs.WellFormed() && fs.faults == [] && at != [] && AllNormal(at) && fs.umask !! OWNER_ALL && CanMake(fs, at)
    ensures var (fs', ok) := MkdirAll(fs, at);
            && ok && fs'.faults == [] && fs'.WellFormed() && fs'.umask == fs.umask
            && Leads(fs', at).Some? && fs'.IsDir(Leads(fs', at).value)
            && (if Leads(fs, at).Some? then fs' == fs else NewDir(fs', at))
    decreases |at|
  {
    hide Leads, Stat, Mkdir, Fs.WellFormed, NewDir, Making, Grew, Fs.Writable;
    StatNow(fs, at);
    MkdirAllMakes(fs, at);
    MadeTree(fs, at);
    if Leads(fs, at).None? {
      var up := Up(at);
      if Leads(fs, up).Some? {
        StatNow(fs, up);
        WritableIsDir(fs, Leads(fs, up).value);
        NewDirMade(fs, at);
      } else {
        MkdirAllQuiet(fs, up);
        NewDirTakes(MkdirAll(fs, up).0, up, Last(at));
        NewDirMade(MkdirAll(fs, up).0, at);
      }
      NewDirIsDir(MkdirAll(fs, at).0, at);
    }
  }

  lemma WritableIsDir(fs: Fs, p: Path)
    requires fs.Writable(p)
    ensures fs.IsDir(p)
  {
  }

  lemma NewDirIsDir(fs: Fs, at: Path)
    ensures NewDir(fs, at) ==> Leads(fs, at).Some? && fs.IsDir(Leads(fs, at).value)
  {
    hide Leads;
  }

  lemma NewDirTakes(fs: Fs, at: Path, n: Name)
    requires NewDir(fs, at)
    ensures fs.Writable(Leads(fs, at).value) && Leads(fs, at).value + [n] !in fs.nodes
  {
    hide Leads;
    assert Leads(fs, at).value < Leads(fs, at).value + [n];
  }

  lemma MadeTree(fs: Fs, at: Path)
    requires at != [] && Making(at, fs, MkdirAll(fs, at).0, MkdirAll(fs, at).1)
    ensures MkdirAll(fs, at).0.WellFormed() && MkdirAll(fs, at).0.umask == fs.umask
  {
    hide MkdirAll, Leads, Landing, Fs.WellFormed;
  }

  /** Making the destination first changes nothing about the copy. */
  lemma MadeFirst(fs: Fs, srcs: seq<Option<Tar>>, at: Path, force: bool)
    requires fs.WellFormed() && fs.faults == [] && at != [] && AllNormal(at) && fs.umask !! OWNER_ALL && CanMake(fs, at)
    requires srcs != [] && Gather(srcs).Some?
    ensures CopyOut.CopyOut(fs, srcs, at, true, force) == CopyOut.CopyOut(MkdirAll(fs, at).0, srcs, at, true, force)
  {
    hide Leads, Stat, Mkdir, Fs.WellFormed, NewDir, CanMake, Gather, Finish, Choose;
    MkdirAllQuiet(fs, at);
    StatNow(MkdirAll(fs, at).0, at);
    assert MkdirAll(MkdirAll(fs, at).0, at) == (MkdirAll(fs, at).0, true);
    hide MkdirAll;
    assert Destination(fs, at, true) == Destination(MkdirAll(fs, at).0, at, true);
  }

  /** So a copy of one entry into a directory that has to be made makes it, and puts the
      entry there. */
  lemma LeafIntoNew(fs: Fs, at: Path, force: bool, h: Header, n: Name)
    requires fs.WellFormed() && fs.faults == [] && at != [] && AllNormal(at) && fs.umask !! OWNER_ALL
    requires CanMake(fs, at) && Leads(fs, at).None?
    requires (h.flag.Reg? || h.flag.SymLink? || h.flag.Directory?) && CleanName(h.name) == Some([n])
    ensures var fs1 := MkdirAll(fs, at).0;
            var (fs', ok) := CopyOut.CopyOut(fs, [Some(Tar([h], false))], at, true, force);
            && ok && NewDir(fs1, at) && Stands(fs1, fs', Leads(fs1, at).value, n, h, true)
  {
    hide CleanName, Leads, Fs.WellFormed, AllNormal, CopyOut.CopyOut, CanMake, NewDir, Stands, MkdirAll, Gather;
    Exposure.LeafGathered(h, n);
    MkdirAllQuiet(fs, at);
    MadeFirst(fs, [Some(Tar([h], false))], at, force);
    var fs1 := MkdirAll(fs, at).0;
    NewDirTakes(fs1, at, n);
    LeafPut(fs1, at, true, force, Place(Leads(fs1, at).value, true), h, n);
  }
}
