/** What a whole copy keeps: it writes nowhere but the destination, and without
    force it leaves everything that was there alone, as long as the conflict pass
    gets to see what is in the way. */
module CopyOutSafety {
  import opened Wrappers
  import opened FileSystem
  import opened Archive
  import opened Extract
  import opened ExtractSafety
  import opened NoClobber
  import opened CopyOut
  import opened Arrival

  // ---------------------------------------------------------------------
  // The conflict pass
  // ---------------------------------------------------------------------

  /** The n-th call from here on fails. */
  predicate Failing(fs: Fs, n: nat) { n < |fs.faults| && fs.faults[n].Fail? }

  /** The schedule `n` calls later. */
  function Later(fs: Fs, n: nat): seq<Fault> { if n <= |fs.faults| then fs.faults[n..] else [] }

  lemma LookupSame(a: Fs, b: Fs, d: Path, comps: Path)
    requires a.nodes == b.nodes && comps != []
    ensures Lookup(a, d, comps) == Lookup(b, d, comps)
  {
    hide Walk;
    WalkSame(a, b, d, comps[..|comps| - 1], MAX_LINKS);
  }

  /** A place is free, or both what is there and what comes are directories. */
  ghost predicate Free(fs: Fs, d: Path, root: Name, path: ArchivePath) {
    var node := Lookup(fs, d, [root] + path.rel);
    node.Some? ==> path.isDir && node.value.Dir?
  }

  lemma FreeSame(a: Fs, b: Fs, d: Path, root: Name, path: ArchivePath)
    requires a.nodes == b.nodes
    ensures Free(a, d, root, path) <==> Free(b, d, root, path)
  {
    hide Lookup;
    LookupSame(a, b, d, [root] + path.rel);
  }

  /** The conflict pass does not report path `k`: it is free, or its lookup fails. */
  ghost predicate Missed(fs: Fs, d: Path, root: Name, paths: seq<ArchivePath>, k: nat)
    requires k < |paths|
  {
    Free(fs, d, root, paths[k]) || Failing(fs, k)
  }

  /** The conflict list of one entry is empty exactly if every path is free or its
      own lookup failed, whatever other calls do. */
  lemma {:induction false} ConflictsExact(fs: Fs, d: Path, root: Name, paths: seq<ArchivePath>, found: seq<Path>)
    ensures var (fs', all) := Conflicts(fs, d, root, paths, found);
            && SameStore(fs, fs') && fs'.umask == fs.umask && fs'.faults == Later(fs, |paths|)
            && (all == [] <==> found == [] && forall k :: 0 <= k < |paths| ==> Missed(fs, d, root, paths, k))
    decreases |paths|
  {
    hide Lookup;
    if paths != [] {
      var t := [root] + paths[0].rel;
      var (fs', node) := Lstat(fs, d, t);
      var taken := node.Some? && (!paths[0].isDir || !node.value.Dir?);
      ConflictsExact(fs', d, root, paths[1..], if taken then found + [t] else found);
      assert taken <==> !Missed(fs, d, root, paths, 0);
      forall k | 0 <= k < |paths[1..]|
        ensures Missed(fs', d, root, paths[1..], k) <==> Missed(fs, d, root, paths, k + 1)
      {
        FreeSame(fs', fs, d, root, paths[k + 1]);
      }
      MissedFromNext(fs, fs', d, root, paths);
    }
  }

  lemma MissedFromNext(fs: Fs, fs': Fs, d: Path, root: Name, paths: seq<ArchivePath>)
    requires paths != []
    requires forall k :: 0 <= k < |paths[1..]| ==>
               (Missed(fs', d, root, paths[1..], k) <==> Missed(fs, d, root, paths, k + 1))
    ensures (forall k :: 0 <= k < |paths| ==> Missed(fs, d, root, paths, k)) <==>
            Missed(fs, d, root, paths, 0) && (forall k :: 0 <= k < |paths[1..]| ==> Missed(fs', d, root, paths[1..], k))
  {
    hide Missed;
    if Missed(fs, d, root, paths, 0) && (forall k :: 0 <= k < |paths[1..]| ==> Missed(fs', d, root, paths[1..], k)) {
      forall k | 0 <= k < |paths| ensures Missed(fs, d, root, paths, k) {
        if k > 0 {
          assert Missed(fs', d, root, paths[1..], k - 1);
        }
      }
    }
  }

  function PathCount(entries: seq<ArchiveEntry>): nat {
    if entries == [] then 0 else |entries[0].paths| + PathCount(entries[1..])
  }

  /** Which call of the conflict pass looks path `k` of entry `e` up. */
  function CallOf(entries: seq<ArchiveEntry>, e: nat, k: nat): nat
    requires e < |entries|
  {
    PathCount(entries[..e]) + k
  }

  ghost predicate FreeAt(fs: Fs, p: Place, base: Name, entries: seq<ArchiveEntry>, e: nat, k: nat)
    requires e < |entries| && k < |entries[e].paths|
  {
    Free(fs, p.dir, RootOf(entries[e], base, p.into), entries[e].paths[k])
  }

  ghost predicate MissedAt(fs: Fs, p: Place, base: Name, entries: seq<ArchiveEntry>, e: nat, k: nat)
    requires e < |entries| && k < |entries[e].paths|
  {
    FreeAt(fs, p, base, entries, e, k) || Failing(fs, CallOf(entries, e, k))
  }

  /** Main result: the copy finds no conflict exactly if every listed path of every
      source is free or its own lookup failed. */
  lemma {:induction false} AllConflictsExact(fs: Fs, p: Place, base: Name, entries: seq<ArchiveEntry>, found: seq<Path>)
    ensures var (fs', all) := AllConflicts(fs, p, base, entries, found);
            && SameStore(fs, fs') && fs'.umask == fs.umask && fs'.faults == Later(fs, PathCount(entries))
            && (all == [] <==>
                  found == [] && forall e, k :: 0 <= e < |entries| && 0 <= k < |entries[e].paths| ==>
                                   MissedAt(fs, p, base, entries, e, k))
    decreases |entries|
  {
    hide Free, Conflicts;
    if entries != [] {
      var root, paths, rest := RootOf(entries[0], base, p.into), entries[0].paths, entries[1..];
      ConflictsExact(fs, p.dir, root, paths, found);
      var (fs', more) := Conflicts(fs, p.dir, root, paths, found);
      AllConflictsExact(fs', p, base, rest, more);
      forall k | 0 <= k < |paths|
        ensures Missed(fs, p.dir, root, paths, k) <==> MissedAt(fs, p, base, entries, 0, k)
      {
        assert CallOf(entries, 0, k) == k;
      }
      forall e, k | 0 <= e < |rest| && 0 <= k < |rest[e].paths|
        ensures MissedAt(fs', p, base, rest, e, k) <==> MissedAt(fs, p, base, entries, e + 1, k)
      {
        FreeSame(fs', fs, p.dir, RootOf(rest[e], base, p.into), rest[e].paths[k]);
        CallOfNext(entries, e, k);
      }
      hide MissedAt, Missed;
      MissedFromRest(fs, fs', p, base, entries);
    }
  }

  lemma CallOfNext(entries: seq<ArchiveEntry>, e: nat, k: nat)
    requires entries != [] && e < |entries[1..]|
    ensures CallOf(entries, e + 1, k) == |entries[0].paths| + CallOf(entries[1..], e, k)
  {
    assert entries[..e + 1][1..] == entries[1..][..e];
  }

  lemma MissedFromRest(fs: Fs, fs': Fs, p: Place, base: Name, entries: seq<ArchiveEntry>)
    requires entries != []
    requires forall e, k :: 0 <= e < |entries[1..]| && 0 <= k < |entries[1..][e].paths| ==>
               (MissedAt(fs', p, base, entries[1..], e, k) <==> MissedAt(fs, p, base, entries, e + 1, k))
    ensures (forall e, k :: 0 <= e < |entries| && 0 <= k < |entries[e].paths| ==> MissedAt(fs, p, base, entries, e, k)) <==>
            (forall k :: 0 <= k < |entries[0].paths| ==> MissedAt(fs, p, base, entries, 0, k))
            && (forall e, k :: 0 <= e < |entries[1..]| && 0 <= k < |entries[1..][e].paths| ==>
                  MissedAt(fs', p, base, entries[1..], e, k))
  {
    hide MissedAt;
    if (forall k :: 0 <= k < |entries[0].paths| ==> MissedAt(fs, p, base, entries, 0, k))
       && (forall e, k :: 0 <= e < |entries[1..]| && 0 <= k < |entries[1..][e].paths| ==>
             MissedAt(fs', p, base, entries[1..], e, k)) {
      forall e, k | 0 <= e < |entries| && 0 <= k < |entries[e].paths| ensures MissedAt(fs, p, base, entries, e, k) {
        if e > 0 {
          assert MissedAt(fs', p, base, entries[1..], e - 1, k);
        }
      }
    }
    if forall e, k :: 0 <= e < |entries| && 0 <= k < |entries[e].paths| ==> MissedAt(fs, p, base, entries, e, k) {
      forall e, k | 0 <= e < |entries[1..]| && 0 <= k < |entries[1..][e].paths|
        ensures MissedAt(fs', p, base, entries[1..], e, k)
      {
        assert MissedAt(fs, p, base, entries, e + 1, k);
      }
    }
  }

  /** No lookup of a path that is not free fails. */
  ghost predicate Seen(fs: Fs, p: Place, base: Name, entries: seq<ArchiveEntry>) {
    forall e, k :: 0 <= e < |entries| && 0 <= k < |entries[e].paths| ==>
      FreeAt(fs, p, base, entries, e, k) || !Failing(fs, CallOf(entries, e, k))
  }

  /** Every path of the listed entries is free. */
  ghost predicate AllFree(fs: Fs, p: Place, base: Name, entries: seq<ArchiveEntry>) {
    forall e, k :: 0 <= e < |entries| && 0 <= k < |entries[e].paths| ==> FreeAt(fs, p, base, entries, e, k)
  }

  /** An entry whose listed paths are all free meets no conflict. */
  lemma FreeIsConflictFree(fs: Fs, d: Path, root: Name, e: ArchiveEntry, hs: seq<Header>)
    requires Listing(hs) == [e] && Normal(root)
    requires forall path :: path in e.paths ==> Free(fs, d, root, path)
    ensures ConflictFree(fs, d, root, hs)
  {
    hide Lookup, Listing, CleanName;
    ListingExact(hs);
    forall k | 0 <= k < |hs| && Kept(hs[k]) && CleanName(hs[k].name).Some?
      ensures NoConflictAt(fs, d, Target(root, hs[k]), hs[k].flag.Directory?)
    {
      var p := CleanName(hs[k].name).value;
      var path := ArchivePath(p[1..], hs[k].flag.Directory?);
      assert [p[0]] + path.rel == p;
      assert Names(hs[k], [p[0]] + path.rel);
      assert ListedFrom(hs, p[0], path);
      assert Lists(Listing(hs), p[0], path);
      assert Free(fs, d, root, path);
      var dst := Target(root, hs[k]);
      if Plain(fs, d, dst) {
        LookupPlain(fs, d, dst);
      }
    }
  }

  /** A listed entry's name is an ordinary component. */
  lemma TopIsNormal(hs: seq<Header>, e: ArchiveEntry)
    requires Listing(hs) == [e]
    ensures Normal(e.name)
  {
    hide CleanName;
    assert e.paths != [] by {
      ListingGroupsFilled(hs);
      assert Listing(hs)[0] == e;
    }
    ListingExact(hs);
    assert Lists(Listing(hs), e.name, e.paths[0]) by {
      assert Listing(hs)[0].name == e.name && e.paths[0] in Listing(hs)[0].paths;
    }
    var k :| 0 <= k < |hs| && Kept(hs[k]) && Names(hs[k], [e.name] + e.paths[0].rel)
             && e.paths[0].isDir == hs[k].flag.Directory?;
    CleanNameIsNormal(hs[k].name);
    assert CleanName(hs[k].name).value[0] == e.name;
  }

  lemma {:induction false} ListingGroupsFilled(hs: seq<Header>)
    ensures forall i :: 0 <= i < |Listing(hs)| ==> Listing(hs)[i].paths != []
  {
    hide CleanName;
    if hs != [] {
      ListingGroupsFilled(hs[..|hs| - 1]);
    }
  }

  // ---------------------------------------------------------------------
  // Extracting every source
  // ---------------------------------------------------------------------

  /** What ReadAll established about each source. */
  ghost predicate AllRead(entries: seq<ArchiveEntry>, tars: seq<Tar>) {
    && |entries| == |tars|
    && DistinctTops(entries)
    && forall k :: 0 <= k < |tars| ==>
         !tars[k].broken && Acceptable(tars[k].headers) && Listing(tars[k].headers) == [entries[k]]
  }

  lemma AllReadRest(entries: seq<ArchiveEntry>, tars: seq<Tar>)
    requires AllRead(entries, tars) && entries != []
    ensures AllRead(entries[1..], tars[1..])
  {
    hide Acceptable, Listing;
    forall k | 0 <= k < |tars[1..]|
      ensures !tars[1..][k].broken && Acceptable(tars[1..][k].headers) && Listing(tars[1..][k].headers) == [entries[1..][k]]
    {
      assert tars[1..][k] == tars[k + 1] && entries[1..][k] == entries[k + 1];
    }
  }

  lemma {:induction false} GatherReads(srcs: seq<Option<Tar>>)
    requires Gather(srcs).Some?
    ensures (forall k :: 0 <= k < |srcs| ==> srcs[k].Some?) && AllRead(Gather(srcs).value, Tars(srcs))
  {
    hide Acceptable, Accepts, Listing;
    GatherSome(srcs);
    forall k | 0 <= k < |srcs| ensures Acceptable(srcs[k].value.headers) {
      AcceptsExact(srcs[k].value.headers);
    }
  }

  lemma {:induction false} ExtractAllSpares(a: Fs, fs: Fs, p: Place, base: Name, entries: seq<ArchiveEntry>, tars: seq<Tar>)
    requires AllRead(entries, tars) && a.WellFormed() && fs.WellFormed() && fs.IsDir(p.dir) && Normal(base)
    requires AllFree(a, p, base, entries) && Spared(a, fs)
    ensures Spared(a, ExtractAll(fs, p, base, entries, tars, false).0)
    decreases |entries|
  {
    hide Extraction, Acceptable, Listing, ConflictFree, Fs.WellFormed, Free, Spared;
    if entries != [] {
      var e, hs, root := entries[0], tars[0].headers, RootOf(entries[0], base, p.into);
      TopIsNormal(hs, e);
      forall path | path in e.paths ensures Free(a, p.dir, root, path) {
        var k :| 0 <= k < |e.paths| && e.paths[k] == path;
        assert FreeAt(a, p, base, entries, 0, k);
      }
      FreeIsConflictFree(a, p.dir, root, e, hs);
      ExtractionSpares(a, fs, p.dir, e.name, root, tars[0]);
      ExtractionConfined(fs, p.dir, e.name, root, tars[0], false);
      var (fs', ok) := Extraction(fs, p.dir, e.name, root, tars[0], false);
      if ok {
        AllReadRest(entries, tars);
        StaysDir(p.dir, root, fs, fs');
        AllFreeRest(a, p, base, entries);
        ExtractAllSpares(a, fs', p, base, entries[1..], tars[1..]);
      }
    }
  }

  lemma AllFreeRest(a: Fs, p: Place, base: Name, entries: seq<ArchiveEntry>)
    requires AllFree(a, p, base, entries) && entries != []
    ensures AllFree(a, p, base, entries[1..])
  {
    hide Free;
    var rest := entries[1..];
    forall e, k | 0 <= e < |rest| && 0 <= k < |rest[e].paths| ensures FreeAt(a, p, base, rest, e, k) {
      assert FreeAt(a, p, base, entries, e + 1, k);
    }
  }

  lemma ConfinedWider(wide: Path, base: Path, a: Fs, b: Fs)
    requires Confined(base, a, b) && wide <= base
    ensures Confined(wide, a, b)
  {
    forall i | i in a.inodes && !Named(wide, a, i)
      ensures i in b.inodes && b.inodes[i] == a.inodes[i] && !Named(wide, b, i)
    {
      assert !Named(base, a, i);
      forall p | wide <= p ensures !(p in b.nodes && b.nodes[p] == File(i)) {
        assert base <= p || SameAt(p, a, b);
      }
    }
  }

  lemma ConfinedSame(base: Path, a: Fs, b: Fs)
    requires SameStore(a, b)
    ensures Confined(base, a, b)
  {
    assert forall i :: Named(base, a, i) <==> Named(base, b, i);
  }

  lemma {:induction false} ExtractAllConfined(fs: Fs, p: Place, base: Name, entries: seq<ArchiveEntry>, tars: seq<Tar>, force: bool)
    requires AllRead(entries, tars) && fs.WellFormed() && fs.IsDir(p.dir) && Normal(base)
    ensures var fs' := ExtractAll(fs, p, base, entries, tars, force).0;
            fs'.WellFormed() && Confined(Reach(p, base), fs, fs')
    decreases |entries|
  {
    hide Extraction, Acceptable, Listing, Fs.WellFormed, Confined;
    if entries == [] {
      ConfinedSame(Reach(p, base), fs, fs);
    } else {
      var e, hs, root := entries[0], tars[0].headers, RootOf(entries[0], base, p.into);
      TopIsNormal(hs, e);
      ExtractionConfined(fs, p.dir, e.name, root, tars[0], force);
      var (fs', ok) := Extraction(fs, p.dir, e.name, root, tars[0], force);
      StaysDir(p.dir, root, fs, fs');
      ConfinedWider(Reach(p, base), p.dir + [root], fs, fs');
      if ok {
        AllReadRest(entries, tars);
        ExtractAllConfined(fs', p, base, entries[1..], tars[1..], force);
        ConfinedTransitive(Reach(p, base), fs, fs', ExtractAll(fs', p, base, entries[1..], tars[1..], force).0);
      }
    }
  }

  lemma StaysDir(d: Path, root: Name, a: Fs, b: Fs)
    requires Confined(d + [root], a, b) && a.IsDir(d)
    ensures b.IsDir(d)
  {
    assert SameAt(d, a, b);
  }

  // ---------------------------------------------------------------------
  // Below something that is no directory
  // ---------------------------------------------------------------------

  lemma LocateNowhere(fs: Fs, d: Path, comps: Path)
    requires !fs.IsDir(d) && comps != []
    ensures Locate(fs, d, comps) == None
  {
  }

  lemma PlaceNowhere(r: Run, d: Path, root: Name, dst: Path, h: Header, force: bool)
    requires !r.fs.IsDir(d) && dst != [] && Kept(h) && !r.failed && r.fs.WellFormed()
    ensures var r' := Extract.Place(r, d, root, dst, h, force); SameStore(r.fs, r'.fs) && r'.failed
  {
    hide CleanName, Walk, Locate;
    forall fs: Fs, comps: Path | fs.nodes == r.fs.nodes && comps != [] ensures Locate(fs, d, comps) == None {
      LocateNowhere(fs, d, comps);
    }
  }

  lemma StepNowhere(r: Run, d: Path, top: Name, root: Name, h: Header, force: bool)
    requires !r.fs.IsDir(d) && r.safe == {} && !r.failed && r.fs.WellFormed()
    ensures var r' := Step(r, d, top, root, h, force); SameStore(r.fs, r'.fs) && (r' == r || r'.failed)
  {
    hide CleanName, Extract.Place, Locate;
    if Kept(h) && CleanName(h.name).Some? && CleanName(h.name).value[0] == top {
      var dst := Target(root, h);
      if |dst| == 1 {
        PlaceNowhere(r, d, root, dst, h, force);
      } else {
        LocateNowhere(r.fs, d, dst[..1]);
      }
    }
  }

  lemma {:induction false} StepsNowhere(r: Run, d: Path, top: Name, root: Name, hs: seq<Header>, force: bool)
    requires !r.fs.IsDir(d) && r.safe == {} && r.dirs == [] && !r.failed && r.fs.WellFormed()
    ensures var r' := Steps(r, d, top, root, hs, force); SameStore(r.fs, r'.fs) && (r'.failed || r'.dirs == [])
    decreases |hs|
  {
    hide Step;
    if hs != [] {
      StepNowhere(r, d, top, root, hs[0], force);
      var r' := Step(r, d, top, root, hs[0], force);
      if !r'.failed {
        StepsNowhere(r, d, top, root, hs[1..], force);
      }
    }
  }

  lemma {:induction false} ExtractAllNowhere(fs: Fs, p: Place, base: Name, entries: seq<ArchiveEntry>, tars: seq<Tar>, force: bool)
    requires |entries| == |tars| && !fs.IsDir(p.dir) && fs.WellFormed()
    ensures SameStore(fs, ExtractAll(fs, p, base, entries, tars, force).0)
    decreases |entries|
  {
    hide Steps;
    if entries != [] {
      var top, root := entries[0].name, RootOf(entries[0], base, p.into);
      StepsNowhere(Run(fs, {}, [], false), p.dir, top, root, tars[0].headers, force);
      var (fs', ok) := Extraction(fs, p.dir, top, root, tars[0], force);
      if ok {
        ExtractAllNowhere(fs', p, base, entries[1..], tars[1..], force);
      }
    }
  }

  // ---------------------------------------------------------------------
  // The whole copy
  // ---------------------------------------------------------------------

  lemma FinishConfined(fs: Fs, p: Place, base: Name, entries: seq<ArchiveEntry>, tars: seq<Tar>, force: bool)
    requires AllRead(entries, tars) && fs.WellFormed() && Normal(base)
    ensures var fs' := Finish(fs, p, base, entries, tars, force).0;
            fs'.WellFormed() && Confined(Reach(p, base), fs, fs')
  {
    assert |entries| == |tars|;
    hide AllConflicts, ExtractAll, Confined, AllRead;
    AllConflictsExact(fs, p, base, entries, []);
    var fs1 := AllConflicts(fs, p, base, entries, []).0;
    StoreKeeps(fs, fs1, p, base);
    hide Fs.WellFormed;
    var fs2 := ExtractAll(fs1, p, base, entries, tars, force).0;
    if fs.IsDir(p.dir) {
      ExtractAllConfined(fs1, p, base, entries, tars, force);
      ConfinedTransitive(Reach(p, base), fs, fs1, fs2);
    } else {
      ExtractAllNowhere(fs1, p, base, entries, tars, force);
      StoreKeeps(fs, fs2, p, base);
    }
  }

  lemma StoreKeeps(a: Fs, b: Fs, p: Place, base: Name)
    requires SameStore(a, b)
    ensures a.WellFormed() ==> b.WellFormed()
    ensures a.IsDir(p.dir) <==> b.IsDir(p.dir)
    ensures Confined(Reach(p, base), a, b)
  {
    ConfinedSame(Reach(p, base), a, b);
    assert forall q :: a.IsDir(q) <==> b.IsDir(q);
  }

  /** Main result: whatever the sources hold, with or without force and under any
      faults, a copy changes nothing outside the place its destination leads to
      (or the topmost directory it has to make for it), or outside the
      destination's own name, and no file that had no name there; the disk stays a
      tree. */
  lemma CopyOutConfined(fs: Fs, srcs: seq<Option<Tar>>, at: Path, asDir: bool, force: bool)
    requires fs.WellFormed() && at != [] && AllNormal(at)
    ensures var fs' := CopyOut.CopyOut(fs, srcs, at, asDir, force).0;
            && fs'.WellFormed()
            && (|| Confined(Landing(fs, at), fs, fs')
                || (Leads(fs, Up(at)).Some? && Confined(Leads(fs, Up(at)).value + [Last(at)], fs, fs')))
  {
    hide Gather, Destination, Finish, Fs.WellFormed, Confined, Grew, Leads, Landing, AllRead;
    var t := Landing(fs, at);
    ConfinedSame(t, fs, fs);
    if Gather(srcs).Some? {
      GatherReads(srcs);
      GatherSome(srcs);
      DestinationChosen(fs, at, asDir);
      var (fs1, place) := Destination(fs, at, asDir);
      GrewTree(t, fs, fs1);
      GrewSpares(t, fs, fs1);
      if place.Some? {
        var p, base := place.value, Last(at);
        FinishConfined(fs1, p, base, Gather(srcs).value, Tars(srcs), force);
        var fs2 := Finish(fs1, p, base, Gather(srcs).value, Tars(srcs), force).0;
        if t <= Reach(p, base) {
          ConfinedWider(t, Reach(p, base), fs1, fs2);
          ConfinedTransitive(t, fs, fs1, fs2);
        } else {
          ConfinedSame(p.dir + [base], fs, fs1);
          ConfinedTransitive(p.dir + [base], fs, fs1, fs2);
        }
      }
    }
  }

  /** Main result: without force a copy leaves every node, mode and content that
      existed exactly as it was, and opens no file of them, across all sources
      and whether it succeeds, is refused or fails part-way: under any schedule
      in which no lookup of a listed path that is in the way fails. */
  lemma CopyOutIntact(fs: Fs, srcs: seq<Option<Tar>>, at: Path, asDir: bool)
    requires fs.WellFormed() && at != [] && AllNormal(at)
    requires Gather(srcs).Some? ==>
               var (fs', place) := Destination(fs, at, asDir);
               place.Some? ==> Seen(fs', place.value, Last(at), Gather(srcs).value)
    ensures Intact(fs, CopyOut.CopyOut(fs, srcs, at, asDir, false).0)
  {
    hide Gather, Destination, Finish, Fs.WellFormed, Intact, Apart, Grew, Leads, Landing, AllRead, Seen;
    Unchanged(fs);
    if Gather(srcs).Some? {
      GatherReads(srcs);
      GatherSome(srcs);
      DestinationChosen(fs, at, asDir);
      var (fs1, place) := Destination(fs, at, asDir);
      GrewTree(Landing(fs, at), fs, fs1);
      GrewSpares(Landing(fs, at), fs, fs1);
      if place.Some? {
        var entries := Gather(srcs).value;
        FinishSpares(fs1, place.value, Last(at), entries, Tars(srcs));
        IntactTransitive(fs, fs1, Finish(fs1, place.value, Last(at), entries, Tars(srcs), false).0);
      }
    }
  }

  lemma FinishSpares(fs: Fs, p: Place, base: Name, entries: seq<ArchiveEntry>, tars: seq<Tar>)
    requires AllRead(entries, tars) && fs.WellFormed() && Normal(base) && Seen(fs, p, base, entries)
    ensures Spared(fs, Finish(fs, p, base, entries, tars, false).0)
  {
    assert |entries| == |tars|;
    hide AllConflicts, ExtractAll, AllRead, FreeAt, Failing, CallOf;
    AllConflictsExact(fs, p, base, entries, []);
    var (fs1, conflicts) := AllConflicts(fs, p, base, entries, []);
    Unchanged(fs);
    hide Spared;
    SparedSame(fs, fs, fs1);
    StoreKeeps(fs, fs1, p, base);
    if conflicts == [] {
      assert AllFree(fs, p, base, entries) by {
        forall e, k | 0 <= e < |entries| && 0 <= k < |entries[e].paths| ensures FreeAt(fs, p, base, entries, e, k) {
          assert MissedAt(fs, p, base, entries, e, k);
        }
      }
      if fs.IsDir(p.dir) {
        ExtractAllSpares(fs, fs1, p, base, entries, tars);
      } else {
        ExtractAllNowhere(fs1, p, base, entries, tars, false);
        SparedSame(fs, fs1, ExtractAll(fs1, p, base, entries, tars, false).0);
      }
    }
  }

  lemma IntactTransitive(a: Fs, b: Fs, c: Fs)
    requires Intact(a, b) && Intact(b, c)
    ensures Intact(a, c)
  {
    forall p | p in a.nodes ensures SameAt(p, a, c) {
      assert SameAt(p, a, b) && SameAt(p, b, c);
    }
  }
}
