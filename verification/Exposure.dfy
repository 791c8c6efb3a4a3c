/** Exactly when a copy without force can change what was there: which disks and
    archives have a schedule of failing calls that lets it. */
module Exposure {
  import opened Wrappers
  import opened FileSystem
  import opened Archive
  import opened Extract
  import opened ExtractSafety
  import opened NoClobber
  import opened CopyOut
  import opened Arrival
  import opened CopyOutSafety
  import opened Overwriting
  import opened QuietRun
  import opened Drafting
  import opened Steering

  // ---------------------------------------------------------------------
  // One archive
  // ---------------------------------------------------------------------

  /** An extraction starts: what was on the disk `a` is spared, and below the root
      the disk is still `a`. */
  ghost predicate Fresh(a: Fs, fs: Fs, d: Path, root: Name) {
    && a.WellFormed() && fs.WellFormed() && a.IsDir(d) && fs.IsDir(d)
    && Spared(a, fs) && fs.umask == a.umask
    && forall p :: d + [root] <= p ==> SameAt(p, a, fs)
  }

  lemma StartsBounded(a: Fs, j: Job, quiet: bool)
    requires Fresh(a, j.fs0, j.d, j.root) && Acceptable(j.hs)
    ensures Good(j, 0, j.fs0, {}, []) && Bounded(a, j, 0, j.fs0, [], quiet)
    ensures Climbing(j.fs0, j.d, [])
  {
    StartsGood(j);
    StartsNew(a, j);
    hide CleanName, Acceptable, Good, Spared, Newcomers;
    forall p | j.d + p in j.fs0.nodes && [j.root] <= p ensures j.d + p in a.nodes {
      assert SameAt(j.d + p, a, j.fs0);
    }
  }

  lemma {:induction false} ChmodDirsUmask(fs: Fs, d: Path, dirs: seq<DirMode>)
    ensures ChmodDirs(fs, d, dirs).0.umask == fs.umask
    decreases |dirs|
  {
    hide Walk;
    if dirs != [] {
      var e := dirs[|dirs| - 1];
      ChmodDirsUmask(Chmod(fs, d, e.path, e.mode).0, d, dirs[..|dirs| - 1]);
    }
  }

  ghost predicate AllPass(a: Fs, d: Path, top: Name, root: Name, hs: seq<Header>) {
    PassesUpTo(a, d, top, root, hs, |hs|)
  }

  /** Whatever calls fail, an archive that exposes no file spares the disk. */
  lemma ExtractionHarmless(a: Fs, fs: Fs, d: Path, top: Name, root: Name, tar: Tar)
    requires Fresh(a, fs, d, root) && Acceptable(tar.headers) && Normal(root)
    requires !Exposes(a, d, top, root, tar.headers)
    ensures var (fs', ok) := Extraction(fs, d, top, root, tar, false);
            && Spared(a, fs')
            && (ok ==> fs'.umask == a.umask && AllPass(a, d, top, root, tar.headers))
  {
    var j := Job(fs, d, root, tar.headers);
    StartsBounded(a, j, false);
    hide Steps, ChmodDirs, CleanName, Good, Spared, Newcomers, Tracks, Passes, Exposes, Acceptable, Fs.WellFormed;
    assert j.hs[0..] == j.hs;
    var r0 := Run(fs, {}, [], false);
    var m := StepsTrack(a, j, 0, r0, top);
    var r := Steps(r0, d, top, root, tar.headers, false);
    if !r.failed {
      ChmodDirsSpare(a, j, m, r.fs, r.safe, r.dirs);
      ChmodDirsUmask(r.fs, d, r.dirs);
    }
  }

  /** When nothing fails, an exposed file is opened, and an archive whose headers
      all pass is extracted. */
  lemma ExtractionBreaks(a: Fs, fs: Fs, d: Path, top: Name, root: Name, tar: Tar)
    requires Fresh(a, fs, d, root) && Acceptable(tar.headers) && Normal(root) && fs.faults == [] && !tar.broken
    ensures var (fs', ok) := Extraction(fs, d, top, root, tar, false);
            && (Exposes(a, d, top, root, tar.headers) ==> Broken(a, fs'))
            && (AllPass(a, d, top, root, tar.headers) ==> ok && fs'.faults == [])
  {
    var j := Job(fs, d, root, tar.headers);
    StartsBounded(a, j, true);
    assert j.hs[0..] == j.hs;
    var r0 := Run(fs, {}, [], false);
    assert CalmRun(a, j, 0, r0, top) by {
      hide Good, Bounded, Acceptable, Passes;
    }
    hide Steps, ChmodDirs, CalmRun, Climbing, Passes, Overwrites, Acceptable, Fresh, Broken, Good, Bounded;
    StepsCalm(a, j, 0, r0, top);
    var r := Steps(r0, d, top, root, tar.headers, false);
    assert Exposes(a, d, top, root, tar.headers) ==> ExposesFrom(a, j, top, 0);
    ChmodDirsAge(r.fs, d, r.dirs);
    if Broken(a, r.fs) {
      BrokenStays(a, r.fs, ChmodDirs(r.fs, d, r.dirs).0);
    }
    if AllPass(a, d, top, root, tar.headers) {
      ChmodDirsCalm(r.fs, d, r.dirs);
    }
  }

  // ---------------------------------------------------------------------
  // Every source
  // ---------------------------------------------------------------------

  ghost predicate AllAcceptable(tars: seq<Tar>) {
    forall k :: 0 <= k < |tars| ==> Acceptable(tars[k].headers)
  }

  /** Some source exposes a file, and all before it can be extracted. */
  ghost predicate ExposesAny(a: Fs, p: Place, base: Name, entries: seq<ArchiveEntry>, tars: seq<Tar>)
    requires |entries| == |tars| && AllAcceptable(tars)
    decreases |entries|
  {
    entries != []
    && var top, root, hs := entries[0].name, RootOf(entries[0], base, p.into), tars[0].headers;
       (Exposes(a, p.dir, top, root, hs)
        || (AllPass(a, p.dir, top, root, hs) && ExposesAny(a, p, base, entries[1..], tars[1..])))
  }

  /** Below the roots still to come the disk is still `a`. */
  ghost predicate Waiting(a: Fs, fs: Fs, p: Place, base: Name, entries: seq<ArchiveEntry>) {
    && a.WellFormed() && fs.WellFormed() && a.IsDir(p.dir) && fs.IsDir(p.dir)
    && Spared(a, fs) && fs.umask == a.umask
    && forall e, q :: e in entries && p.dir + [RootOf(e, base, p.into)] <= q ==> SameAt(q, a, fs)
  }

  lemma WaitingFresh(a: Fs, fs: Fs, p: Place, base: Name, entries: seq<ArchiveEntry>)
    requires Waiting(a, fs, p, base, entries) && entries != []
    ensures Fresh(a, fs, p.dir, RootOf(entries[0], base, p.into))
  {
    hide Spared, Fs.WellFormed;
    assert entries[0] in entries;
  }

  lemma WaitingNext(a: Fs, fs: Fs, fs': Fs, p: Place, base: Name, entries: seq<ArchiveEntry>)
    requires Waiting(a, fs, p, base, entries) && entries != [] && DistinctTops(entries)
    requires Confined(p.dir + [RootOf(entries[0], base, p.into)], fs, fs') && fs'.WellFormed() && Spared(a, fs')
    requires fs'.umask == a.umask && (p.into || |entries| <= 1)
    ensures Waiting(a, fs', p, base, entries[1..])
  {
    hide Spared, Fs.WellFormed;
    var first := p.dir + [RootOf(entries[0], base, p.into)];
    assert SameAt(p.dir, fs, fs');
    forall e, q | e in entries[1..] && p.dir + [RootOf(e, base, p.into)] <= q ensures SameAt(q, a, fs') {
      var k :| 0 <= k < |entries[1..]| && entries[1..][k] == e;
      assert entries[k + 1] == e && entries[0].name != e.name;
      assert q[|p.dir|] == RootOf(e, base, p.into);
      assert first[|p.dir|] == RootOf(entries[0], base, p.into);
      assert SameAt(q, fs, fs');
      assert SameAt(q, a, fs);
    }
  }

  lemma AllReadAcceptable(entries: seq<ArchiveEntry>, tars: seq<Tar>)
    requires AllRead(entries, tars)
    ensures |entries| == |tars| && AllAcceptable(tars) && DistinctTops(entries)
    ensures entries != [] ==> !tars[0].broken && Acceptable(tars[0].headers) && Listing(tars[0].headers) == [entries[0]]
  {
    hide Acceptable, Listing;
  }

  lemma {:induction false} ExtractAllHarmless(a: Fs, fs: Fs, p: Place, base: Name, entries: seq<ArchiveEntry>, tars: seq<Tar>)
    requires AllRead(entries, tars) && AllAcceptable(tars) && Normal(base) && (p.into || |entries| <= 1)
    requires Waiting(a, fs, p, base, entries) && |entries| == |tars| && !ExposesAny(a, p, base, entries, tars)
    ensures Spared(a, ExtractAll(fs, p, base, entries, tars, false).0)
    decreases |entries|
  {
    hide Extraction, Acceptable, Listing, Confined, Exposes, AllPass, Fs.WellFormed, Spared, AllRead, DistinctTops;
    if entries != [] {
      AllReadAcceptable(entries, tars);
      var top, root, hs := entries[0].name, RootOf(entries[0], base, p.into), tars[0].headers;
      TopIsNormal(hs, entries[0]);
      WaitingFresh(a, fs, p, base, entries);
      ExtractionHarmless(a, fs, p.dir, top, root, tars[0]);
      ExtractionConfined(fs, p.dir, top, root, tars[0], false);
      var (fs', ok) := Extraction(fs, p.dir, top, root, tars[0], false);
      if ok {
        AllReadRest(entries, tars);
        WaitingNext(a, fs, fs', p, base, entries);
        ExtractAllHarmless(a, fs', p, base, entries[1..], tars[1..]);
      }
    }
  }

  lemma {:induction false} ExtractAllBreaks(a: Fs, fs: Fs, p: Place, base: Name, entries: seq<ArchiveEntry>, tars: seq<Tar>)
    requires AllRead(entries, tars) && AllAcceptable(tars) && Normal(base) && (p.into || |entries| <= 1)
    requires Waiting(a, fs, p, base, entries) && |entries| == |tars| && ExposesAny(a, p, base, entries, tars)
    requires fs.faults == []
    ensures Broken(a, ExtractAll(fs, p, base, entries, tars, false).0)
    decreases |entries|
  {
    hide Extraction, Acceptable, Listing, Confined, Exposes, AllPass, Fs.WellFormed, Spared, AllRead, DistinctTops,
      Broken, Ages;
    AllReadAcceptable(entries, tars);
    var top, root, hs := entries[0].name, RootOf(entries[0], base, p.into), tars[0].headers;
    TopIsNormal(hs, entries[0]);
    WaitingFresh(a, fs, p, base, entries);
    ExtractionBreaks(a, fs, p.dir, top, root, tars[0]);
    var (fs', ok) := Extraction(fs, p.dir, top, root, tars[0], false);
    if Exposes(a, p.dir, top, root, hs) {
      if ok {
        ExtractAllAges(fs', p, base, entries[1..], tars[1..]);
        BrokenStays(a, fs', ExtractAll(fs', p, base, entries[1..], tars[1..], false).0);
      }
    } else {
      ExtractionHarmless(a, fs, p.dir, top, root, tars[0]);
      ExtractionConfined(fs, p.dir, top, root, tars[0], false);
      AllReadRest(entries, tars);
      WaitingNext(a, fs, fs', p, base, entries);
      ExtractAllBreaks(a, fs', p, base, entries[1..], tars[1..]);
    }
  }

  // ---------------------------------------------------------------------
  // From the conflict pass on
  // ---------------------------------------------------------------------

  lemma {:induction false} NoDirectoryExposesNothing(a: Fs, p: Place, base: Name, entries: seq<ArchiveEntry>, tars: seq<Tar>)
    requires |entries| == |tars| && AllAcceptable(tars) && !a.IsDir(p.dir)
    ensures !ExposesAny(a, p, base, entries, tars)
    decreases |entries|
  {
    hide Acceptable, AllPass;
    if entries != [] {
      var top, root, hs := entries[0].name, RootOf(entries[0], base, p.into), tars[0].headers;
      forall n | 0 <= n < |hs| ensures !Overwrites(a, p.dir, top, root, hs, n) {
        NoDirectoryOverwrites(a, p.dir, top, root, hs, n);
      }
      NoDirectoryExposesNothing(a, p, base, entries[1..], tars[1..]);
    }
  }

  lemma NoDirectoryOverwrites(a: Fs, d: Path, top: Name, root: Name, hs: seq<Header>, n: nat)
    requires n < |hs| && Acceptable(hs) && !a.IsDir(d)
    ensures !Overwrites(a, d, top, root, hs, n)
  {
    hide CleanName, Acceptable, FileMode;
    if Inside(top, hs[n]) {
      var up := Target(root, hs[n])[..|Target(root, hs[n])| - 1];
      assert d + up[..0] == d;
    }
  }

  /** What the disk `a` exposes is what any disk with the same nodes and files
      does; from the conflict pass on it bounds every schedule. */
  lemma FinishHarmless(a: Fs, fs: Fs, p: Place, base: Name, entries: seq<ArchiveEntry>, tars: seq<Tar>)
    requires AllRead(entries, tars) && a.WellFormed() && Normal(base) && (p.into || |entries| <= 1)
    requires SameStore(a, fs) && fs.umask == a.umask && |entries| == |tars| && AllAcceptable(tars)
    requires !ExposesAny(a, p, base, entries, tars)
    ensures Intact(a, Finish(fs, p, base, entries, tars, false).0)
  {
    hide AllConflicts, ExtractAll, AllRead, ExposesAny, AllAcceptable;
    AllConflictsExact(fs, p, base, entries, []);
    var (fs1, conflicts) := AllConflicts(fs, p, base, entries, []);
    Unchanged(a);
    assert SameStore(a, fs1);
    SparedSame(a, a, fs1);
    StoreKeeps(a, fs1, p, base);
    if conflicts == [] {
      if a.IsDir(p.dir) {
        hide Spared, Fs.WellFormed;
        assert Waiting(a, fs1, p, base, entries);
        ExtractAllHarmless(a, fs1, p, base, entries, tars);
        assert Intact(a, ExtractAll(fs1, p, base, entries, tars, false).0) by {
          SparedIsIntact(a, ExtractAll(fs1, p, base, entries, tars, false).0);
        }
      } else {
        ExtractAllNowhere(fs1, p, base, entries, tars, false);
        SparedSame(a, fs1, ExtractAll(fs1, p, base, entries, tars, false).0);
      }
    }
  }

  lemma SparedIsIntact(a: Fs, b: Fs)
    requires Spared(a, b)
    ensures Intact(a, b)
  {
  }

  /** Every one of `n` calls fails. */
  function Blind(n: nat): seq<Fault> { seq(n, _ => Fail(0)) }

  /** With every lookup of the conflict pass failing and nothing else, an exposed
      file is opened. */
  lemma FinishBreaks(fs: Fs, p: Place, base: Name, entries: seq<ArchiveEntry>, tars: seq<Tar>)
    requires AllRead(entries, tars) && fs.WellFormed() && Normal(base) && (p.into || |entries| <= 1)
    requires |entries| == |tars| && AllAcceptable(tars) && ExposesAny(fs, p, base, entries, tars)
    requires fs.faults == Blind(PathCount(entries))
    ensures !Intact(fs, Finish(fs, p, base, entries, tars, false).0)
  {
    if !fs.IsDir(p.dir) {
      NoDirectoryExposesNothing(fs, p, base, entries, tars);
    } else {
      hide AllConflicts, ExtractAll, AllRead, ExposesAny, AllAcceptable, Free;
      AllConflictsExact(fs, p, base, entries, []);
      var (fs1, conflicts) := AllConflicts(fs, p, base, entries, []);
      forall e, k | 0 <= e < |entries| && 0 <= k < |entries[e].paths| ensures MissedAt(fs, p, base, entries, e, k) {
        CallInPass(entries, e, k);
      }
      assert fs1.faults == [];
      Unchanged(fs);
      SparedSame(fs, fs, fs1);
      StoreKeeps(fs, fs1, p, base);
      hide Spared, Fs.WellFormed;
      assert Waiting(fs, fs1, p, base, entries);
      ExtractAllBreaks(fs, fs1, p, base, entries, tars);
      BrokenIsNotIntact(fs, ExtractAll(fs1, p, base, entries, tars, false).0);
    }
  }

  lemma {:induction false} CallInPass(entries: seq<ArchiveEntry>, e: nat, k: nat)
    requires e < |entries| && k < |entries[e].paths|
    ensures CallOf(entries, e, k) < PathCount(entries)
    decreases e
  {
    if e > 0 {
      CallInPass(entries[1..], e - 1, k);
      CallOfNext(entries, e - 1, k);
    } else {
      assert entries[..0] == [];
    }
  }

  // ---------------------------------------------------------------------
  // Any sources, also several under one name
  // ---------------------------------------------------------------------

  lemma {:induction false} ExtractAllUnmet(a: Fs, fs: Fs, p: Place, base: Name, entries: seq<ArchiveEntry>, tars: seq<Tar>)
    requires AllRead(entries, tars) && |entries| == |tars| && Normal(base)
    requires a.WellFormed() && fs.WellFormed() && fs.IsDir(p.dir) && Spared(a, fs)
    requires !Meets(a.inodes.Keys, Draft(Of(fs), []), p, base, "", "", [], entries, tars)
    ensures Spared(a, ExtractAll(fs, p, base, entries, tars, false).0)
    decreases |entries|
  {
    hide Steps, ChmodDirs, Acceptable, Listing, Confined, Fs.WellFormed, Intact, Apart, AllRead, Meets, Of, Settled, Good,
      Newcomers, FilesThere, BelowTop;
    if entries != [] {
      NextSource(entries, tars, base, p);
      var e, hs, root := entries[0], tars[0].headers, RootOf(entries[0], base, p.into);
      var j, r0 := Job(fs, p.dir, root, hs), Run(fs, {}, [], false);
      UnmetSource(a.inodes.Keys, Of(fs), p, base, entries, tars);
      SharingStarts(a, j);
      assert j.hs[0..] == j.hs;
      var m := StepsDraft(a, j, 0, r0, e.name, p, base, entries[1..], tars[1..]);
      var r := Steps(r0, p.dir, e.name, root, hs, false);
      if !r.failed {
        ChmodDirsSpare(a, j, m, r.fs, r.safe, r.dirs);
        ChmodDirsDraft(j, m, r.fs, r.safe, r.dirs);
        ExtractionConfined(fs, p.dir, e.name, root, tars[0], false);
        StaysDir(p.dir, root, fs, Extraction(fs, p.dir, e.name, root, tars[0], false).0);
        var (fs', ok) := ChmodDirs(r.fs, p.dir, r.dirs);
        if ok {
          MeetsBetween(a.inodes.Keys, Draft(Of(r.fs), r.dirs), Of(fs'), p, base, e.name, root, entries[1..], tars[1..]);
          ExtractAllUnmet(a, fs', p, base, entries[1..], tars[1..]);
        }
      }
    }
  }

  lemma UnmetSource(files: set<nat>, s: Sketch, p: Place, base: Name, entries: seq<ArchiveEntry>, tars: seq<Tar>)
    requires |entries| == |tars| && entries != [] && !Meets(files, Draft(s, []), p, base, "", "", [], entries, tars)
    ensures !Meets(files, Draft(s, []), p, base, entries[0].name, RootOf(entries[0], base, p.into), tars[0].headers,
                   entries[1..], tars[1..])
  {
    assert Settled(s, p.dir, []) == s;
  }

  lemma SharingStarts(a: Fs, j: Job)
    requires a.WellFormed() && j.fs0.WellFormed() && j.fs0.IsDir(j.d) && Spared(a, j.fs0)
    ensures Good(j, 0, j.fs0, {}, []) && BelowTop(j.hs, "", 0) && Sharing(a, j, 0, j.fs0, [])
    ensures forall top :: BelowTop(j.hs, top, 0)
  {
    StartsGood(j);
    StartsNew(a, j);
    hide Good, Newcomers, Spared, CleanName;
  }

  /** Whatever calls fail, sources that expose no file of the disk `a` spare it. */
  lemma FinishUnmet(a: Fs, fs: Fs, p: Place, base: Name, entries: seq<ArchiveEntry>, tars: seq<Tar>)
    requires AllRead(entries, tars) && |entries| == |tars| && a.WellFormed() && Normal(base)
    requires SameStore(a, fs) && fs.umask == a.umask && !ExposedTo(a, p, base, entries, tars)
    ensures Intact(a, Finish(fs, p, base, entries, tars, false).0)
  {
    hide AllConflicts, ExtractAll, AllRead, Meets, MissedAt, Of;
    AllConflictsExact(fs, p, base, entries, []);
    var (fs1, conflicts) := AllConflicts(fs, p, base, entries, []);
    Unchanged(a);
    assert SameStore(a, fs1);
    SparedSame(a, a, fs1);
    StoreKeeps(a, fs1, p, base);
    OfSame(a, fs1);
    hide Intact, Apart;
    if conflicts == [] {
      if a.IsDir(p.dir) {
        ExtractAllUnmet(a, fs1, p, base, entries, tars);
      } else {
        ExtractAllNowhere(fs1, p, base, entries, tars, false);
        SparedSame(a, fs1, ExtractAll(fs1, p, base, entries, tars, false).0);
      }
    }
  }

  lemma {:induction false} NoDirectoryMeetsNothing(files: set<nat>, r: Draft, p: Place, base: Name, top: Name, root: Name,
                                                   hs: seq<Header>, entries: seq<ArchiveEntry>, tars: seq<Tar>)
    requires |entries| == |tars| && r.dirs == [] && !CanSearch(r.s, p.dir)
    ensures !Meets(files, r, p, base, top, root, hs, entries, tars)
    decreases |entries|, |hs|
  {
    hide CanSearch, Acceptable;
    if hs != [] {
      NoDirectoryNext(files, r, p.dir, top, root, hs[0]);
      NoDirectoryMeetsNothing(files, r, p, base, top, root, hs[1..], entries, tars);
    } else if entries != [] {
      NoDirectoryMeetsNothing(files, r, p, base, entries[0].name, RootOf(entries[0], base, p.into), tars[0].headers,
                              entries[1..], tars[1..]);
    }
  }

  lemma NoDirectoryNext(files: set<nat>, r: Draft, d: Path, top: Name, root: Name, h: Header)
    requires !CanSearch(r.s, d)
    ensures !Hits(files, r.s, d, top, root, h)
    ensures forall refused :: NextDraft(r, d, top, root, h, refused) in {None, Some(r)}
  {
    hide CleanName, CanSearch;
    if Inside(top, h) {
      NoWay(r.s, d, Target(root, h));
    }
  }

  lemma NoWay(s: Sketch, d: Path, t: Path)
    requires t != [] && !CanSearch(s, d)
    ensures !Way(s, d, t)
  {
    assert d + t[..0] == d;
  }

  /** Extracting all sources is going on from the first. */
  lemma OnwardAll(fs: Fs, p: Place, base: Name, entries: seq<ArchiveEntry>, tars: seq<Tar>)
    requires |entries| == |tars| && entries != [] && !tars[0].broken
    ensures ExtractAll(fs, p, base, entries, tars, false).0
            == Onward(Run(fs, {}, [], false), p, base, entries[0].name, RootOf(entries[0], base, p.into), tars[0].headers,
                      entries[1..], tars[1..])
  {
    hide Steps, ChmodDirs;
  }

  /** Sources that expose a file open it: with the lookups of the conflict pass
      failing, the right hard links refused, and nothing else. */
  lemma FinishMeets(fs: Fs, p: Place, base: Name, entries: seq<ArchiveEntry>, tars: seq<Tar>) returns (faults: seq<Fault>)
    requires AllRead(entries, tars) && |entries| == |tars| && fs.WellFormed() && Normal(base)
    requires ExposedTo(fs, p, base, entries, tars)
    ensures !Intact(fs, Finish(Under(fs, faults), p, base, entries, tars, false).0)
  {
    if !CanSearch(Of(fs), p.dir) {
      NoDirectoryMeetsNothing(fs.inodes.Keys, Draft(Of(fs), []), p, base, "", "", [], entries, tars);
    }
    var calm := Under(fs, []);
    MeetsSource(fs.inodes.Keys, Draft(Of(fs), []), p, base, "", "", entries, tars);
    NextSource(entries, tars, base, p);
    var e := entries[0];
    var j := Job(calm, p.dir, RootOf(e, base, p.into), tars[0].headers);
    RestsAtFirst(fs, p);
    assert j.hs[0..] == j.hs && Settled(Of(fs), p.dir, []) == Of(fs);
    hide Meets, Of, AllRead, Resting, Going, Onward, ExtractAll, Broken, Intact, AllConflicts, Acceptable, Listing;
    GoingStarts(fs, j, p, e.name);
    var driven := Drive(fs, j, 0, Run(calm, {}, [], false), e.name, p, base, entries[1..], tars[1..]);
    faults := Blind(PathCount(entries)) + driven;
    BlindPass(fs, p, base, entries, driven);
    OnwardAll(Under(fs, driven), p, base, entries, tars);
    assert RunUnder(Run(calm, {}, [], false), driven) == Run(Under(fs, driven), {}, [], false);
    BrokenIsNotIntact(fs, ExtractAll(Under(fs, driven), p, base, entries, tars, false).0);
  }

  lemma RestsAtFirst(fs: Fs, p: Place)
    requires fs.WellFormed() && CanSearch(Of(fs), p.dir)
    ensures Resting(fs, Under(fs, []), p) && Of(Under(fs, [])) == Of(fs)
  {
    Unchanged(fs);
    SparedSame(fs, fs, Under(fs, []));
    OfSame(fs, Under(fs, []));
    assert forall q :: fs.IsDir(q) <==> Under(fs, []).IsDir(q);
  }

  /** With every lookup failing the conflict pass finds nothing. */
  lemma BlindPass(fs: Fs, p: Place, base: Name, entries: seq<ArchiveEntry>, rest: seq<Fault>)
    ensures AllConflicts(Under(fs, Blind(PathCount(entries)) + rest), p, base, entries, []) == (Under(fs, rest), [])
  {
    var n, f := PathCount(entries), Under(fs, Blind(PathCount(entries)) + rest);
    AllConflictsExact(f, p, base, entries, []);
    forall e, k | 0 <= e < |entries| && 0 <= k < |entries[e].paths| ensures MissedAt(f, p, base, entries, e, k) {
      CallInPass(entries, e, k);
    }
    assert (Blind(n) + rest)[n..] == rest;
    hide AllConflicts, MissedAt, FreeAt;
  }

  /** For sources each with a root of its own the account needs no order of events:
      one header overwrites, and all before it can be extracted. */
  lemma OwnRoots(fs: Fs, p: Place, base: Name, entries: seq<ArchiveEntry>, tars: seq<Tar>)
    requires AllRead(entries, tars) && fs.WellFormed() && Normal(base) && (p.into || |entries| <= 1)
    requires |entries| == |tars| && AllAcceptable(tars)
    ensures ExposedTo(fs, p, base, entries, tars) <==> ExposesAny(fs, p, base, entries, tars)
  {
    hide ExposedTo, ExposesAny, AllRead, AllAcceptable, Finish, Intact;
    if ExposesAny(fs, p, base, entries, tars) {
      var f := Under(fs, Blind(PathCount(entries)));
      WellUnder(fs, Blind(PathCount(entries)));
      ExposesSame(fs, f, p, base, entries, tars);
      FinishBreaks(f, p, base, entries, tars);
      IntactFrom(fs, f, Finish(f, p, base, entries, tars, false).0);
      if !ExposedTo(fs, p, base, entries, tars) {
        FinishUnmet(fs, f, p, base, entries, tars);
      }
    } else if ExposedTo(fs, p, base, entries, tars) {
      var faults := FinishMeets(fs, p, base, entries, tars);
      FinishHarmless(fs, Under(fs, faults), p, base, entries, tars);
    }
  }

  lemma WellUnder(fs: Fs, faults: seq<Fault>)
    requires fs.WellFormed()
    ensures Under(fs, faults).WellFormed() && SameStore(fs, Under(fs, faults)) && Under(fs, faults).umask == fs.umask
    ensures Under(fs, faults).faults == faults
  {
    assert forall q :: fs.IsDir(q) <==> Under(fs, faults).IsDir(q);
  }

  /** What is exposed does not depend on what will fail. */
  lemma {:induction false} ExposesSame(a: Fs, b: Fs, p: Place, base: Name, entries: seq<ArchiveEntry>, tars: seq<Tar>)
    requires |entries| == |tars| && AllAcceptable(tars) && SameStore(a, b) && b.umask == a.umask
    ensures ExposesAny(a, p, base, entries, tars) <==> ExposesAny(b, p, base, entries, tars)
    decreases |entries|
  {
    hide Acceptable, Passes, Overwrites;
    if entries != [] {
      var top, root, hs := entries[0].name, RootOf(entries[0], base, p.into), tars[0].headers;
      forall n | 0 <= n < |hs|
        ensures Passes(a, p.dir, top, root, hs, n) <==> Passes(b, p.dir, top, root, hs, n)
        ensures Overwrites(a, p.dir, top, root, hs, n) <==> Overwrites(b, p.dir, top, root, hs, n)
      {
        PassesSame(a, b, p.dir, top, root, hs, n);
      }
      ExposesSame(a, b, p, base, entries[1..], tars[1..]);
    }
  }

  lemma PassesSame(a: Fs, b: Fs, d: Path, top: Name, root: Name, hs: seq<Header>, n: nat)
    requires n < |hs| && Acceptable(hs) && SameStore(a, b) && b.umask == a.umask
    ensures Passes(a, d, top, root, hs, n) <==> Passes(b, d, top, root, hs, n)
    ensures Overwrites(a, d, top, root, hs, n) <==> Overwrites(b, d, top, root, hs, n)
  {
    hide CleanName, Acceptable, FileMode;
    forall p
      ensures a.Searchable(p) <==> b.Searchable(p)
      ensures a.Writable(p) <==> b.Writable(p)
    {
    }
    forall p
      ensures DirMade(a, d, root, hs, n, p) <==> DirMade(b, d, root, hs, n, p)
    {
    }
    hide DirMade, Fs.Searchable, Fs.Writable;
    forall p
      ensures Enterable(a, d, root, hs, n, p) <==> Enterable(b, d, root, hs, n, p)
      ensures Growable(a, d, root, hs, n, p) <==> Growable(b, d, root, hs, n, p)
    {
    }
    hide Enterable, Growable;
  }

  // ---------------------------------------------------------------------
  // The whole copy
  // ---------------------------------------------------------------------

  /** A place some schedule of failing calls leads the copy to, with nothing made
      on the way: the destination if it is a directory, or its name, if it is no
      directory or a failing stat makes it look like none. A directory that has
      to be made first is no such place. */
  ghost predicate MayChoose(fs: Fs, at: Path, asDir: bool, p: Place)
    requires at != []
  {
    var isDir := Leads(fs, at).Some? && fs.IsDir(Leads(fs, at).value);
    if p.into then isDir && Leads(fs, at) == Some(p.dir)
    else Leads(fs, Up(at)) == Some(p.dir) && (asDir ==> isDir)
  }

  /** The disk and the sources expose a file to the copy, at some place it may
      choose. (What Gather lets through is said again for Tars to be defined.) */
  ghost predicate Exposed(fs: Fs, srcs: seq<Option<Tar>>, at: Path, asDir: bool)
    requires at != []
  {
    && srcs != [] && (|srcs| == 1 || asDir) && Gather(srcs).Some?
    && (forall k :: 0 <= k < |srcs| ==> srcs[k].Some?) && |Gather(srcs).value| == |srcs|
    && exists p :: MayChoose(fs, at, asDir, p) && ExposedTo(fs, p, Last(at), Gather(srcs).value, Tars(srcs))
  }

  /** How the calls up to the conflict pass must go for the copy to choose `p`. */
  function Steer(asDir: bool, p: Place): seq<Fault> {
    (if asDir then [Quiet] else []) + (if p.into then [Quiet] else [Fail(0), Quiet])
  }

  lemma SteeredThere(fs: Fs, at: Path, asDir: bool, p: Place, later: seq<Fault>)
    requires fs.WellFormed() && at != [] && MayChoose(fs, at, asDir, p)
    ensures Destination(Under(fs, Steer(asDir, p) + later), at, asDir) == (Under(fs, later), Some(p))
  {
    hide *;
    var last := if p.into then [Quiet] else [Fail(0), Quiet];
    SteerIs(asDir, p, later);
    EnsureSteered(fs, at, asDir, p, last + later);
    ChooseSteered(fs, at, asDir, p, later);
    DestinationIs(Under(fs, Steer(asDir, p) + later), at, asDir);
  }

  lemma SteerIs(asDir: bool, p: Place, later: seq<Fault>)
    ensures Steer(asDir, p) + later
            == (if asDir then [Quiet] else []) + ((if p.into then [Quiet] else [Fail(0), Quiet]) + later)
  {
  }

  lemma DestinationIs(fs: Fs, at: Path, asDir: bool)
    requires at != []
    ensures EnsureDir(fs, at, asDir).1 ==> Destination(fs, at, asDir) == Choose(EnsureDir(fs, at, asDir).0, at)
  {
    hide EnsureDir, Choose;
  }

  lemma EnsureSteered(fs: Fs, at: Path, asDir: bool, p: Place, rest: seq<Fault>)
    requires fs.WellFormed() && at != [] && MayChoose(fs, at, asDir, p)
    ensures EnsureDir(Under(fs, (if asDir then [Quiet] else []) + rest), at, asDir) == (Under(fs, rest), true)
  {
    hide Leads, Stat, Mkdir;
    Found(fs, at);
    if asDir {
      StatQuiet(fs, at, rest);
    } else {
      assert [] + rest == rest;
    }
  }

  lemma ChooseSteered(fs: Fs, at: Path, asDir: bool, p: Place, later: seq<Fault>)
    requires fs.WellFormed() && at != [] && MayChoose(fs, at, asDir, p)
    ensures Choose(Under(fs, (if p.into then [Quiet] else [Fail(0), Quiet]) + later), at) == (Under(fs, later), Some(p))
  {
    hide Leads, Stat, Fs.WellFormed;
    Found(fs, at);
    Found(fs, Up(at));
    if p.into {
      StatQuiet(fs, at, later);
    } else {
      assert [Fail(0), Quiet] + later == [Fail(0)] + ([Quiet] + later);
      StatFails(fs, at, [Quiet] + later);
      StatQuiet(fs, Up(at), later);
    }
  }

  lemma StatFails(fs: Fs, at: Path, later: seq<Fault>)
    ensures Stat(Under(fs, [Fail(0)] + later), [], at) == (Under(fs, later), None)
  {
    hide Walk;
    assert ([Fail(0)] + later)[1..] == later;
  }

  lemma Found(fs: Fs, at: Path)
    requires fs.WellFormed()
    ensures Leads(fs, at).Some? ==> Leads(fs, at).value in fs.nodes
  {
    hide Walk;
    if Leads(fs, at).Some? {
      WalkLands(fs, [], at, MAX_LINKS);
    }
  }

  lemma StatQuiet(fs: Fs, at: Path, later: seq<Fault>)
    requires Leads(fs, at).Some? && Leads(fs, at).value in fs.nodes
    ensures Stat(Under(fs, [Quiet] + later), [], at) == (Under(fs, later), Leads(fs, at))
  {
    hide Walk;
    WalkSame(fs, Under(fs, [Quiet] + later), [], at, MAX_LINKS);
    assert ([Quiet] + later)[1..] == later;
  }

  /** An exposed file: a schedule that makes the copy choose its place, blinds the
      conflict pass and refuses the right hard links. */
  lemma ExposedBreaks(fs: Fs, srcs: seq<Option<Tar>>, at: Path, asDir: bool) returns (faults: seq<Fault>)
    requires fs.WellFormed() && at != [] && AllNormal(at) && Exposed(fs, srcs, at, asDir)
    ensures !Intact(fs, CopyOut.CopyOut(Under(fs, faults), srcs, at, asDir, false).0)
  {
    hide Destination, Finish, MayChoose, Intact, ExposedTo, AllRead, Gather, Acceptable;
    var entries, tars := Gather(srcs).value, Tars(srcs);
    GatherReads(srcs);
    var p :| MayChoose(fs, at, asDir, p) && ExposedTo(fs, p, Last(at), entries, tars);
    var later := FinishMeets(fs, p, Last(at), entries, tars);
    faults := Steer(asDir, p) + later;
    SteeredThere(fs, at, asDir, p, later);
  }

  lemma IntactFrom(a: Fs, b: Fs, c: Fs)
    requires SameStore(a, b)
    ensures Intact(a, c) <==> Intact(b, c)
  {
    assert forall p :: SameAt(p, a, c) <==> SameAt(p, b, c);
  }

  /** No file of `files` stands at or below `t`. */
  ghost predicate Clear(files: set<nat>, s: Sketch, t: Path) {
    files <= s.modes.Keys && forall q :: q in s.nodes && t <= q && s.nodes[q].File? ==> s.nodes[q].ino !in files
  }

  lemma FillClear(files: set<nat>, r: Draft, d: Path, root: Name, h: Header, refused: bool, t: Path)
    requires Kept(h) && CleanName(h.name).Some? && Clear(files, r.s, t) && t <= d + [root]
    ensures Fill(r, d, root, h, refused).Some? ==> Clear(files, Fill(r, d, root, h, refused).value.s, t)
  {
    hide CleanName, Way, CanFill, CanRead;
    var src := LinkSource(root, h.linkname);
    assert d + [root] <= d + src by {
      assert (d + src)[..|d| + 1] == d + [root];
    }
  }

  lemma ClearNext(files: set<nat>, r: Draft, d: Path, top: Name, root: Name, h: Header, refused: bool, t: Path)
    requires Clear(files, r.s, t) && t <= d + [root]
    ensures !Hits(files, r.s, d, top, root, h)
    ensures var next := NextDraft(r, d, top, root, h, refused); next.Some? ==> Clear(files, next.value.s, t)
  {
    hide CleanName, Fill, Way, CanRead;
    if Inside(top, h) {
      var dst := Target(root, h);
      assert d + [root] <= d + dst by {
        assert (d + dst)[..|d| + 1] == d + [root];
      }
      if Kept(h) {
        FillClear(files, r, d, root, h, refused, t);
      }
    }
  }

  lemma {:induction false} SettledClear(files: set<nat>, s: Sketch, d: Path, dirs: seq<DirMode>, t: Path)
    requires Clear(files, s, t)
    ensures Clear(files, Settled(s, d, dirs), t)
    decreases |dirs|
  {
    if dirs != [] {
      var last := dirs[|dirs| - 1];
      SettledClear(files, Put(s, d + last.path, Dir(last.mode)), d, dirs[..|dirs| - 1], t);
    }
  }

  lemma {:induction false} ClearMeetsNothing(files: set<nat>, r: Draft, p: Place, base: Name, top: Name, root: Name,
                                             hs: seq<Header>, entries: seq<ArchiveEntry>, tars: seq<Tar>, t: Path)
    requires |entries| == |tars| && Clear(files, r.s, t) && t <= Reach(p, base)
    requires hs != [] ==> p.into || root == base
    ensures !Meets(files, r, p, base, top, root, hs, entries, tars)
    decreases |entries|, |hs|
  {
    hide Clear, NextDraft, Hits, Settled;
    if hs != [] {
      assert t <= p.dir + [root];
      ClearNext(files, r, p.dir, top, root, hs[0], false, t);
      forall refused | NextDraft(r, p.dir, top, root, hs[0], refused).Some?
        ensures !Meets(files, NextDraft(r, p.dir, top, root, hs[0], refused).value, p, base, top, root, hs[1..], entries, tars)
      {
        ClearNext(files, r, p.dir, top, root, hs[0], refused, t);
        ClearMeetsNothing(files, NextDraft(r, p.dir, top, root, hs[0], refused).value, p, base, top, root, hs[1..],
                          entries, tars, t);
      }
    } else if entries != [] {
      SettledClear(files, r.s, p.dir, r.dirs, t);
      ClearMeetsNothing(files, Draft(Settled(r.s, p.dir, r.dirs), []), p, base, entries[0].name,
                        RootOf(entries[0], base, p.into), tars[0].headers, entries[1..], tars[1..], t);
    }
  }

  /** Below a directory the copy has made, nothing is exposed. */
  lemma MadeExposesNothing(t: Path, a: Fs, b: Fs, p: Place, base: Name, entries: seq<ArchiveEntry>, tars: seq<Tar>)
    requires |entries| == |tars| && a.WellFormed() && Grew(t, a, b) && b.nodes != a.nodes && t <= Reach(p, base)
    ensures !ExposedTo(b, p, base, entries, tars)
  {
    assert Clear(b.inodes.Keys, Of(b), t) by {
      forall q | q in b.nodes && t <= q ensures b.nodes[q].Dir? {
        AbsentBelow(a, t, q);
        assert b.IsDir(q);
      }
    }
    hide Clear, Of, Meets;
    ClearMeetsNothing(b.inodes.Keys, Draft(Of(b), []), p, base, "", "", [], entries, tars, t);
  }

  lemma AbsentBelow(fs: Fs, t: Path, p: Path)
    requires fs.WellFormed() && t !in fs.nodes && t <= p
    ensures p !in fs.nodes
  {
    assert p[..|t|] == t && p[..|p|] == p;
    if p in fs.nodes && |t| < |p| {
      AncestorsAreDirs(fs, p, |t|);
    }
  }

  /** Where nothing is exposed, no schedule changes anything that was there. */
  lemma UnexposedIntact(fs: Fs, srcs: seq<Option<Tar>>, at: Path, asDir: bool)
    requires fs.WellFormed() && at != [] && AllNormal(at) && !Exposed(fs, srcs, at, asDir)
    ensures Intact(fs, CopyOut.CopyOut(fs, srcs, at, asDir, false).0)
  {
    hide Gather, Destination, Finish, Fs.WellFormed, Intact, Apart, Grew, Leads, Landing, AllRead, ExposedTo, Acceptable,
      MayChoose;
    Unchanged(fs);
    if Gather(srcs).Some? {
      GatherReads(srcs);
      GatherSome(srcs);
      DestinationChosen(fs, at, asDir);
      var (fs1, place) := Destination(fs, at, asDir);
      GrewTree(Landing(fs, at), fs, fs1);
      GrewSpares(Landing(fs, at), fs, fs1);
      if place.Some? && srcs != [] && (|srcs| == 1 || asDir) {
        var p, base, entries, tars := place.value, Last(at), Gather(srcs).value, Tars(srcs);
        var fs2 := Finish(fs1, p, base, entries, tars, false).0;
        if fs1.nodes != fs.nodes {
          MadeExposesNothing(Landing(fs, at), fs, fs1, p, base, entries, tars);
          FinishUnmet(fs1, fs1, p, base, entries, tars);
          IntactTransitive(fs, fs1, fs2);
        } else {
          ChosenMayBe(fs, fs1, at, asDir, p);
          FinishUnmet(fs, fs1, p, base, entries, tars);
        }
      }
    }
  }

  lemma ChosenMayBe(a: Fs, b: Fs, at: Path, asDir: bool, p: Place)
    requires at != [] && Chosen(a, b, at, asDir, p) && b.nodes == a.nodes
    ensures MayChoose(a, at, asDir, p)
  {
    LeadsSame(a, b, at);
    LeadsSame(a, b, Up(at));
    hide Leads, Landing;
  }

  /** Main result: some schedule of failing calls makes a copy without force
      change something that was there exactly if the disk and the sources expose a
      file: worked out on paper, from some place the copy may choose and with some
      hard links refused, a regular file or hard link of a source comes to a file
      that was there and that its owner may write. */
  lemma CopyOutExposed(fs: Fs, srcs: seq<Option<Tar>>, at: Path, asDir: bool)
    requires fs.WellFormed() && at != [] && AllNormal(at)
    ensures Exposed(fs, srcs, at, asDir) <==>
            exists faults: seq<Fault> :: !Intact(fs, CopyOut.CopyOut(Under(fs, faults), srcs, at, asDir, false).0)
  {
    hide CopyOut.CopyOut, Exposed, Intact;
    if Exposed(fs, srcs, at, asDir) {
      var faults := ExposedBreaks(fs, srcs, at, asDir);
    } else {
      forall faults: seq<Fault>
        ensures Intact(fs, CopyOut.CopyOut(Under(fs, faults), srcs, at, asDir, false).0)
      {
        ExposedUnder(fs, faults, srcs, at, asDir);
        WellUnder(fs, faults);
        UnexposedIntact(Under(fs, faults), srcs, at, asDir);
        IntactFrom(fs, Under(fs, faults), CopyOut.CopyOut(Under(fs, faults), srcs, at, asDir, false).0);
      }
    }
  }

  /** What is exposed does not depend on what will fail. */
  lemma ExposedUnder(fs: Fs, faults: seq<Fault>, srcs: seq<Option<Tar>>, at: Path, asDir: bool)
    requires at != []
    ensures Exposed(Under(fs, faults), srcs, at, asDir) ==> Exposed(fs, srcs, at, asDir)
  {
    var f := Under(fs, faults);
    LeadsSame(fs, f, at);
    LeadsSame(fs, f, Up(at));
    OfSame(fs, f);
    hide Leads, Meets, Gather, Of;
    if Exposed(f, srcs, at, asDir) {
      var entries, tars := Gather(srcs).value, Tars(srcs);
      var p :| MayChoose(f, at, asDir, p) && ExposedTo(f, p, Last(at), entries, tars);
      assert MayChoose(fs, at, asDir, p) && ExposedTo(fs, p, Last(at), entries, tars);
    }
  }

  // ---------------------------------------------------------------------
  // The simplest copy
  // ---------------------------------------------------------------------

  /** A download of one regular file named `n`. */
  ghost predicate OneFile(h: Header, n: Name) { h.flag.Reg? && CleanName(h.name) == Some([n]) }

  /** A download of a single entry `n`. */
  lemma LeafGathered(h: Header, n: Name)
    requires (h.flag.Reg? || h.flag.SymLink? || h.flag.Directory?) && CleanName(h.name) == Some([n])
    ensures var srcs := [Some(Tar([h], false))];
            && Gather(srcs) == Some([ArchiveEntry(n, [ArchivePath([], h.flag.Directory?)])])
            && Acceptable([h]) && Tars(srcs) == [Tar([h], false)] && AllAcceptable(Tars(srcs))
  {
    hide CleanName;
    var srcs := [Some(Tar([h], false))];
    assert [h][..0] == [];
    assert Accepts([h][..0]) && NextAccepted([], h);
    AcceptsExact([h]);
    hide Acceptable;
    assert [n][1..] == [];
    assert Listing([h]) == [ArchiveEntry(n, [ArchivePath([], h.flag.Directory?)])];
    assert srcs[..0] == [];
    assert Gather(srcs[..0]) == Some([]);
    assert Tars(srcs) == [Tar([h], false)];
  }

  /** One file: it is exposed where a file its owner may write has its place. */
  lemma OneFileExposed(fs: Fs, at: Path, asDir: bool, h: Header, n: Name)
    requires OneFile(h, n) && at != []
    ensures Exposed(fs, [Some(Tar([h], false))], at, asDir) <==>
            exists p :: MayChoose(fs, at, asDir, p) && Overwritable(fs, p.dir, [if p.into then n else Last(at)])
  {
    LeafGathered(h, n);
    hide Gather, Acceptable, MayChoose, AllSearchable;
    var srcs := [Some(Tar([h], false))];
    var entries, tars := Gather(srcs).value, Tars(srcs);
    forall p: Place
      ensures ExposedTo(fs, p, Last(at), entries, tars) <==>
              Overwritable(fs, p.dir, [if p.into then n else Last(at)])
    {
      OneFileExposes(fs, p, Last(at), h, n);
    }
    hide ExposedTo, Overwritable;
  }

  lemma OneFileExposes(fs: Fs, p: Place, base: Name, h: Header, n: Name)
    requires OneFile(h, n)
    ensures ExposedTo(fs, p, base, [ArchiveEntry(n, [ArchivePath([], false)])], [Tar([h], false)]) <==>
            Overwritable(fs, p.dir, [if p.into then n else base])
  {
    var root := if p.into then n else base;
    var files, r := fs.inodes.Keys, Draft(Of(fs), []);
    OfDirs(fs, p.dir, [root]);
    OfFiles(fs, p.dir + [root]);
    OfNodes(fs);
    hide CleanName, Of, AllSearchable, Way, CanOpen, NextDraft;
    assert Target(root, h) == [root];
    assert Hits(files, Of(fs), p.dir, n, root, h) <==> Overwritable(fs, p.dir, [root]);
    hide Hits;
    assert [h][1..] == [];
    assert forall s :: !Meets(files, s, p, base, n, root, [], [], []);
    assert Meets(files, r, p, base, n, root, [h], [], []) <==> Hits(files, Of(fs), p.dir, n, root, h);
    var e, t := ArchiveEntry(n, [ArchivePath([], false)]), Tar([h], false);
    assert Settled(Of(fs), p.dir, []) == Of(fs) && [e][1..] == [] && [t][1..] == [] && RootOf(e, base, p.into) == root;
    assert ExposedTo(fs, p, base, [e], [t]) <==> Meets(files, r, p, base, n, root, [h], [], []);
  }

  /** So on every disk a copy of one file to the name of another, which its owner
      may write, can rewrite that one without force. */
  lemma FailedLookupOverwrites(fs: Fs, at: Path, h: Header, n: Name)
    requires fs.WellFormed() && at != [] && AllNormal(at) && OneFile(h, n)
    requires Leads(fs, Up(at)).Some? && Overwritable(fs, Leads(fs, Up(at)).value, [Last(at)])
    ensures exists faults: seq<Fault> ::
              !Intact(fs, CopyOut.CopyOut(Under(fs, faults), [Some(Tar([h], false))], at, false, false).0)
  {
    hide CopyOut.CopyOut, Exposed, Intact, Overwritable, Leads, OneFile;
    assert MayChoose(fs, at, false, Place(Leads(fs, Up(at)).value, false));
    OneFileExposed(fs, at, false, h, n);
    CopyOutExposed(fs, [Some(Tar([h], false))], at, false);
  }

  /** The same of several sources, when the destination, a directory, is taken for
      none, so that all go under its one name: if the first is a directory with a
      file `x` in it, a file `x` of the destination can be rewritten, though nothing
      there has the name of any source. */
  lemma SharedNameOverwrites(fs: Fs, srcs: seq<Option<Tar>>, at: Path, n: Name, x: Name)
    requires fs.WellFormed() && at != [] && AllNormal(at) && srcs != [] && Gather(srcs).Some?
    requires srcs[0].Some? && |srcs[0].value.headers| == 2
    requires var hs := srcs[0].value.headers;
             && hs[0].flag.Directory? && CleanName(hs[0].name) == Some([n])
             && hs[1].flag.Reg? && CleanName(hs[1].name) == Some([n, x])
    requires Leads(fs, Up(at)).Some? && Overwritable(fs, Leads(fs, Up(at)).value, [Last(at), x])
    ensures exists faults: seq<Fault> :: !Intact(fs, CopyOut.CopyOut(Under(fs, faults), srcs, at, true, false).0)
  {
    var up, base := Leads(fs, Up(at)).value, Last(at);
    var p, entries := Place(up, false), Gather(srcs).value;
    GatherReads(srcs);
    GatherSome(srcs);
    FirstEntry(srcs[0].value.headers, entries[0], n);
    ThroughBase(fs, up, base, x);
    LastStep(fs, at);
    hide Gather, Acceptable, Listing, Leads, Intact, CopyOut.CopyOut, Overwritable;
    assert MayChoose(fs, at, true, p);
    MeetsSecond(fs, p, base, entries, Tars(srcs), n, x);
    assert Exposed(fs, srcs, at, true);
    hide Exposed;
    CopyOutExposed(fs, srcs, at, true);
  }

  lemma FirstEntry(hs: seq<Header>, e: ArchiveEntry, n: Name)
    requires Listing(hs) == [e] && |hs| == 2 && CleanName(hs[0].name) == Some([n]) && Kept(hs[0])
    ensures e.name == n
  {
    hide CleanName, Listing;
    ListingExact(hs);
    var path := ArchivePath([], hs[0].flag.Directory?);
    assert [n] + path.rel == [n];
    assert ListedFrom(hs, n, path);
    assert Lists(Listing(hs), n, path);
  }

  lemma ThroughBase(fs: Fs, up: Path, base: Name, x: Name)
    requires Overwritable(fs, up, [base, x])
    ensures fs.Searchable(up) && fs.Searchable(up + [base])
  {
    var above := [base, x][..1];
    assert above == [base] && up + above[..0] == up && up + above[..1] == up + [base];
  }

  lemma MeetsSecond(fs: Fs, p: Place, base: Name, entries: seq<ArchiveEntry>, tars: seq<Tar>, n: Name, x: Name)
    requires |entries| == |tars| && entries != [] && entries[0].name == n && !p.into && |tars[0].headers| == 2
    requires var hs := tars[0].headers;
             && hs[0].flag.Directory? && CleanName(hs[0].name) == Some([n])
             && hs[1].flag.Reg? && CleanName(hs[1].name) == Some([n, x])
    requires Overwritable(fs, p.dir, [base, x])
    ensures ExposedTo(fs, p, base, entries, tars)
  {
    var hs, d, files, r := tars[0].headers, p.dir, fs.inodes.Keys, Draft(Of(fs), []);
    ThroughBase(fs, d, base, x);
    assert [n][1..] == [] && [n, x][1..] == [x] && [base] + [] == [base] && [base] + [x] == [base, x];
    assert Target(base, hs[0]) == [base] && Target(base, hs[1]) == [base, x];
    OfDirs(fs, d, [base]);
    OfDirs(fs, d, [base, x]);
    OfFiles(fs, d + [base, x]);
    OfNodes(fs);
    assert AllSearchable(fs, d, [base][..0]) by {
      assert d + [base][..0][..0] == d;
    }
    hide CleanName, Of, AllSearchable, Way, CanOpen;
    assert Hits(files, Of(fs), d, n, base, hs[1]);
    assert NextDraft(r, d, n, base, hs[0], false) == Some(r);
    hide Hits, NextDraft;
    assert hs[1..][0] == hs[1];
    assert Meets(files, r, p, base, n, base, hs[1..], entries[1..], tars[1..]);
    assert Meets(files, r, p, base, n, base, hs, entries[1..], tars[1..]);
    assert Settled(Of(fs), d, []) == Of(fs);
  }
}
