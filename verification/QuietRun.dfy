/** Runs in which nothing fails: what an exposed file meets, and that an archive
    all of whose headers can be extracted is extracted. */
module QuietRun {
  import opened Wrappers
  import opened FileSystem
  import opened Archive
  import opened Extract
  import opened ExtractSafety
  import opened NoClobber
  import opened Overwriting

  // ---------------------------------------------------------------------
  // A file opened once stays opened
  // ---------------------------------------------------------------------

  ghost predicate Ages(a: Fs, b: Fs) {
    forall i :: i in a.inodes ==> i in b.inodes && a.inodes[i].opens <= b.inodes[i].opens
  }

  /** A file of `a` has been opened to be written. */
  ghost predicate Broken(a: Fs, b: Fs) {
    exists i :: i in a.inodes && i in b.inodes && a.inodes[i].opens < b.inodes[i].opens
  }

  lemma BrokenStays(a: Fs, b: Fs, c: Fs)
    requires Broken(a, b) && Ages(b, c)
    ensures Broken(a, c)
  {
    var i :| i in a.inodes && i in b.inodes && a.inodes[i].opens < b.inodes[i].opens;
    assert i in c.inodes;
  }

  lemma BrokenIsNotIntact(a: Fs, b: Fs)
    requires Broken(a, b)
    ensures !Intact(a, b)
  {
  }

  lemma OpenAges(fs: Fs, d: Path, dst: Path, mode: Perm)
    requires dst != []
    ensures Ages(fs, OpenTrunc(fs, d, dst, mode).0)
  {
    hide Locate, FreshIno;
  }

  lemma WriteAges(fs: Fs, i: nat, content: Bytes)
    requires i in fs.inodes
    ensures Ages(fs, WriteAll(fs, i, content).0)
  {
  }

  lemma ChmodAges(fs: Fs, d: Path, dst: Path, mode: Perm)
    ensures Ages(fs, Chmod(fs, d, dst, mode).0)
  {
    hide Walk;
  }

  lemma RegAges(r: Run, d: Path, dst: Path, mode: Perm, content: Bytes)
    requires dst != []
    ensures Ages(r.fs, ExtractReg(r, d, dst, mode, content).fs)
  {
    hide OpenTrunc, WriteAll, Chmod, Walk;
    OpenAges(r.fs, d, dst, mode);
    var (fs1, ino) := OpenTrunc(r.fs, d, dst, mode);
    if ino.Some? && ino.value in fs1.inodes {
      WriteAges(fs1, ino.value, content);
      ChmodAges(WriteAll(fs1, ino.value, content).0, d, dst, mode);
    }
  }

  lemma CopyAges(fs: Fs, d: Path, src: Path, dst: Path, mode: Perm)
    requires src != [] && dst != []
    ensures Ages(fs, CopyFile(fs, d, src, dst, mode).0)
  {
    hide OpenTrunc, WriteAll, Lookup, Slot;
    var fs1 := Lstat(fs, d, src).0;
    var (fs2, from) := OpenRead(fs1, d, src);
    OpenAges(fs2, d, dst, mode);
    var (fs3, ino) := OpenTrunc(fs2, d, dst, mode);
    if ino.Some? && ino.value in fs3.inodes && from.Some? && from.value in fs3.inodes {
      WriteAges(fs3, ino.value, fs3.inodes[from.value].content);
    }
  }

  lemma OtherAges(r: Run, d: Path, src: Path, dst: Path, mode: Perm, target: string)
    requires src != [] && dst != []
    ensures Ages(r.fs, ExtractDir(r, d, dst, mode).fs)
    ensures Ages(r.fs, ExtractSymlink(r, d, dst, target).fs)
    ensures Ages(r.fs, ExtractHardLink(r, d, src, dst, mode).fs)
  {
    hide Lookup, Slot, CopyFile;
    CopyAges(FileSystem.HardLink(r.fs, d, src, dst).0, d, src, dst, mode);
  }

  lemma {:induction false} ParentsStore(fs: Fs, safe: set<Path>, d: Path, comps: Path, k: nat)
    requires 1 <= k
    ensures SameStore(fs, CheckParents(fs, safe, d, comps, k).0)
    decreases |comps| - k
  {
    hide Lookup;
    if k < |comps| {
      if comps[..k] in safe {
        ParentsStore(fs, safe, d, comps, k + 1);
      } else {
        var (fs', node) := Lstat(fs, d, comps[..k]);
        ParentsStore(fs', safe + {comps[..k]}, d, comps, k + 1);
      }
    }
  }

  lemma StepAges(r: Run, d: Path, top: Name, root: Name, h: Header)
    ensures Ages(r.fs, Step(r, d, top, root, h, false).fs)
  {
    hide CleanName, CheckParents, ExtractDir, ExtractReg, ExtractSymlink, ExtractHardLink;
    if Kept(h) && Inside(top, h) {
      var dst := Target(root, h);
      ParentsStore(r.fs, r.safe, d, dst, 1);
      var (fs, safe, ok) := CheckParents(r.fs, r.safe, d, dst, 1);
      var r1 := r.(fs := fs, safe := safe);
      RegAges(r1, d, dst, h.mode, h.content);
      OtherAges(r1, d, LinkSource(root, h.linkname), dst, h.mode, h.linkname);
    }
  }

  lemma {:induction false} StepsAge(r: Run, d: Path, top: Name, root: Name, hs: seq<Header>)
    ensures Ages(r.fs, Steps(r, d, top, root, hs, false).fs)
    decreases |hs|
  {
    hide Step;
    if !r.failed && hs != [] {
      StepAges(r, d, top, root, hs[0]);
      StepsAge(Step(r, d, top, root, hs[0], false), d, top, root, hs[1..]);
    }
  }

  lemma {:induction false} ChmodDirsAge(fs: Fs, d: Path, dirs: seq<DirMode>)
    ensures Ages(fs, ChmodDirs(fs, d, dirs).0)
    decreases |dirs|
  {
    hide Chmod;
    if dirs != [] {
      var e := dirs[|dirs| - 1];
      ChmodAges(fs, d, e.path, e.mode);
      if Chmod(fs, d, e.path, e.mode).1 {
        ChmodDirsAge(Chmod(fs, d, e.path, e.mode).0, d, dirs[..|dirs| - 1]);
      }
    }
  }

  lemma ExtractionAges(fs: Fs, d: Path, top: Name, root: Name, tar: Tar)
    ensures Ages(fs, Extraction(fs, d, top, root, tar, false).0)
  {
    hide Steps, ChmodDirs;
    StepsAge(Run(fs, {}, [], false), d, top, root, tar.headers);
    var r := Steps(Run(fs, {}, [], false), d, top, root, tar.headers, false);
    ChmodDirsAge(r.fs, d, r.dirs);
  }

  // ---------------------------------------------------------------------
  // One header when nothing fails
  // ---------------------------------------------------------------------

  /** The way to a place is open, and nothing fails. */
  ghost predicate Calm(fs: Fs, d: Path, dst: Path) {
    && fs.faults == [] && fs.WellFormed() && dst != [] && AllNormal(dst)
    && AllSearchable(fs, d, dst[..|dst| - 1])
  }

  lemma CalmLookup(fs: Fs, d: Path, dst: Path)
    requires Calm(fs, d, dst)
    ensures Plain(fs, d, dst) && Locate(fs, d, dst) == Some(d + dst)
    ensures Lookup(fs, d, dst) == if d + dst in fs.nodes then Some(fs.nodes[d + dst]) else None
    ensures fs.Writable(Parent(d + dst)) ==> Slot(fs, d, dst) == Some(d + dst)
  {
    hide Walk, AllSearchable, NoLinks;
    OpenHasNoLinks(fs, d, dst[..|dst| - 1]);
    LocatePlain(fs, d, dst);
  }

  lemma {:induction false} ParentsCalm(fs: Fs, safe: set<Path>, d: Path, dst: Path, k: nat)
    requires Calm(fs, d, dst) && 1 <= k
    ensures CheckParents(fs, safe, d, dst, k).2
    decreases |dst| - k
  {
    hide Lookup, Calm;
    if k < |dst| {
      if dst[..k] in safe {
        ParentsCalm(fs, safe, d, dst, k + 1);
      } else {
        PrefixCalm(fs, d, dst, k);
        CalmLookup(fs, d, dst[..k]);
        CalmFaults(fs, d, dst);
        ParentsCalm(fs, safe + {dst[..k]}, d, dst, k + 1);
      }
    }
  }

  lemma CalmFaults(fs: Fs, d: Path, dst: Path)
    requires Calm(fs, d, dst)
    ensures fs.faults == []
  {
  }

  lemma PrefixCalm(fs: Fs, d: Path, dst: Path, k: nat)
    requires Calm(fs, d, dst) && 1 <= k < |dst|
    ensures Calm(fs, d, dst[..k]) && fs.IsDir(d + dst[..k])
  {
    hide Fs.WellFormed;
    var up := dst[..|dst| - 1];
    assert dst[..k] == up[..k] && dst[..k][..k - 1] == up[..k - 1];
    assert fs.Searchable(d + up[..k]);
    hide AllSearchable, NoLinks;
    SearchablePrefix(fs, d, up, k - 1);
    assert AllNormal(dst[..k]);
    hide Normal, AllNormal;
  }

  /** A directory is merged into, or made. */
  lemma DirCalm(r: Run, d: Path, dst: Path, mode: Perm)
    requires Calm(r.fs, d, dst) && !r.failed
    requires if d + dst in r.fs.nodes then !r.fs.nodes[d + dst].Link? else r.fs.Writable(Parent(d + dst))
    ensures var r' := ExtractDir(r, d, dst, mode); !r'.failed && r'.fs.faults == []
  {
    CalmLookup(r.fs, d, dst);
    hide Lookup, Slot, AllSearchable, Plain;
  }

  lemma SymlinkCalm(r: Run, d: Path, dst: Path, target: string)
    requires Calm(r.fs, d, dst) && !r.failed && d + dst !in r.fs.nodes && r.fs.Writable(Parent(d + dst))
    ensures var r' := ExtractSymlink(r, d, dst, target); !r'.failed && r'.fs.faults == []
  {
    CalmLookup(r.fs, d, dst);
    hide Lookup, Slot, AllSearchable, Plain;
  }

  lemma HardLinkCalm(r: Run, d: Path, src: Path, dst: Path, mode: Perm)
    requires Calm(r.fs, d, dst) && !r.failed && d + dst !in r.fs.nodes && r.fs.Writable(Parent(d + dst))
    requires Calm(r.fs, d, src) && d + src in r.fs.nodes && r.fs.nodes[d + src].File?
    ensures FileSystem.HardLink(r.fs, d, src, dst).1
    ensures var r' := ExtractHardLink(r, d, src, dst, mode); !r'.failed && r'.fs.faults == []
  {
    CalmLookup(r.fs, d, dst);
    CalmLookup(r.fs, d, src);
    hide Lookup, Slot, AllSearchable, Plain;
  }

  /** A regular file is opened, filled and given its mode. */
  lemma RegCalm(r: Run, d: Path, dst: Path, mode: Perm, content: Bytes)
    requires Calm(r.fs, d, dst) && !r.failed
    requires d + dst !in r.fs.nodes && r.fs.Writable(Parent(d + dst)) && d + dst != []
    ensures var r' := ExtractReg(r, d, dst, mode, content); !r'.failed && r'.fs.faults == []
  {
    CalmLookup(r.fs, d, dst);
    hide Locate, Lookup, Slot, Walk, NoLinks, AllNormal, FreshIno, Fs.WellFormed;
    OpenTook(r.fs, d, dst, mode);
    var (fs1, ino) := OpenTrunc(r.fs, d, dst, mode);
    assert ino.Some?;
    hide OpenTrunc;
    WriteTook(d, dst, r.fs, fs1, content);
    var fs2 := WriteAll(fs1, ino.value, content).0;
    TookWalks(d, dst, r.fs, fs2);
    hide WriteAll, AllSearchable, Plain;
    ChmodCalm(fs2, d, dst, mode);
  }

  lemma TookWalks(d: Path, dst: Path, a: Fs, b: Fs)
    requires Plain(a, d, dst) && TookFile(d, dst, a, b) && d + dst !in a.nodes
    ensures Walk(b, d, dst, MAX_LINKS) == Some(d + dst)
  {
    hide Walk;
    TookPlain(d, dst, a, b);
    var up := dst[..|dst| - 1];
    forall k | 0 <= k <= |up| ensures b.Searchable(d + up[..k]) {
      assert a.Searchable(d + up[..k]);
    }
    PlainFinal(b, d, dst);
  }

  lemma ChmodCalm(fs: Fs, d: Path, dst: Path, mode: Perm)
    requires fs.faults == [] && Walk(fs, d, dst, MAX_LINKS) == Some(d + dst)
    requires d + dst in fs.nodes && fs.nodes[d + dst].File? && fs.nodes[d + dst].ino in fs.inodes
    ensures var (fs', ok) := Chmod(fs, d, dst, mode);
            ok && fs'.faults == [] && Chtimes(fs', d, dst).1 && Chtimes(fs', d, dst).0 == fs'
  {
    hide Walk;
    WalkSame(fs, Chmod(fs, d, dst, mode).0, d, dst, MAX_LINKS);
  }

  /** A file that is there is opened to be written. */
  lemma RegOpens(r: Run, d: Path, dst: Path, mode: Perm, content: Bytes)
    requires Calm(r.fs, d, dst) && Overwritable(r.fs, d, dst)
    ensures var i, r' := r.fs.nodes[d + dst].ino, ExtractReg(r, d, dst, mode, content);
            i in r'.fs.inodes && r.fs.inodes[i].opens < r'.fs.inodes[i].opens
  {
    OpenCalm(r.fs, d, dst, mode);
    hide OpenTrunc, WriteAll, Chmod, Walk, AllSearchable, AllNormal;
    var (fs1, ino) := OpenTrunc(r.fs, d, dst, mode);
    WriteAges(fs1, ino.value, content);
    ChmodAges(WriteAll(fs1, ino.value, content).0, d, dst, mode);
  }

  lemma OpenCalm(fs: Fs, d: Path, dst: Path, mode: Perm)
    requires Calm(fs, d, dst) && Overwritable(fs, d, dst)
    ensures var (fs', ino) := OpenTrunc(fs, d, dst, mode);
            && ino == Some(fs.nodes[d + dst].ino) && ino.value in fs'.inodes
            && fs.inodes[ino.value].opens < fs'.inodes[ino.value].opens
  {
    CalmLookup(fs, d, dst);
    hide Locate, AllSearchable, Plain, FreshIno;
  }

  lemma HardLinkOpens(r: Run, d: Path, src: Path, dst: Path, mode: Perm)
    requires Calm(r.fs, d, dst) && Overwritable(r.fs, d, dst) && Calm(r.fs, d, src) && Readable(r.fs, d + src)
    ensures var i, r' := r.fs.nodes[d + dst].ino, ExtractHardLink(r, d, src, dst, mode);
            i in r'.fs.inodes && r.fs.inodes[i].opens < r'.fs.inodes[i].opens
  {
    CalmLookup(r.fs, d, dst);
    CalmLookup(r.fs, d, src);
    OpenCalm(r.fs, d, dst, mode);
    hide Lookup, Slot, Locate, AllSearchable, NoLinks, AllNormal, OpenTrunc, WriteAll;
    assert FileSystem.HardLink(r.fs, d, src, dst) == (r.fs, false);
    var (fs1, ino) := OpenTrunc(r.fs, d, dst, mode);
    var from := r.fs.nodes[d + src].ino;
    OpenAges(r.fs, d, dst, mode);
    WriteAges(fs1, ino.value, fs1.inodes[from].content);
  }

  // ---------------------------------------------------------------------
  // The run
  // ---------------------------------------------------------------------

  lemma OpenGrows(a: Fs, d: Path, root: Name, hs: seq<Header>, k: nat, n: nat, t: Path)
    requires Open(a, d, root, hs, k, t) && k <= n <= |hs|
    ensures Open(a, d, root, hs, n, t)
  {
    hide CleanName;
    forall i | 0 <= i < |t| ensures Enterable(a, d, root, hs, n, t[..i]) {
      assert Enterable(a, d, root, hs, k, t[..i]);
    }
  }

  /** A run without faults up to header `n`. */
  ghost predicate CalmRun(a: Fs, j: Job, n: nat, r: Run, top: Name) {
    && n <= |j.hs| && Acceptable(j.hs) && Normal(j.root) && !r.failed && r.fs.faults == []
    && Good(j, n, r.fs, r.safe, r.dirs) && BelowTop(j.hs, top, n)
    && Bounded(a, j, n, r.fs, r.dirs, true)
    && PassesUpTo(a, j.d, top, j.root, j.hs, n)
  }

  /** Where the way is open by the archive's account it is open on the disk. */
  lemma CalmPlace(a: Fs, j: Job, n: nat, r: Run, top: Name, dst: Path)
    requires CalmRun(a, j, n, r, top) && dst != [] && dst[0] == j.root && AllNormal(dst)
    ensures Open(a, j.d, j.root, j.hs, n, dst) <==> Calm(r.fs, j.d, dst)
    ensures r.fs.Writable(Parent(j.d + dst)) <==> Growable(a, j.d, j.root, j.hs, n, dst[..|dst| - 1])
  {
    hide CleanName, Acceptable, Intact, Apart, Newcomers, PassesUpTo, BelowTop;
    OpenAfter(a, j, n, r.fs, dst, true);
    hide AllSearchable, Open, Growable;
  }

  /** The place a hard link's target was extracted to. */
  lemma SourceCalm(a: Fs, j: Job, n: nat, r: Run, top: Name)
    requires CalmRun(a, j, n, r, top) && n < |j.hs| && j.hs[n].flag.HardLink?
    ensures var src := LinkSource(j.root, j.hs[n].linkname);
            && Calm(r.fs, j.d, src) && j.d + src in r.fs.nodes && r.fs.nodes[j.d + src].File?
            && (OwnerRead in FileMode(j.hs, SourceIndex(j.hs, n)) ==> Readable(r.fs, j.d + src))
  {
    var k, src := SourceIndex(j.hs, n), LinkSource(j.root, j.hs[n].linkname);
    assert src == Target(j.root, j.hs[k]);
    assert Passes(a, j.d, top, j.root, j.hs, k);
    assert Open(a, j.d, j.root, j.hs, k, src);
    TargetPlace(j, j.hs[k]);
    SourceMade(a, j, n, r.fs, r.dirs, true);
    hide CleanName, Acceptable, Good, Bounded, FileMode, Open, PassesUpTo, Calm, BelowTop;
    OpenGrows(a, j.d, j.root, j.hs, k, n, src);
    CalmPlace(a, j, n, r, top, src);
  }

  lemma CalmTarget(a: Fs, j: Job, n: nat, r: Run, top: Name)
    requires CalmRun(a, j, n, r, top) && n < |j.hs| && Kept(j.hs[n]) && Inside(top, j.hs[n])
    ensures var dst := Target(j.root, j.hs[n]);
            && dst[0] == j.root && AllNormal(dst) && j.Base() <= j.d + dst && j.d + dst != []
            && (j.d + dst in a.nodes ==> SameAt(j.d + dst, a, r.fs))
            && (j.d + dst !in a.nodes ==> j.d + dst !in r.fs.nodes)
  {
    hide CleanName, Good, Acceptable, Passes, Newcomers;
    TargetPlace(j, j.hs[n]);
    NotDoneHere(j, top, n);
    assert [j.root] <= Target(j.root, j.hs[n]);
  }

  /** On an open way a kept header's step is placing its entry. */
  lemma StepPlaces(r: Run, d: Path, top: Name, root: Name, h: Header, force: bool) returns (safe: set<Path>)
    requires Kept(h) && Inside(top, h) && Calm(r.fs, d, Target(root, h))
    ensures Step(r, d, top, root, h, force) == Place(r.(safe := safe), d, root, Target(root, h), h, force)
  {
    var dst := Target(root, h);
    ParentsCalm(r.fs, r.safe, d, dst, 1);
    CalmFaults(r.fs, d, dst);
    ParentsIdle(r.fs, r.safe, d, dst, 1);
    hide CleanName, CheckParents, Calm, Place;
    safe := CheckParents(r.fs, r.safe, d, dst, 1).1;
  }

  /** A header that can be extracted is, and a hard link as one. */
  lemma StepCalm(a: Fs, j: Job, n: nat, r: Run, top: Name)
    requires CalmRun(a, j, n, r, top) && n < |j.hs| && Passes(a, j.d, top, j.root, j.hs, n)
    ensures var r' := Step(r, j.d, top, j.root, j.hs[n], false); !r'.failed && r'.fs.faults == []
    ensures Linkable(a, j, n, r.fs)
  {
    var h, d := j.hs[n], j.d;
    if Kept(h) {
      var dst := Target(j.root, h);
      CalmTarget(a, j, n, r, top);
      CalmPlace(a, j, n, r, top, dst);
      var safe := StepPlaces(r, d, top, j.root, h, false);
      var r1 := r.(safe := safe);
      if h.flag.HardLink? {
        SourceCalm(a, j, n, r, top);
      }
      hide CleanName, Step, CalmRun, Calm, Open, Growable, Acceptable, ExtractDir, ExtractReg, ExtractSymlink,
        ExtractHardLink, FileMode, FileSystem.HardLink;
      match h.flag {
        case Directory => DirCalm(r1, d, dst, h.mode);
        case Reg => RegCalm(r1, d, dst, h.mode, h.content);
        case SymLink => SymlinkCalm(r1, d, dst, h.linkname);
        case HardLink => HardLinkCalm(r1, d, LinkSource(j.root, h.linkname), dst, h.mode);
      }
    }
  }

  /** An exposed file is opened. */
  lemma StepBreaks(a: Fs, j: Job, n: nat, r: Run, top: Name)
    requires CalmRun(a, j, n, r, top) && n < |j.hs| && Overwrites(a, j.d, top, j.root, j.hs, n)
    ensures Broken(a, Step(r, j.d, top, j.root, j.hs[n], false).fs)
  {
    var h, d, dst := j.hs[n], j.d, Target(j.root, j.hs[n]);
    OldPlace(a, j, n, r, top);
    if h.flag.HardLink? {
      SourceCalm(a, j, n, r, top);
    }
    hide CalmRun, Calm, Acceptable, FileMode, AllSearchable;
    assert Overwritable(a, d, dst);
    OldInode(a, r.fs, d + dst);
    var safe := StepPlaces(r, d, top, j.root, h, false);
    hide *;
    PlaceOpens(r.(safe := safe), d, j.root, dst, h);
    IsBroken(a, Step(r, d, top, j.root, h, false).fs, a.nodes[d + dst].ino);
  }

  lemma IsBroken(a: Fs, b: Fs, i: nat)
    requires i in a.inodes && i in b.inodes && a.inodes[i].opens < b.inodes[i].opens
    ensures Broken(a, b)
  {
  }

  lemma PlaceOpens(r: Run, d: Path, root: Name, dst: Path, h: Header)
    requires (h.flag.Reg? || h.flag.HardLink?) && Calm(r.fs, d, dst) && Overwritable(r.fs, d, dst)
    requires h.flag.HardLink? ==> var src := LinkSource(root, h.linkname); Calm(r.fs, d, src) && Readable(r.fs, d + src)
    ensures var i, fs' := r.fs.nodes[d + dst].ino, Place(r, d, root, dst, h, false).fs;
            i in fs'.inodes && r.fs.inodes[i].opens < fs'.inodes[i].opens
  {
    hide CleanName, Calm, ExtractReg, ExtractHardLink, AllSearchable;
    if h.flag.Reg? {
      RegOpens(r, d, dst, h.mode, h.content);
    } else {
      HardLinkOpens(r, d, LinkSource(root, h.linkname), dst, h.mode);
    }
  }

  lemma OldInode(a: Fs, b: Fs, q: Path)
    requires Intact(a, b) && q in a.nodes && a.nodes[q].File? && a.nodes[q].ino in a.inodes
    ensures q in b.nodes && b.nodes[q] == a.nodes[q]
    ensures b.nodes[q].ino in b.inodes && b.inodes[b.nodes[q].ino] == a.inodes[a.nodes[q].ino]
  {
    assert SameAt(q, a, b);
  }

  lemma OldPlace(a: Fs, j: Job, n: nat, r: Run, top: Name)
    requires CalmRun(a, j, n, r, top) && n < |j.hs| && Overwrites(a, j.d, top, j.root, j.hs, n)
    ensures Calm(r.fs, j.d, Target(j.root, j.hs[n])) && Overwritable(r.fs, j.d, Target(j.root, j.hs[n]))
    ensures Intact(a, r.fs)
  {
    var d, dst := j.d, Target(j.root, j.hs[n]);
    TargetPlace(j, j.hs[n]);
    hide CleanName, Acceptable, FileMode, PassesUpTo, BelowTop, Tracks, Newcomers;
    OldInode(a, r.fs, d + dst);
    var up := dst[..|dst| - 1];
    forall k | 0 <= k <= |up| ensures r.fs.Searchable(d + up[..k]) {
      assert a.Searchable(d + up[..k]);
      assert SameAt(d + up[..k], a, r.fs);
    }
  }

  // ---------------------------------------------------------------------
  // The waiting modes
  // ---------------------------------------------------------------------

  /** Every waiting directory is there and can be got to, and none lies above one
      that came before it. */
  ghost predicate Climbing(fs: Fs, d: Path, dirs: seq<DirMode>) {
    && (forall i :: 0 <= i < |dirs| ==>
          dirs[i].path != [] && AllNormal(dirs[i].path) && fs.IsDir(d + dirs[i].path)
          && AllSearchable(fs, d, dirs[i].path[..|dirs[i].path| - 1]))
    && (forall i, k :: 0 <= i < k < |dirs| ==> !(dirs[k].path < dirs[i].path))
  }

  lemma ClimbingStays(a: Fs, b: Fs, d: Path, dirs: seq<DirMode>)
    requires Climbing(a, d, dirs)
    requires forall p :: p in a.nodes ==> SameAt(p, a, b)
    ensures Climbing(b, d, dirs)
  {
    forall i | 0 <= i < |dirs|
      ensures b.IsDir(d + dirs[i].path) && AllSearchable(b, d, dirs[i].path[..|dirs[i].path| - 1])
    {
      assert SameAt(d + dirs[i].path, a, b);
      var up := dirs[i].path[..|dirs[i].path| - 1];
      forall k | 0 <= k <= |up| ensures b.Searchable(d + up[..k]) {
        assert a.Searchable(d + up[..k]);
        assert SameAt(d + up[..k], a, b);
      }
    }
  }

  lemma ClimbingAdds(a: Fs, b: Fs, d: Path, dirs: seq<DirMode>, e: DirMode)
    requires Climbing(a, d, dirs) && a.WellFormed() && (forall p :: p in a.nodes ==> SameAt(p, a, b))
    requires e.path != [] && AllNormal(e.path) && d + e.path !in a.nodes && b.IsDir(d + e.path)
    requires AllSearchable(a, d, e.path[..|e.path| - 1])
    ensures Climbing(b, d, dirs + [e])
  {
    forall i | 0 <= i < |dirs| ensures !(e.path < dirs[i].path) {
      assert a.IsDir(d + dirs[i].path);
      NotAboveThere(a, d, e.path, dirs[i].path);
    }
    ClimbingStays(a, b, d, dirs);
    SearchableStays(a, b, d, e.path[..|e.path| - 1]);
    hide AllSearchable, AllNormal, Fs.WellFormed, Fs.IsDir;
  }

  lemma SearchableStays(a: Fs, b: Fs, d: Path, up: Path)
    requires AllSearchable(a, d, up) && (forall p :: p in a.nodes ==> SameAt(p, a, b))
    ensures AllSearchable(b, d, up)
  {
    forall k | 0 <= k <= |up| ensures b.Searchable(d + up[..k]) {
      assert a.Searchable(d + up[..k]);
      assert SameAt(d + up[..k], a, b);
    }
  }

  /** What is not there has nothing below it. */
  lemma NotAboveThere(a: Fs, d: Path, e: Path, p: Path)
    requires a.WellFormed() && d + e !in a.nodes && d + p in a.nodes
    ensures !(e < p)
  {
    if e < p {
      assert p[..|e|] == e;
      AboveIsDir(a, d, p, |e|);
    }
  }

  lemma ChmodOneCalm(fs: Fs, d: Path, dirs: seq<DirMode>)
    requires fs.faults == [] && Climbing(fs, d, dirs) && dirs != []
    ensures var e := dirs[|dirs| - 1];
            var (fs', ok) := Chmod(fs, d, e.path, e.mode);
            ok && fs'.faults == [] && Climbing(fs', d, dirs[..|dirs| - 1])
  {
    hide Walk;
    var e, rest := dirs[|dirs| - 1], dirs[..|dirs| - 1];
    OpenHasNoLinks(fs, d, e.path[..|e.path| - 1]);
    PlainFinal(fs, d, e.path);
    var fs' := Chmod(fs, d, e.path, e.mode).0;
    assert fs'.nodes == fs.nodes[d + e.path := Dir(e.mode)];
    hide Chmod;
    forall i | 0 <= i < |rest|
      ensures fs'.IsDir(d + rest[i].path) && AllSearchable(fs', d, rest[i].path[..|rest[i].path| - 1])
    {
      assert rest[i] == dirs[i];
      var p, up := rest[i].path, rest[i].path[..|rest[i].path| - 1];
      forall k | 0 <= k <= |up| ensures fs'.Searchable(d + up[..k]) {
        assert fs.Searchable(d + up[..k]);
        NotAbove(d, e.path, p, k);
      }
    }
  }

  lemma NotAbove(d: Path, e: Path, p: Path, k: nat)
    requires !(e < p) && p != [] && k <= |p| - 1
    ensures d + p[..|p| - 1][..k] != d + e
  {
    var q := p[..|p| - 1][..k];
    assert q == p[..k];
    assert (d + q)[|d|..] == q && (d + e)[|d|..] == e;
  }

  lemma {:induction false} ChmodDirsCalm(fs: Fs, d: Path, dirs: seq<DirMode>)
    requires fs.faults == [] && Climbing(fs, d, dirs)
    ensures var (fs', ok) := ChmodDirs(fs, d, dirs); ok && fs'.faults == []
    decreases |dirs|
  {
    hide Chmod, Climbing;
    if dirs != [] {
      ChmodOneCalm(fs, d, dirs);
      var e := dirs[|dirs| - 1];
      ChmodDirsCalm(Chmod(fs, d, e.path, e.mode).0, d, dirs[..|dirs| - 1]);
    }
  }

  // ---------------------------------------------------------------------
  // All headers
  // ---------------------------------------------------------------------

  lemma PassesMore(a: Fs, d: Path, top: Name, root: Name, hs: seq<Header>, n: nat)
    requires n < |hs| && PassesUpTo(a, d, top, root, hs, n) && Passes(a, d, top, root, hs, n)
    ensures PassesUpTo(a, d, top, root, hs, n + 1)
    ensures Kept(hs[n]) ==> CleanName(hs[n].name).Some?
  {
    hide CleanName, Open, Growable;
  }

  /** One more header of a run without faults. */
  lemma CalmRunNext(a: Fs, j: Job, n: nat, r: Run, top: Name)
    requires CalmRun(a, j, n, r, top) && n < |j.hs| && Climbing(r.fs, j.d, r.dirs)
    requires Passes(a, j.d, top, j.root, j.hs, n) && !Overwrites(a, j.d, top, j.root, j.hs, n)
    ensures var r' := Step(r, j.d, top, j.root, j.hs[n], false);
            CalmRun(a, j, n + 1, r', top) && Climbing(r'.fs, j.d, r'.dirs)
  {
    hide Step, Good, Bounded, Passes, PassesUpTo, Overwrites, CleanName, Acceptable, Climbing, BelowTop, Linkable, Extends,
      Normal, Spared, Fs.WellFormed, StepShape, Target;
    StepCalm(a, j, n, r, top);
    StepKeeps(j, n, r, top, false);
    StepTracks(a, j, n, r, top, true);
    PassesMore(a, j.d, top, j.root, j.hs, n);
    StepClimbs(a, j, n, r, top);
  }

  lemma StepClimbs(a: Fs, j: Job, n: nat, r: Run, top: Name)
    requires n < |j.hs| && Climbing(r.fs, j.d, r.dirs) && Good(j, n, r.fs, r.safe, r.dirs) && Normal(j.root)
    requires Kept(j.hs[n]) ==> CleanName(j.hs[n].name).Some?
    requires var r' := Step(r, j.d, top, j.root, j.hs[n], false);
             if Kept(j.hs[n]) then Extends(j, Target(j.root, j.hs[n]), r, r') else r'.fs == r.fs && r'.dirs == r.dirs
    ensures var r' := Step(r, j.d, top, j.root, j.hs[n], false); Climbing(r'.fs, j.d, r'.dirs)
  {
    hide Step, CleanName, Climbing, Extends, Fs.WellFormed, Confined;
    assert r.fs.WellFormed();
    hide Good;
    if Kept(j.hs[n]) {
      TargetPlace(j, j.hs[n]);
      ExtendsClimbs(j, Target(j.root, j.hs[n]), r, Step(r, j.d, top, j.root, j.hs[n], false));
    }
  }

  lemma ExtendsClimbs(j: Job, dst: Path, r: Run, r': Run)
    requires dst != [] && AllNormal(dst) && Extends(j, dst, r, r') && Climbing(r.fs, j.d, r.dirs) && r.fs.WellFormed()
    ensures Climbing(r'.fs, j.d, r'.dirs)
  {
    ClimbingStays(r.fs, r'.fs, j.d, r.dirs);
    if r'.dirs != r.dirs {
      ClimbingAdds(r.fs, r'.fs, j.d, r.dirs, r'.dirs[|r'.dirs| - 1]);
    }
  }

  lemma NotBoth(a: Fs, d: Path, top: Name, root: Name, hs: seq<Header>, n: nat)
    requires n < |hs| && Acceptable(hs) && Overwrites(a, d, top, root, hs, n)
    ensures !Passes(a, d, top, root, hs, n)
  {
    hide CleanName, Acceptable;
  }

  /** Some header from `n` on overwrites a file, and all before it pass. */
  ghost predicate ExposesFrom(a: Fs, j: Job, top: Name, n: nat)
    requires Acceptable(j.hs)
  {
    exists m :: n <= m < |j.hs| && Overwrites(a, j.d, top, j.root, j.hs, m) && PassesUpTo(a, j.d, top, j.root, j.hs, m)
  }

  lemma {:induction false} StepsCalm(a: Fs, j: Job, n: nat, r: Run, top: Name)
    requires CalmRun(a, j, n, r, top) && Climbing(r.fs, j.d, r.dirs)
    ensures var r' := Steps(r, j.d, top, j.root, j.hs[n..], false);
            && (ExposesFrom(a, j, top, n) ==> Broken(a, r'.fs))
            && (PassesUpTo(a, j.d, top, j.root, j.hs, |j.hs|) ==>
                  !r'.failed && r'.fs.faults == [] && Climbing(r'.fs, j.d, r'.dirs))
    decreases |j.hs| - n
  {
    hide Step, CalmRun, Passes, Overwrites, Climbing, Acceptable, Broken;
    if n < |j.hs| {
      CalmRunning(a, j, n, r, top);
      var h, rest := j.hs[n], j.hs[n + 1..];
      var r' := Step(r, j.d, top, j.root, h, false);
      assert j.hs[n..][1..] == rest && j.hs[n..][0] == h;
      if Overwrites(a, j.d, top, j.root, j.hs, n) {
        StepBreaks(a, j, n, r, top);
        NotBoth(a, j.d, top, j.root, j.hs, n);
        StepsAge(r', j.d, top, j.root, rest);
        BrokenStays(a, r'.fs, Steps(r', j.d, top, j.root, rest, false).fs);
      } else if Passes(a, j.d, top, j.root, j.hs, n) {
        CalmRunNext(a, j, n, r, top);
        StepsCalm(a, j, n + 1, r', top);
      }
    } else {
      CalmRunning(a, j, n, r, top);
    }
  }

  lemma CalmRunning(a: Fs, j: Job, n: nat, r: Run, top: Name)
    requires CalmRun(a, j, n, r, top)
    ensures n <= |j.hs| && Acceptable(j.hs) && !r.failed && r.fs.faults == []
  {
  }
}
