/** Which file of a disk an extraction without force can open to be written: said
    of the disk and the archive alone, and shown to bound every run. */
module Overwriting {
  import opened Wrappers
  import opened FileSystem
  import opened Archive
  import opened Extract
  import opened ExtractSafety
  import opened NoClobber

  // ---------------------------------------------------------------------
  // Said of the disk and the archive
  // ---------------------------------------------------------------------

  /** One of the first `n` headers names `p` as a directory, which is not there
      yet. Paths start with the root's name and are relative to `d`. */
  ghost predicate DirMade(a: Fs, d: Path, root: Name, hs: seq<Header>, n: nat, p: Path) {
    d + p !in a.nodes
    && exists k :: 0 <= k < n <= |hs| && hs[k].flag.Directory? && CleanName(hs[k].name).Some? && Target(root, hs[k]) == p
  }

  /** After `n` headers a directory stands at `p` that lets lookups through. */
  ghost predicate Enterable(a: Fs, d: Path, root: Name, hs: seq<Header>, n: nat, p: Path) {
    a.Searchable(d + p) || (DirMade(a, d, root, hs, n, p) && OwnerExec !in a.umask)
  }

  /** ... and lets entries be made. */
  ghost predicate Growable(a: Fs, d: Path, root: Name, hs: seq<Header>, n: nat, p: Path) {
    a.Writable(d + p) || (DirMade(a, d, root, hs, n, p) && OwnerExec !in a.umask && OwnerWrite !in a.umask)
  }

  /** Every directory above `t` lets a lookup through. */
  ghost predicate Open(a: Fs, d: Path, root: Name, hs: seq<Header>, n: nat, t: Path) {
    forall k :: 0 <= k < |t| ==> Enterable(a, d, root, hs, n, t[..k])
  }

  /** Header `n` names something below `top`. */
  predicate Inside(top: Name, h: Header) { CleanName(h.name).Some? && CleanName(h.name).value[0] == top }

  /** Header `n` can be extracted after those before it: to a new place in a
      directory that takes it, or, for a directory, where something stands that
      is no link. */
  ghost predicate Passes(a: Fs, d: Path, top: Name, root: Name, hs: seq<Header>, n: nat)
    requires n < |hs|
  {
    var h := hs[n];
    h.flag.GlobalHeader?
    || (Inside(top, h)
        && (Kept(h) ==>
              var t := Target(root, h);
              && Open(a, d, root, hs, n, t)
              && (if d + t in a.nodes then h.flag.Directory? && !a.nodes[d + t].Link?
                  else Growable(a, d, root, hs, n, t[..|t| - 1]))))
  }

  /** The mode header `k`'s file has: a hard link has its target's. */
  ghost function FileMode(hs: seq<Header>, k: nat): Perm
    requires k < |hs| && Acceptable(hs) && (hs[k].flag.Reg? || hs[k].flag.HardLink?)
    decreases k
  {
    if hs[k].flag.Reg? then hs[k].mode else FileMode(hs, SourceIndex(hs, k))
  }

  /** Header `n` names a file that is there and that its owner may write; a hard
      link, one whose target can be read as well. */
  ghost predicate Overwrites(a: Fs, d: Path, top: Name, root: Name, hs: seq<Header>, n: nat)
    requires n < |hs| && Acceptable(hs)
  {
    var h := hs[n];
    && (h.flag.Reg? || h.flag.HardLink?) && Inside(top, h)
    && Overwritable(a, d, Target(root, h))
    && (h.flag.HardLink? ==> OwnerRead in FileMode(hs, SourceIndex(hs, n)))
  }

  ghost predicate PassesUpTo(a: Fs, d: Path, top: Name, root: Name, hs: seq<Header>, n: nat) {
    forall m :: 0 <= m < n <= |hs| ==> Passes(a, d, top, root, hs, m)
  }

  /** Some header overwrites a file, and all before it can be extracted. */
  ghost predicate Exposes(a: Fs, d: Path, top: Name, root: Name, hs: seq<Header>)
    requires Acceptable(hs)
  {
    exists n :: 0 <= n < |hs| && Overwrites(a, d, top, root, hs, n) && PassesUpTo(a, d, top, root, hs, n)
  }

  // ---------------------------------------------------------------------
  // The disk after `n` headers
  // ---------------------------------------------------------------------

  /** What header `k` put at `q`. With `quiet`, no call failed so far. */
  ghost predicate Made(hs: seq<Header>, k: nat, fs: Fs, q: Path, quiet: bool)
    requires k < |hs| && Acceptable(hs)
  {
    q in fs.nodes &&
    match hs[k].flag
    case Directory => fs.nodes[q] == Dir(hs[k].mode + OWNER_ALL - fs.umask)
    case SymLink => fs.nodes[q].Link?
    case Reg => MadeFile(hs, k, fs, q, quiet)
    case HardLink => MadeFile(hs, k, fs, q, quiet)
    case _ => true
  }

  ghost predicate MadeFile(hs: seq<Header>, k: nat, fs: Fs, q: Path, quiet: bool)
    requires k < |hs| && Acceptable(hs) && (hs[k].flag.Reg? || hs[k].flag.HardLink?)
  {
    && q in fs.nodes && fs.nodes[q].File?
    && (Readable(fs, q) ==> OwnerRead in FileMode(hs, k))
    && (quiet && OwnerRead in FileMode(hs, k) ==> Readable(fs, q))
  }

  /** Below the root stands what stood there and what the first `n` headers made. */
  ghost predicate Tracks(a: Fs, j: Job, n: nat, fs: Fs, quiet: bool)
    requires Acceptable(j.hs)
  {
    && fs.umask == a.umask
    && (forall p :: j.d + p in fs.nodes && [j.root] <= p ==> j.d + p in a.nodes || Done(j.root, j.hs, n, p))
    && (forall k :: 0 <= k < n <= |j.hs| && Kept(j.hs[k]) && CleanName(j.hs[k].name).Some?
                    && j.d + Target(j.root, j.hs[k]) !in a.nodes ==>
          Made(j.hs, k, fs, j.d + Target(j.root, j.hs[k]), quiet))
  }

  lemma TracksSame(a: Fs, j: Job, n: nat, fs: Fs, fs': Fs, quiet: bool)
    requires Acceptable(j.hs) && Tracks(a, j, n, fs, quiet) && SameStore(fs, fs') && fs'.umask == fs.umask
    ensures Tracks(a, j, n, fs', quiet)
  {
    hide CleanName, Acceptable;
  }

  /** A header that makes nothing new. */
  lemma TracksSkip(a: Fs, j: Job, n: nat, fs: Fs, quiet: bool)
    requires Acceptable(j.hs) && Tracks(a, j, n, fs, quiet) && n < |j.hs|
    requires Kept(j.hs[n]) && CleanName(j.hs[n].name).Some? ==> j.d + Target(j.root, j.hs[n]) in a.nodes
    ensures Tracks(a, j, n + 1, fs, quiet)
  {
    hide CleanName, Acceptable, Made;
    forall p | Done(j.root, j.hs, n, p) ensures Done(j.root, j.hs, n + 1, p) {
      DoneMore(j.root, j.hs, n, p);
    }
  }

  /** A header that makes something where nothing was. */
  lemma TracksAdd(a: Fs, j: Job, n: nat, fs: Fs, fs': Fs, dst: Path, quiet: bool)
    requires Acceptable(j.hs) && Tracks(a, j, n, fs, quiet) && Next(j, n, dst)
    requires j.d + dst !in fs.nodes && j.d + dst in fs'.nodes
    requires fs'.nodes == fs.nodes[j.d + dst := fs'.nodes[j.d + dst]]
    requires OldInodes(fs, fs') && fs'.umask == fs.umask && Made(j.hs, n, fs', j.d + dst, quiet) && fs.WellFormed()
    ensures Tracks(a, j, n + 1, fs', quiet)
  {
    hide CleanName, Acceptable;
    NextDone(j, n, dst);
    forall p | j.d + p in fs'.nodes && [j.root] <= p ensures j.d + p in a.nodes || Done(j.root, j.hs, n + 1, p) {
      if j.d + p == j.d + dst {
        assert (j.d + p)[|j.d|..] == p && (j.d + dst)[|j.d|..] == dst;
      } else if j.d + p !in a.nodes {
        DoneMore(j.root, j.hs, n, p);
      }
    }
    forall k | 0 <= k < n + 1 <= |j.hs| && Kept(j.hs[k]) && CleanName(j.hs[k].name).Some?
               && j.d + Target(j.root, j.hs[k]) !in a.nodes
      ensures Made(j.hs, k, fs', j.d + Target(j.root, j.hs[k]), quiet)
    {
      if k < n {
        assert Made(j.hs, k, fs, j.d + Target(j.root, j.hs[k]), quiet);
        MadeStays(j.hs, k, fs, fs', j.d + dst, j.d + Target(j.root, j.hs[k]), quiet);
      }
    }
  }

  lemma MadeStays(hs: seq<Header>, k: nat, fs: Fs, fs': Fs, q: Path, at: Path, quiet: bool)
    requires k < |hs| && Acceptable(hs) && Made(hs, k, fs, at, quiet) && q !in fs.nodes && fs.WellFormed()
    requires q in fs'.nodes && fs'.nodes == fs.nodes[q := fs'.nodes[q]] && OldInodes(fs, fs') && fs'.umask == fs.umask
    ensures Made(hs, k, fs', at, quiet)
  {
    hide Acceptable, FileMode;
  }

  /** Lookups now see what Enterable and Growable say. */
  lemma DirsAfter(a: Fs, j: Job, n: nat, fs: Fs, p: Path, quiet: bool)
    requires Acceptable(j.hs) && Tracks(a, j, n, fs, quiet) && Intact(a, fs) && n <= |j.hs|
    requires p == [] || [j.root] <= p
    requires a.IsDir(j.d)
    ensures fs.Searchable(j.d + p) <==> Enterable(a, j.d, j.root, j.hs, n, p)
    ensures fs.Writable(j.d + p) <==> Growable(a, j.d, j.root, j.hs, n, p)
  {
    hide CleanName, Acceptable, FileMode;
    assert j.d + [] == j.d;
    if j.d + p in a.nodes {
      assert SameAt(j.d + p, a, fs);
    } else if DirMade(a, j.d, j.root, j.hs, n, p) {
      var k :| 0 <= k < n <= |j.hs| && j.hs[k].flag.Directory? && CleanName(j.hs[k].name).Some?
               && Target(j.root, j.hs[k]) == p;
      assert Made(j.hs, k, fs, j.d + p, quiet);
    } else if j.d + p in fs.nodes {
      assert p != [];
      var k :| 0 <= k < n <= |j.hs| && Kept(j.hs[k]) && CleanName(j.hs[k].name).Some? && Target(j.root, j.hs[k]) == p;
      assert Made(j.hs, k, fs, j.d + p, quiet);
    }
  }

  lemma OpenAfter(a: Fs, j: Job, n: nat, fs: Fs, t: Path, quiet: bool)
    requires Acceptable(j.hs) && Tracks(a, j, n, fs, quiet) && Intact(a, fs) && n <= |j.hs| && a.IsDir(j.d)
    requires t != [] && t[0] == j.root
    ensures AllSearchable(fs, j.d, t[..|t| - 1]) <==> Open(a, j.d, j.root, j.hs, n, t)
    ensures fs.Writable(Parent(j.d + t)) <==> Growable(a, j.d, j.root, j.hs, n, t[..|t| - 1])
  {
    hide CleanName, Acceptable, Tracks, Enterable, Growable, Intact, Fs.Searchable, Fs.Writable;
    var up := t[..|t| - 1];
    assert Parent(j.d + t) == j.d + up;
    forall k | 0 <= k <= |up|
      ensures up[..k] == t[..k]
      ensures fs.Searchable(j.d + t[..k]) <==> Enterable(a, j.d, j.root, j.hs, n, t[..k])
    {
      DirsAfter(a, j, n, fs, t[..k], quiet);
    }
    assert up[..|up|] == up;
    DirsAfter(a, j, n, fs, up, quiet);
  }

  // ---------------------------------------------------------------------
  // One entry put where nothing was, whatever calls fail
  // ---------------------------------------------------------------------

  /** The entry was made: in a directory that takes it, and nothing else. */
  ghost predicate Took(d: Path, dst: Path, a: Fs, b: Fs)
    requires dst != []
  {
    && AllSearchable(a, d, dst[..|dst| - 1]) && a.Writable(Parent(d + dst))
    && d + dst in b.nodes && b.nodes == a.nodes[d + dst := b.nodes[d + dst]]
    && OldInodes(a, b) && b.umask == a.umask
  }

  lemma SlotTook(fs: Fs, d: Path, dst: Path)
    requires Plain(fs, d, dst)
    ensures Slot(fs, d, dst).Some? ==>
              Slot(fs, d, dst).value == d + dst && AllSearchable(fs, d, dst[..|dst| - 1]) && fs.Writable(Parent(d + dst))
    ensures Locate(fs, d, dst).Some? ==>
              Locate(fs, d, dst).value == d + dst && AllSearchable(fs, d, dst[..|dst| - 1])
  {
    hide Walk, Locate;
    LocatePlain(fs, d, dst);
  }

  lemma MkdirTook(fs: Fs, d: Path, dst: Path, mode: Perm)
    requires Plain(fs, d, dst) && d + dst !in fs.nodes
    ensures var (fs', ok) := Mkdir(fs, d, dst, mode);
            ok ==> Took(d, dst, fs, fs') && fs'.nodes[d + dst] == Dir(mode - fs.umask)
  {
    SlotTook(fs, d, dst);
    hide Slot, Plain, AllSearchable;
  }

  lemma DirTook(r: Run, d: Path, dst: Path, mode: Perm)
    requires Plain(r.fs, d, dst) && d + dst !in r.fs.nodes && r.fs.WellFormed()
    ensures var r' := ExtractDir(r, d, dst, mode);
            || r'.failed
            || (&& Took(d, dst, r.fs, r'.fs) && r'.fs.nodes[d + dst] == Dir(mode + OWNER_ALL - r.fs.umask)
                && r'.dirs == r.dirs + [DirMode(dst, mode)])
  {
    LookupPlain(r.fs, d, dst);
    Ticks(r.fs, d, dst);
    var fs := Lstat(r.fs, d, dst).0;
    MkdirTook(fs, d, dst, mode + OWNER_ALL);
    hide Lookup, Mkdir, AllNormal, NoLinks, AllSearchable, Took, Fs.WellFormed;
    TookTick(d, dst, r.fs, fs, Mkdir(fs, d, dst, mode + OWNER_ALL).0);
  }

  lemma TookTick(d: Path, dst: Path, a: Fs, b: Fs, c: Fs)
    requires dst != [] && SameStore(a, b) && b.umask == a.umask
    ensures Took(d, dst, b, c) ==> Took(d, dst, a, c)
  {
    assert forall p :: a.Searchable(p) <==> b.Searchable(p);
  }

  lemma SymlinkTook(fs: Fs, d: Path, dst: Path, target: string)
    requires Plain(fs, d, dst) && d + dst !in fs.nodes
    ensures var (fs', ok) := Symlink(fs, d, dst, target); ok ==> Took(d, dst, fs, fs') && fs'.nodes[d + dst] == Link(target)
  {
    SlotTook(fs, d, dst);
    hide Slot, Plain, AllSearchable;
  }

  /** A new file: its inode is new. */
  ghost predicate TookFile(d: Path, dst: Path, a: Fs, b: Fs)
    requires dst != []
  {
    && Took(d, dst, a, b) && b.nodes[d + dst].File?
    && b.nodes[d + dst].ino in b.inodes && b.nodes[d + dst].ino !in a.inodes
  }

  lemma OpenTook(fs: Fs, d: Path, dst: Path, mode: Perm)
    requires Plain(fs, d, dst) && d + dst !in fs.nodes
    ensures var (fs', ino) := OpenTrunc(fs, d, dst, mode);
            ino.Some? ==> TookFile(d, dst, fs, fs') && fs'.nodes[d + dst] == File(ino.value)
  {
    SlotTook(fs, d, dst);
    hide Locate, Plain, AllSearchable, FreshIno;
  }

  lemma WriteTook(d: Path, dst: Path, a: Fs, b: Fs, content: Bytes)
    requires dst != [] && TookFile(d, dst, a, b)
    ensures var fs' := WriteAll(b, b.nodes[d + dst].ino, content).0;
            TookFile(d, dst, a, fs') && fs'.nodes == b.nodes
  {
    hide AllSearchable;
  }

  lemma ChmodTook(d: Path, dst: Path, a: Fs, b: Fs, mode: Perm)
    requires dst != [] && TookFile(d, dst, a, b) && Plain(b, d, dst)
    ensures var (fs', ok) := Chmod(b, d, dst, mode);
            ok ==> TookFile(d, dst, a, fs') && fs'.inodes[fs'.nodes[d + dst].ino].mode == mode
  {
    hide Walk, AllSearchable;
    PlainFinal(b, d, dst);
    hide Plain;
  }

  lemma RegTook(r: Run, d: Path, dst: Path, mode: Perm, content: Bytes)
    requires Plain(r.fs, d, dst) && d + dst !in r.fs.nodes && r.fs.WellFormed() && d + dst != []
    ensures var r' := ExtractReg(r, d, dst, mode, content);
            r'.failed || (TookFile(d, dst, r.fs, r'.fs) && r'.fs.inodes[r'.fs.nodes[d + dst].ino].mode == mode)
  {
    hide OpenTrunc, WriteAll, Chmod, Walk, NoLinks, AllNormal, Took, Fs.WellFormed;
    OpenTook(r.fs, d, dst, mode);
    var (fs1, ino) := OpenTrunc(r.fs, d, dst, mode);
    if ino.Some? {
      WriteTook(d, dst, r.fs, fs1, content);
      var fs2 := WriteAll(fs1, ino.value, content).0;
      TookPlain(d, dst, r.fs, fs2);
      ChmodTook(d, dst, r.fs, fs2, mode);
      var (fs3, moded) := Chmod(fs2, d, dst, mode);
      if moded {
        TookStore(d, dst, r.fs, fs3, Chtimes(fs3, d, dst).0);
      }
    }
  }

  lemma TookPlain(d: Path, dst: Path, a: Fs, b: Fs)
    requires Plain(a, d, dst) && Took(d, dst, a, b)
    ensures Plain(b, d, dst)
  {
    PlainStays(a, b, d, dst);
  }

  lemma TookStore(d: Path, dst: Path, a: Fs, b: Fs, c: Fs)
    requires dst != [] && TookFile(d, dst, a, b) && SameStore(b, c) && c.umask == b.umask
    ensures TookFile(d, dst, a, c)
  {
    hide AllSearchable;
  }

  lemma TookFrom(d: Path, dst: Path, a: Fs, b: Fs, c: Fs)
    requires dst != [] && SameStore(a, b) && b.umask == a.umask && TookFile(d, dst, b, c)
    ensures TookFile(d, dst, a, c)
  {
    assert forall p :: a.Searchable(p) <==> b.Searchable(p);
  }

  lemma CopyTook(fs: Fs, d: Path, src: Path, dst: Path, mode: Perm)
    requires Plain(fs, d, dst) && d + dst !in fs.nodes && fs.WellFormed() && d + dst != []
    requires Plain(fs, d, src) && (d + src in fs.nodes ==> !fs.nodes[d + src].Link?)
    ensures var (fs', ok) := CopyFile(fs, d, src, dst, mode);
            ok ==> TookFile(d, dst, fs, fs') && Readable(fs, d + src)
  {
    LookupPlain(fs, d, src);
    hide OpenTrunc, WriteAll, Symlink, Lookup, AllNormal, NoLinks, Took, AllSearchable, Fs.WellFormed;
    var (fs1, node) := Lstat(fs, d, src);
    Ticks(fs, d, dst);
    Ticks(fs, d, src);
    if node.Some? {
      var (fs2, from) := OpenRead(fs1, d, src);
      Ticks(fs1, d, dst);
      if from.Some? {
        ReadsReadable(fs1, d, src);
        OpenTook(fs2, d, dst, mode);
        var (fs3, ino) := OpenTrunc(fs2, d, dst, mode);
        if ino.Some? && from.value in fs3.inodes {
          var content := fs3.inodes[from.value].content;
          WriteTook(d, dst, fs2, fs3, content);
          TookFrom(d, dst, fs, fs2, WriteAll(fs3, ino.value, content).0);
        }
      }
    }
  }

  lemma HardLinkTook(r: Run, d: Path, src: Path, dst: Path, mode: Perm)
    requires Plain(r.fs, d, dst) && d + dst !in r.fs.nodes && r.fs.WellFormed() && d + dst != []
    requires Plain(r.fs, d, src) && d + src in r.fs.nodes && r.fs.nodes[d + src].File? && !r.failed
    ensures var r' := ExtractHardLink(r, d, src, dst, mode);
            r'.dirs == r.dirs
    ensures var r' := ExtractHardLink(r, d, src, dst, mode);
            || r'.failed
            || (Took(d, dst, r.fs, r'.fs) && r'.fs.nodes[d + dst] == r.fs.nodes[d + src])
            || (!FileSystem.HardLink(r.fs, d, src, dst).1 && TookFile(d, dst, r.fs, r'.fs) && Readable(r.fs, d + src))
  {
    LookupPlain(r.fs, d, src);
    SlotTook(r.fs, d, dst);
    hide Lookup, Slot, AllSearchable, CopyFile, Fs.WellFormed, NoLinks, AllNormal;
    if !FileSystem.HardLink(r.fs, d, src, dst).1 {
      HardLinkTicks(r.fs, d, src, dst);
      Ticks(r.fs, d, dst);
      Ticks(r.fs, d, src);
      CopyTook(r.fs.Tick(), d, src, dst, mode);
      if CopyFile(r.fs.Tick(), d, src, dst, mode).1 {
        TookFrom(d, dst, r.fs, r.fs.Tick(), CopyFile(r.fs.Tick(), d, src, dst, mode).0);
      }
    }
  }

  // ---------------------------------------------------------------------
  // Every run
  // ---------------------------------------------------------------------

  /** The part of a run's invariant that speaks of the disk `a`. */
  ghost predicate Bounded(a: Fs, j: Job, n: nat, fs: Fs, dirs: seq<DirMode>, quiet: bool)
    requires Acceptable(j.hs)
  {
    && a.WellFormed() && a.IsDir(j.d)
    && Spared(a, fs) && Newcomers(a, j, n, dirs) && Tracks(a, j, n, fs, quiet)
  }

  /** The file hard link `n` names stands where its own header put it. */
  lemma SourceMade(a: Fs, j: Job, n: nat, fs: Fs, dirs: seq<DirMode>, quiet: bool)
    requires Acceptable(j.hs) && n < |j.hs| && j.hs[n].flag.HardLink? && Bounded(a, j, n, fs, dirs, quiet)
    ensures var src := LinkSource(j.root, j.hs[n].linkname);
            MadeFile(j.hs, SourceIndex(j.hs, n), fs, j.d + src, quiet) && j.d + src !in a.nodes
  {
    hide CleanName, Acceptable, FileMode, Spared;
    var k := SourceIndex(j.hs, n);
    assert Kept(j.hs[k]);
    assert LinkSource(j.root, j.hs[n].linkname) == Target(j.root, j.hs[k]);
    assert Made(j.hs, k, fs, j.d + Target(j.root, j.hs[k]), quiet);
  }

  lemma OpeningOverwrites(a: Fs, j: Job, n: nat, fs: Fs, dirs: seq<DirMode>, top: Name)
    requires Acceptable(j.hs) && n < |j.hs| && Inside(top, j.hs[n]) && Opening(a, j, n, fs)
    requires Bounded(a, j, n, fs, dirs, false)
    ensures Overwrites(a, j.d, top, j.root, j.hs, n)
  {
    if j.hs[n].flag.HardLink? {
      SourceMade(a, j, n, fs, dirs, false);
    }
    hide CleanName, Acceptable, FileMode, Tracks, Newcomers, Overwritable, Apart, Intact, Readable, Target;
    OverwritableThen(a, fs, j.d, Target(j.root, j.hs[n]));
  }

  lemma OverwritableThen(a: Fs, fs: Fs, d: Path, dst: Path)
    requires a.WellFormed() && Intact(a, fs) && dst != [] && d + dst in a.nodes && Overwritable(fs, d, dst)
    ensures Overwritable(a, d, dst)
  {
    assert SameAt(d + dst, a, fs);
    WayThen(a, fs, d, dst);
    hide AllSearchable;
  }

  lemma NoOpening(a: Fs, j: Job, n: nat, fs: Fs, dirs: seq<DirMode>, top: Name)
    requires Acceptable(j.hs) && n < |j.hs| && Inside(top, j.hs[n]) && Bounded(a, j, n, fs, dirs, false)
    requires !Overwrites(a, j.d, top, j.root, j.hs, n)
    ensures !Opening(a, j, n, fs)
  {
    hide Opening, Overwrites, Bounded, Inside, Acceptable;
    if Opening(a, j, n, fs) {
      OpeningOverwrites(a, j, n, fs, dirs, top);
    }
  }

  /** Merging into what is there. */
  lemma DirMerged(r: Run, d: Path, dst: Path, mode: Perm)
    requires Plain(r.fs, d, dst) && d + dst in r.fs.nodes && r.fs.WellFormed()
    ensures var r' := ExtractDir(r, d, dst, mode);
            || r'.failed
            || (r'.dirs == r.dirs && SameStore(r.fs, r'.fs) && r'.fs.umask == r.fs.umask && !r.fs.nodes[d + dst].Link?
                && AllSearchable(r.fs, d, dst[..|dst| - 1]))
  {
    SlotTook(r.fs, d, dst);
    Ticks(r.fs, d, dst);
    LookupPlain(r.fs, d, dst);
    SlotTook(r.fs.Tick(), d, dst);
    LookupSearchable(r.fs, d, dst);
    hide Lookup, Slot, Plain, AllSearchable, Locate;
  }

  lemma LookupSearchable(fs: Fs, d: Path, dst: Path)
    requires Plain(fs, d, dst)
    ensures Lookup(fs, d, dst).Some? ==> AllSearchable(fs, d, dst[..|dst| - 1])
  {
    SlotTook(fs, d, dst);
    hide Locate, AllSearchable;
  }

  /** A run and a place for header `n`, which nothing of the archive has filled. */
  ghost predicate Placing(a: Fs, j: Job, n: nat, r: Run, dst: Path, top: Name, quiet: bool) {
    && Acceptable(j.hs) && Normal(j.root) && !r.failed
    && Good(j, n, r.fs, r.safe, r.dirs) && PlaceOk(j, r.fs, dst) && Next(j, n, dst)
    && !Done(j.root, j.hs, n, dst) && Inside(top, j.hs[n])
    && Bounded(a, j, n, r.fs, r.dirs, quiet)
  }

  lemma PlacingFacts(a: Fs, j: Job, n: nat, r: Run, dst: Path, top: Name, quiet: bool)
    requires Placing(a, j, n, r, dst, top, quiet)
    ensures r.fs.WellFormed() && Plain(r.fs, j.d, dst) && j.d + dst != [] && dst[0] == j.root
    ensures j.d + dst !in a.nodes ==> j.d + dst !in r.fs.nodes
    ensures j.d + dst in a.nodes ==> SameAt(j.d + dst, a, r.fs)
    ensures AllSearchable(r.fs, j.d, dst[..|dst| - 1]) <==> Open(a, j.d, j.root, j.hs, n, dst)
    ensures r.fs.Writable(Parent(j.d + dst)) <==> Growable(a, j.d, j.root, j.hs, n, dst[..|dst| - 1])
  {
    hide CleanName, Acceptable;
    PlaceTree(j, n, r.fs, r.safe, r.dirs, dst);
    OpenAfter(a, j, n, r.fs, dst, quiet);
    assert [j.root] <= dst;
    hide Good, Open, Growable, AllSearchable, Plain, NoLinks;
  }

  /** What one step of a run does to the disk and to the waiting modes: nodes only
      come, and a mode waits for a directory that came just now. */
  ghost predicate Extends(j: Job, dst: Path, r: Run, r': Run)
    requires dst != []
  {
    && (forall p :: p in r.fs.nodes ==> SameAt(p, r.fs, r'.fs))
    && (|| r'.dirs == r.dirs
        || (&& |r'.dirs| > 0 && r'.dirs == r.dirs + [DirMode(dst, r'.dirs[|r'.dirs| - 1].mode)]
            && j.d + dst !in r.fs.nodes && r'.fs.IsDir(j.d + dst) && AllSearchable(r.fs, j.d, dst[..|dst| - 1])))
  }

  lemma PlaceMerges(a: Fs, j: Job, n: nat, r: Run, dst: Path, top: Name, quiet: bool)
    requires Placing(a, j, n, r, dst, top, quiet) && j.d + dst in a.nodes && !Opening(a, j, n, r.fs)
    ensures var r' := Place(r, j.d, j.root, dst, j.hs[n], false);
            || r'.failed
            || (Passes(a, j.d, top, j.root, j.hs, n) && Tracks(a, j, n + 1, r'.fs, quiet) && Extends(j, dst, r, r'))
  {
    PlaceSpares(a, j, n, r, dst);
    PlacingFacts(a, j, n, r, dst, top, quiet);
    var r' := Place(r, j.d, j.root, dst, j.hs[n], false);
    hide CleanName, Acceptable, Good, Opening, Open, Growable, AllSearchable, Plain, Tracks, Spared, Newcomers, Intact,
      ExtractReg, ExtractSymlink, ExtractHardLink, Lookup, Mkdir;
    if !r'.failed {
      DirMerged(r, j.d, dst, j.hs[n].mode);
      TracksSame(a, j, n, r.fs, r'.fs, quiet);
      TracksSkip(a, j, n, r'.fs, quiet);
    }
  }

  /** What a hard link leaves: another name of the target, or a readable copy. */
  lemma LinkMade(a: Fs, j: Job, n: nat, r: Run, fs': Fs, dst: Path, quiet: bool)
    requires Acceptable(j.hs) && n < |j.hs| && j.hs[n].flag.HardLink? && Bounded(a, j, n, r.fs, r.dirs, quiet)
    requires r.fs.WellFormed() && OldInodes(r.fs, fs') && j.d + dst in fs'.nodes
    requires var src := j.d + LinkSource(j.root, j.hs[n].linkname);
             && src in r.fs.nodes
             && (|| fs'.nodes[j.d + dst] == r.fs.nodes[src]
                 || (!quiet && fs'.nodes[j.d + dst].File? && Readable(r.fs, src)))
    ensures MadeFile(j.hs, n, fs', j.d + dst, quiet)
  {
    SourceMade(a, j, n, r.fs, r.dirs, quiet);
    hide CleanName, Acceptable, Tracks, Spared, Newcomers;
    assert FileMode(j.hs, n) == FileMode(j.hs, SourceIndex(j.hs, n));
    hide FileMode;
  }

  /** A place is filled by what its header says, or the call fails. */
  lemma PlaceMakes(a: Fs, j: Job, n: nat, r: Run, dst: Path, top: Name, quiet: bool)
    requires Placing(a, j, n, r, dst, top, quiet) && j.d + dst !in a.nodes && (quiet ==> Linkable(a, j, n, r.fs))
    ensures var r' := Place(r, j.d, j.root, dst, j.hs[n], false);
            || r'.failed
            || (&& Took(j.d, dst, r.fs, r'.fs) && Made(j.hs, n, r'.fs, j.d + dst, quiet)
                && (r'.dirs == r.dirs
                    || (r'.dirs == r.dirs + [DirMode(dst, j.hs[n].mode)] && r'.fs.IsDir(j.d + dst))))
  {
    PlacingFacts(a, j, n, r, dst, top, quiet);
    var h, d, r' := j.hs[n], j.d, Place(r, j.d, j.root, dst, j.hs[n], false);
    if h.flag.HardLink? {
      LinkSourcePlaced(j, n, r.fs, r.safe, r.dirs);
      SourceMade(a, j, n, r.fs, r.dirs, quiet);
    }
    hide CleanName, Acceptable, Good, Open, Growable, AllSearchable, NoLinks, AllNormal, Tracks, Spared, Newcomers,
      ExtractDir, ExtractReg, ExtractSymlink, ExtractHardLink, Fs.WellFormed, FileMode, Opening, Done, Inside;
    match h.flag {
      case Directory => DirTook(r, d, dst, h.mode);
      case Reg =>
        RegTook(r, d, dst, h.mode, h.content);
        RegMode(j.hs, n);
        RegKeepsDirs(r, d, dst, h.mode, h.content);
      case SymLink => LinkTook(r, d, dst, h.linkname);
      case HardLink =>
        HardLinkTook(r, d, LinkSource(j.root, h.linkname), dst, h.mode);
        if !r'.failed {
          LinkMade(a, j, n, r, r'.fs, dst, quiet);
        }
    }
  }

  lemma TookExtends(j: Job, dst: Path, r: Run, r': Run)
    requires dst != []
    ensures j.d + dst !in r.fs.nodes && Took(j.d, dst, r.fs, r'.fs)
            && (r'.dirs == r.dirs
                || (exists mode :: r'.dirs == r.dirs + [DirMode(dst, mode)] && r'.fs.IsDir(j.d + dst)))
            ==> Extends(j, dst, r, r')
  {
    hide AllSearchable;
  }

  lemma PlaceAdds(a: Fs, j: Job, n: nat, r: Run, dst: Path, top: Name, quiet: bool)
    requires Placing(a, j, n, r, dst, top, quiet) && j.d + dst !in a.nodes && (quiet ==> Linkable(a, j, n, r.fs))
    ensures var r' := Place(r, j.d, j.root, dst, j.hs[n], false);
            || r'.failed
            || (Passes(a, j.d, top, j.root, j.hs, n) && Tracks(a, j, n + 1, r'.fs, quiet) && Extends(j, dst, r, r'))
  {
    PlaceMakes(a, j, n, r, dst, top, quiet);
    PlacingFacts(a, j, n, r, dst, top, quiet);
    var r' := Place(r, j.d, j.root, dst, j.hs[n], false);
    TookExtends(j, dst, r, r');
    hide CleanName, Acceptable, Good, Open, Growable, AllSearchable, NoLinks, AllNormal, Tracks, Spared, Newcomers,
      Place, Fs.WellFormed, FileMode, Made, Opening, Done, Linkable, Extends, Target;
    if !r'.failed {
      TracksAdd(a, j, n, r.fs, r'.fs, dst, quiet);
    }
  }

  lemma RegKeepsDirs(r: Run, d: Path, dst: Path, mode: Perm, content: Bytes)
    requires dst != []
    ensures ExtractReg(r, d, dst, mode, content).dirs == r.dirs
  {
    hide OpenTrunc, WriteAll, Chmod, Walk;
  }

  /** Header `n`'s hard link, if it goes to a new place, can be made as one. */
  ghost predicate Linkable(a: Fs, j: Job, n: nat, fs: Fs)
    requires n < |j.hs|
  {
    var h := j.hs[n];
    h.flag.HardLink? && CleanName(h.name).Some? && j.d + Target(j.root, h) !in a.nodes ==>
      FileSystem.HardLink(fs, j.d, LinkSource(j.root, h.linkname), Target(j.root, h)).1
  }

  lemma LinkTook(r: Run, d: Path, dst: Path, target: string)
    requires Plain(r.fs, d, dst) && d + dst !in r.fs.nodes
    ensures var r' := ExtractSymlink(r, d, dst, target);
            r'.failed || (Took(d, dst, r.fs, r'.fs) && r'.fs.nodes[d + dst].Link? && r'.dirs == r.dirs)
  {
    hide Symlink, NoLinks, AllNormal, Took;
    SymlinkTook(r.fs, d, dst, target);
  }

  lemma RegMode(hs: seq<Header>, n: nat)
    requires n < |hs| && Acceptable(hs) && hs[n].flag.Reg?
    ensures FileMode(hs, n) == hs[n].mode
  {
  }

  lemma StepTracks(a: Fs, j: Job, n: nat, r: Run, top: Name, quiet: bool)
    requires Good(j, n, r.fs, r.safe, r.dirs) && BelowTop(j.hs, top, n) && !r.failed
    requires n < |j.hs| && Acceptable(j.hs) && Normal(j.root)
    requires Bounded(a, j, n, r.fs, r.dirs, quiet) && !Overwrites(a, j.d, top, j.root, j.hs, n)
    requires quiet ==> r.fs.faults == [] && Linkable(a, j, n, r.fs)
    ensures var r' := Step(r, j.d, top, j.root, j.hs[n], false);
            && Spared(a, r'.fs)
            && (!r'.failed ==> Passes(a, j.d, top, j.root, j.hs, n) && Bounded(a, j, n + 1, r'.fs, r'.dirs, quiet))
            && (!r'.failed && Kept(j.hs[n]) ==> Extends(j, Target(j.root, j.hs[n]), r, r'))
            && (!Kept(j.hs[n]) ==> r'.fs == r.fs && r'.dirs == r.dirs)
  {
    hide CleanName, CheckParents, Place, Good, PlaceOk, Acceptable, Opening, Spared, Overwrites, Tracks, Linkable;
    var h, r' := j.hs[n], Step(r, j.d, top, j.root, j.hs[n], false);
    if Inside(top, h) {
      Louder(a, j, n, r.fs, r.dirs, quiet);
      NoOpening(a, j, n, r.fs, r.dirs, top);
      StepSpares(a, j, n, r, top);
    }
    if Kept(h) && Inside(top, h) {
      TargetPlace(j, h);
      var dst := Target(j.root, h);
      ParentsKeep(j, n, r, dst);
      ParentsUmask(j, n, r, dst);
      ParentsIdle(r.fs, r.safe, j.d, dst, 1);
      var (fs, safe, ok) := CheckParents(r.fs, r.safe, j.d, dst, 1);
      if ok {
        var r1 := r.(fs := fs, safe := safe);
        SparedSame(a, r.fs, fs);
        TracksSame(a, j, n, r.fs, fs, quiet);
        OpeningSame(a, j, n, r.fs, fs);
        NotDoneHere(j, top, n);
        if j.d + dst in a.nodes {
          PlaceMerges(a, j, n, r1, dst, top, quiet);
        } else {
          PlaceAdds(a, j, n, r1, dst, top, quiet);
        }
        if !r'.failed {
          ExtendsFrom(j, dst, r, r1, r');
        }
      }
    } else if !Kept(h) {
      TracksSkip(a, j, n, r.fs, quiet);
    }
  }

  lemma ExtendsFrom(j: Job, dst: Path, r: Run, r1: Run, r': Run)
    requires dst != [] && r1.fs.nodes == r.fs.nodes && r1.dirs == r.dirs && Extends(j, dst, r1, r')
    ensures Extends(j, dst, r, r')
  {
    forall p | p in r.fs.nodes ensures SameAt(p, r.fs, r'.fs) {
      assert SameAt(p, r1.fs, r'.fs);
    }
    assert forall p :: r.fs.Searchable(p) <==> r1.fs.Searchable(p);
  }

  lemma Louder(a: Fs, j: Job, n: nat, fs: Fs, dirs: seq<DirMode>, quiet: bool)
    requires Acceptable(j.hs) && Bounded(a, j, n, fs, dirs, quiet)
    ensures Bounded(a, j, n, fs, dirs, false)
  {
    hide CleanName, Acceptable, Spared, Newcomers, FileMode, Readable;
    forall k | 0 <= k < n <= |j.hs| && Kept(j.hs[k]) && CleanName(j.hs[k].name).Some?
               && j.d + Target(j.root, j.hs[k]) !in a.nodes
      ensures Made(j.hs, k, fs, j.d + Target(j.root, j.hs[k]), false)
    {
      assert Made(j.hs, k, fs, j.d + Target(j.root, j.hs[k]), quiet);
    }
  }

  /** With no fault to come, looking changes nothing at all. */
  lemma {:induction false} ParentsIdle(fs: Fs, safe: set<Path>, d: Path, comps: Path, k: nat)
    requires 1 <= k
    ensures fs.faults == [] ==> CheckParents(fs, safe, d, comps, k).0 == fs
    decreases |comps| - k
  {
    hide Lookup;
    if k < |comps| && fs.faults == [] {
      if comps[..k] in safe {
        ParentsIdle(fs, safe, d, comps, k + 1);
      } else {
        ParentsIdle(fs, safe + {comps[..k]}, d, comps, k + 1);
      }
    }
  }

  lemma ParentsUmask(j: Job, n: nat, r: Run, dst: Path)
    requires Good(j, n, r.fs, r.safe, r.dirs)
    requires dst != [] && dst[0] == j.root && AllNormal(dst)
    ensures CheckParents(r.fs, r.safe, j.d, dst, 1).0.umask == r.fs.umask
  {
    hide CheckParents;
    CheckParentsSound(r.fs, r.safe, j.d, dst, j.root, 1);
  }

  /** Whatever calls fail: unless the disk and the archive expose a file, every
      header that was extracted could be, and everything of the disk is spared. */
  lemma {:induction false} StepsTrack(a: Fs, j: Job, n: nat, r: Run, top: Name) returns (m: nat)
    requires Good(j, n, r.fs, r.safe, r.dirs) && BelowTop(j.hs, top, n) && !r.failed
    requires n <= |j.hs| && Acceptable(j.hs) && Normal(j.root) && Bounded(a, j, n, r.fs, r.dirs, false)
    requires PassesUpTo(a, j.d, top, j.root, j.hs, n) && !Exposes(a, j.d, top, j.root, j.hs)
    ensures var r' := Steps(r, j.d, top, j.root, j.hs[n..], false);
            && Spared(a, r'.fs)
            && (!r'.failed ==> m == |j.hs| && Good(j, m, r'.fs, r'.safe, r'.dirs) && Newcomers(a, j, m, r'.dirs))
            && (!r'.failed ==> r'.fs.umask == a.umask)
            && (!r'.failed ==> PassesUpTo(a, j.d, top, j.root, j.hs, |j.hs|))
    decreases |j.hs| - n
  {
    hide Good, Step, BelowTop, Passes, Overwrites, Spared, Newcomers, Done, Made, Fs.WellFormed;
    m := n;
    if n < |j.hs| {
      StepKeeps(j, n, r, top, false);
      StepTracks(a, j, n, r, top, false);
      var r' := Step(r, j.d, top, j.root, j.hs[n], false);
      assert j.hs[n..][1..] == j.hs[n + 1..];
      if !r'.failed {
        m := StepsTrack(a, j, n + 1, r', top);
      }
    }
  }
}
