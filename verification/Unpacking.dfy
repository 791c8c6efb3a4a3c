/** What an extraction that answers true has put down, and when it does: every
    entry of the archive, file for file. */
module Unpacking {
  import opened Wrappers
  import opened FileSystem
  import opened Archive
  import opened Extract
  import opened ExtractSafety
  import opened NoClobber
  import opened Overwriting
  import opened QuietRun

  // ---------------------------------------------------------------------
  // One entry in a free place, whatever fails
  // ---------------------------------------------------------------------

  /** A file with this content and mode. */
  ghost predicate FileAt(fs: Fs, q: Path, content: Bytes, mode: Perm) {
    && q in fs.nodes && fs.nodes[q].File? && fs.nodes[q].ino in fs.inodes
    && fs.inodes[fs.nodes[q].ino].content == content && fs.inodes[fs.nodes[q].ino].mode == mode
  }

  lemma WritePuts(fs: Fs, i: nat, content: Bytes)
    requires i in fs.inodes
    ensures var (fs', ok) := WriteAll(fs, i, content);
            && fs'.nodes == fs.nodes && fs'.umask == fs.umask
            && (ok ==> fs'.inodes == fs.inodes[i := fs.inodes[i].(content := content)])
  {
    assert content[..|content|] == content;
  }

  lemma OpenPuts(fs: Fs, d: Path, dst: Path, mode: Perm)
    requires Plain(fs, d, dst) && d + dst !in fs.nodes
    ensures var (fs', ino) := OpenTrunc(fs, d, dst, mode);
            ino.Some? ==>
              && TookFile(d, dst, fs, fs') && fs'.nodes[d + dst] == File(ino.value)
              && fs'.inodes[ino.value] == Inode([], mode - fs.umask, 0)
  {
    OpenTook(fs, d, dst, mode);
    SlotTook(fs, d, dst);
    hide Locate, Plain, AllSearchable, FreshIno;
  }

  lemma ChmodPuts(fs: Fs, d: Path, dst: Path, mode: Perm, i: nat)
    requires Plain(fs, d, dst) && d + dst in fs.nodes && fs.nodes[d + dst] == File(i) && i in fs.inodes
    ensures var (fs', ok) := Chmod(fs, d, dst, mode);
            ok ==> fs'.nodes == fs.nodes && fs'.inodes == fs.inodes[i := fs.inodes[i].(mode := mode)] && fs'.umask == fs.umask
  {
    hide Walk;
    PlainFinal(fs, d, dst);
  }

  lemma RegPuts(r: Run, d: Path, dst: Path, mode: Perm, content: Bytes)
    requires Plain(r.fs, d, dst) && d + dst !in r.fs.nodes && r.fs.WellFormed() && d + dst != []
    ensures var r' := ExtractReg(r, d, dst, mode, content);
            r'.failed || (TookFile(d, dst, r.fs, r'.fs) && FileAt(r'.fs, d + dst, content, mode))
  {
    RegTook(r, d, dst, mode, content);
    hide OpenTrunc, WriteAll, Chmod, Walk, NoLinks, AllNormal, AllSearchable, Fs.WellFormed;
    OpenPuts(r.fs, d, dst, mode);
    var (fs1, ino) := OpenTrunc(r.fs, d, dst, mode);
    if ino.Some? {
      WritePuts(fs1, ino.value, content);
      var fs2 := WriteAll(fs1, ino.value, content).0;
      TookPlain(d, dst, r.fs, fs1);
      PlainStays(fs1, fs2, d, dst);
      ChmodPuts(fs2, d, dst, mode, ino.value);
    }
  }

  /** The fallback where hard links are refused: what can be read of the source, with
      the header's mode as the umask leaves it. */
  lemma CopyPuts(fs: Fs, d: Path, src: Path, dst: Path, mode: Perm)
    requires Plain(fs, d, dst) && d + dst !in fs.nodes && fs.WellFormed() && d + dst != []
    requires Plain(fs, d, src) && d + src in fs.nodes && fs.nodes[d + src].File?
    ensures var (fs', ok) := CopyFile(fs, d, src, dst, mode);
            ok ==> TookFile(d, dst, fs, fs') && FileAt(fs', d + dst, fs.inodes[fs.nodes[d + src].ino].content, mode - fs.umask)
  {
    CopyTook(fs, d, src, dst, mode);
    TwoTicks(fs, d, dst);
    CopyIsFill(fs, d, src, dst, mode);
    hide *;
    if CopyFile(fs, d, src, dst, mode).1 {
      FilledFrom(fs, fs.Tick().Tick(), d, dst, mode, fs.nodes[d + src].ino);
    }
  }

  lemma TwoTicks(fs: Fs, d: Path, dst: Path)
    requires Plain(fs, d, dst) && fs.WellFormed()
    ensures var fs2 := fs.Tick().Tick(); Plain(fs2, d, dst) && SameStore(fs, fs2) && fs2.umask == fs.umask
  {
    hide Plain, Fs.WellFormed;
    Ticks(fs, d, dst);
    Ticks(fs.Tick(), d, dst);
  }

  /** A copy that succeeds opened its place and filled it from the source. */
  lemma CopyIsFill(fs: Fs, d: Path, src: Path, dst: Path, mode: Perm)
    requires dst != [] && Plain(fs, d, src) && d + src in fs.nodes && fs.nodes[d + src].File?
    ensures CopyFile(fs, d, src, dst, mode).1 ==>
              var i := fs.nodes[d + src].ino;
              var (fs3, ino) := OpenTrunc(fs.Tick().Tick(), d, dst, mode);
              && i in fs.inodes && ino.Some? && ino.value in fs3.inodes && i in fs3.inodes
              && CopyFile(fs, d, src, dst, mode) == WriteAll(fs3, ino.value, fs3.inodes[i].content)
  {
    SourceRead(fs, d, src);
    hide OpenTrunc, WriteAll, Symlink, Plain, Lstat, OpenRead;
  }

  lemma SourceRead(fs: Fs, d: Path, src: Path)
    requires Plain(fs, d, src) && d + src in fs.nodes && fs.nodes[d + src].File?
    ensures var (fs1, node) := Lstat(fs, d, src);
            && fs1 == fs.Tick() && (node.Some? ==> node.value == fs.nodes[d + src])
            && var (fs2, from) := OpenRead(fs1, d, src);
               fs2 == fs1.Tick() && (from.Some? ==> from.value == fs.nodes[d + src].ino && from.value in fs.inodes)
  {
    LookupPlain(fs, d, src);
    PlainStays(fs, fs.Tick(), d, src);
    LookupPlain(fs.Tick(), d, src);
    hide Lookup, Plain;
  }

  /** Opening a free place and filling it from another file. */
  lemma FilledFrom(fs: Fs, fs2: Fs, d: Path, dst: Path, mode: Perm, i: nat)
    requires Plain(fs2, d, dst) && d + dst !in fs.nodes && SameStore(fs, fs2) && fs2.umask == fs.umask && i in fs.inodes
    ensures var (fs3, ino) := OpenTrunc(fs2, d, dst, mode);
            ino.Some? && ino.value in fs3.inodes && i in fs3.inodes ==>
              var (fs4, ok) := WriteAll(fs3, ino.value, fs3.inodes[i].content);
              ok ==> FileAt(fs4, d + dst, fs.inodes[i].content, mode - fs.umask)
  {
    OpenPuts(fs2, d, dst, mode);
    var (fs3, ino) := OpenTrunc(fs2, d, dst, mode);
    hide OpenTrunc, WriteAll, Plain, AllSearchable;
    if ino.Some? && i in fs3.inodes {
      WritePuts(fs3, ino.value, fs3.inodes[i].content);
    }
  }

  /** Another name of the same file. */
  ghost predicate SameFile(fs: Fs, q: Path, src: Path) {
    q in fs.nodes && src in fs.nodes && fs.nodes[src].File? && fs.nodes[q] == fs.nodes[src]
  }

  /** A file of its own with the same content. */
  ghost predicate CopyOf(fs: Fs, q: Path, src: Path, mode: Perm) {
    && src in fs.nodes && fs.nodes[src].File? && fs.nodes[src].ino in fs.inodes
    && FileAt(fs, q, fs.inodes[fs.nodes[src].ino].content, mode)
  }

  lemma HardLinkPuts(r: Run, d: Path, src: Path, dst: Path, mode: Perm)
    requires Plain(r.fs, d, dst) && d + dst !in r.fs.nodes && r.fs.WellFormed() && d + dst != []
    requires Plain(r.fs, d, src) && d + src in r.fs.nodes && r.fs.nodes[d + src].File? && !r.failed
    ensures var r' := ExtractHardLink(r, d, src, dst, mode);
            || r'.failed
            || (&& Took(d, dst, r.fs, r'.fs) && r'.dirs == r.dirs
                && (SameFile(r'.fs, d + dst, d + src) || CopyOf(r'.fs, d + dst, d + src, mode - r.fs.umask)))
  {
    HardLinkTook(r, d, src, dst, mode);
    Ticks(r.fs, d, dst);
    Ticks(r.fs, d, src);
    CopyPuts(r.fs.Tick(), d, src, dst, mode);
    if !FileSystem.HardLink(r.fs, d, src, dst).1 {
      HardLinkTicks(r.fs, d, src, dst);
    }
    hide Plain, CopyFile, FileSystem.HardLink, AllSearchable;
    assert r.fs.nodes[d + src].ino in r.fs.inodes;
  }

  /** Header `k` is there, as far as `set` goes: a directory that was there before, in
      `a`, is as it was, and a new one has its mode once the modes are set; a file has
      content and mode, a link its target; a hard link is its target's file, or, where
      it was refused, a copy with the mode the umask leaves. */
  ghost predicate Stands(a: Fs, fs: Fs, d: Path, root: Name, h: Header, settled: bool)
    requires CleanName(h.name).Some?
  {
    var q := d + Target(root, h);
    match h.flag
    case Directory =>
      && q in fs.nodes && !fs.nodes[q].Link?
      && fs.nodes[q] == if q in a.nodes then a.nodes[q] else Dir(if settled then h.mode else h.mode + OWNER_ALL - a.umask)
    case Reg => FileAt(fs, q, h.content, h.mode)
    case SymLink => q in fs.nodes && fs.nodes[q] == Link(h.linkname)
    case HardLink =>
      var src := d + LinkSource(root, h.linkname);
      SameFile(fs, q, src) || CopyOf(fs, q, src, h.mode - a.umask)
    case _ => true
  }

  /** A change at `q` only, which is neither the entry's place nor its source's. */
  lemma StandsElsewhere(a: Fs, b: Fs, c: Fs, d: Path, root: Name, h: Header, settled: bool, q: Path)
    requires CleanName(h.name).Some? && Stands(a, b, d, root, h, settled)
    requires (forall p :: p != q ==> SameAt(p, b, c)) && OldInodes(b, c)
    requires q != d + Target(root, h) && (h.flag.HardLink? ==> q != d + LinkSource(root, h.linkname))
    ensures Stands(a, c, d, root, h, settled)
  {
    hide CleanName, LinkSource;
    assert SameAt(d + Target(root, h), b, c);
    if h.flag.HardLink? {
      assert SameAt(d + LinkSource(root, h.linkname), b, c);
    }
  }

  /** An entry put into a free place stands there, and nothing else changed. */
  lemma PlacePuts(a: Fs, r: Run, d: Path, root: Name, h: Header)
    requires Kept(h) && CleanName(h.name).Some?
    requires var dst := Target(root, h);
             Plain(r.fs, d, dst) && d + dst !in r.fs.nodes && r.fs.WellFormed() && d + dst != []
             && (h.flag.Directory? ==> d + dst !in a.nodes)
    requires a.umask == r.fs.umask && !r.failed
    requires h.flag.HardLink? ==> var src := LinkSource(root, h.linkname);
                                  Plain(r.fs, d, src) && d + src in r.fs.nodes && r.fs.nodes[d + src].File?
    ensures var dst, r' := Target(root, h), Place(r, d, root, Target(root, h), h, false);
            || r'.failed
            || (&& Took(d, dst, r.fs, r'.fs) && Stands(a, r'.fs, d, root, h, false)
                && r'.dirs == if h.flag.Directory? then r.dirs + [DirMode(dst, h.mode)] else r.dirs)
  {
    var dst := Target(root, h);
    hide CleanName, Target, LinkSource, ExtractDir, ExtractReg, ExtractSymlink, ExtractHardLink, Plain, AllSearchable, Fs.WellFormed;
    match h.flag {
      case Directory => DirTook(r, d, dst, h.mode);
      case Reg =>
        RegPuts(r, d, dst, h.mode, h.content);
        RegKeepsDirs(r, d, dst, h.mode, h.content);
      case SymLink => SymlinkPuts(r, d, dst, h.linkname);
      case HardLink => HardLinkPuts(r, d, LinkSource(root, h.linkname), dst, h.mode);
    }
  }

  lemma SymlinkPuts(r: Run, d: Path, dst: Path, target: string)
    requires Plain(r.fs, d, dst) && d + dst !in r.fs.nodes
    ensures var r' := ExtractSymlink(r, d, dst, target);
            r'.failed || (Took(d, dst, r.fs, r'.fs) && r'.fs.nodes[d + dst] == Link(target) && r'.dirs == r.dirs)
  {
    hide Symlink, NoLinks, AllNormal, Took;
    SymlinkTook(r.fs, d, dst, target);
  }

  // ---------------------------------------------------------------------
  // A run
  // ---------------------------------------------------------------------

  /** What the first `n` headers name stands; the files that were there, and what the
      archive does not name, are as they were. */
  ghost predicate Stood(j: Job, n: nat, fs: Fs) {
    && fs.umask == j.fs0.umask && OldInodes(j.fs0, fs)
    && forall k :: 0 <= k < n <= |j.hs| && Kept(j.hs[k]) && CleanName(j.hs[k].name).Some? ==>
         Stands(j.fs0, fs, j.d, j.root, j.hs[k], false)
  }

  /** Every directory made waits for its mode, once, and none is above one that waited
      before it. */
  ghost predicate Queued(j: Job, n: nat, dirs: seq<DirMode>) {
    && (forall k :: 0 <= k < n <= |j.hs| && j.hs[k].flag.Directory? && CleanName(j.hs[k].name).Some?
                    && j.d + Target(j.root, j.hs[k]) !in j.fs0.nodes ==>
          DirMode(Target(j.root, j.hs[k]), j.hs[k].mode) in dirs)
    && (forall e :: e in dirs ==> j.d + e.path !in j.fs0.nodes)
    && (forall i, k :: 0 <= i < k < |dirs| ==> !(dirs[k].path <= dirs[i].path))
  }

  /** What the run keeps, whatever fails. */
  ghost predicate Running(j: Job, n: nat, r: Run, top: Name) {
    && n <= |j.hs| && Acceptable(j.hs) && Normal(j.root) && !r.failed
    && Good(j, n, r.fs, r.safe, r.dirs) && BelowTop(j.hs, top, n) && History(j, n, r.fs, r.dirs)
    && Stood(j, n, r.fs) && Queued(j, n, r.dirs)
  }

  /** A place that is free, or that force can free: a file or a link in a directory
      that lets it go, with nothing failing. */
  ghost predicate Clearable(fs: Fs, d: Path, dst: Path, force: bool)
    requires dst != []
  {
    d + dst !in fs.nodes
    || (force && Calm(fs, d, dst) && fs.Writable(Parent(d + dst)) && !fs.nodes[d + dst].Dir?)
  }

  lemma Freed(r: Run, d: Path, dst: Path, force: bool)
    requires dst != [] && Clearable(r.fs, d, dst, force) && Plain(r.fs, d, dst)
    ensures var c := Cleared(r, d, dst, force);
            && d + dst !in c.fs.nodes && (forall p :: p != d + dst ==> SameAt(p, r.fs, c.fs))
            && c.fs.inodes == r.fs.inodes && c.fs.umask == r.fs.umask && c.dirs == r.dirs && c.failed == r.failed
            && (r.fs.faults == [] ==> c.fs.faults == [])
            && (c.fs.nodes == r.fs.nodes || c.fs.nodes == r.fs.nodes - {d + dst})
  {
    LookupPlain(r.fs, d, dst);
    hide Slot, Lookup, HasChild, Plain;
    if force {
      if d + dst in r.fs.nodes {
        CalmLookup(r.fs, d, dst);
      }
      hide Calm;
      if d + dst in r.fs.nodes {
        assert Slot(r.fs, d, dst) == Some(d + dst);
      }
    }
  }

  /** Where hard link `n` points something else stands than where it goes. */
  lemma ApartFrom(j: Job, n: nat, top: Name, k: nat)
    requires k < n < |j.hs| && Acceptable(j.hs) && BelowTop(j.hs, top, n) && Kept(j.hs[n]) && Inside(top, j.hs[n]) && Kept(j.hs[k])
    ensures CleanName(j.hs[k].name).Some?
    ensures j.d + Target(j.root, j.hs[k]) != j.d + Target(j.root, j.hs[n])
    ensures j.hs[k].flag.HardLink? ==> j.d + LinkSource(j.root, j.hs[k].linkname) != j.d + Target(j.root, j.hs[n])
  {
    hide CleanName;
    NotDoneHere(j, top, n);
    var q := Target(j.root, j.hs[n]);
    assert Done(j.root, j.hs, n, Target(j.root, j.hs[k]));
    assert forall p: Path :: j.d + p == j.d + q ==> p == q by {
      forall p: Path | j.d + p == j.d + q ensures p == q {
        assert (j.d + p)[|j.d|..] == p && (j.d + q)[|j.d|..] == q;
      }
    }
    if j.hs[k].flag.HardLink? {
      var m := SourceIndex(j.hs, k);
      assert LinkSource(j.root, j.hs[k].linkname) == Target(j.root, j.hs[m]);
      assert Done(j.root, j.hs, n, Target(j.root, j.hs[m]));
    }
  }

  /** What stands goes on standing when only header `n`'s place changes. */
  lemma StoodElsewhere(j: Job, n: nat, top: Name, b: Fs, c: Fs)
    requires n < |j.hs| && Acceptable(j.hs) && BelowTop(j.hs, top, n) && Kept(j.hs[n]) && Inside(top, j.hs[n])
    requires Stood(j, n, b) && OldInodes(b, c) && c.umask == b.umask
    requires forall p :: p != j.d + Target(j.root, j.hs[n]) ==> SameAt(p, b, c)
    ensures Stood(j, n, c)
  {
    hide CleanName, Acceptable, Stands, BelowTop;
    forall k | 0 <= k < n <= |j.hs| && Kept(j.hs[k]) && CleanName(j.hs[k].name).Some?
      ensures Stands(j.fs0, c, j.d, j.root, j.hs[k], false)
    {
      ApartFrom(j, n, top, k);
      StandsElsewhere(j.fs0, b, c, j.d, j.root, j.hs[k], false, j.d + Target(j.root, j.hs[n]));
    }
  }

  /** The file a hard link points at. */
  lemma SourceStands(j: Job, n: nat, fs: Fs)
    requires n < |j.hs| && Acceptable(j.hs) && Normal(j.root) && j.hs[n].flag.HardLink? && Stood(j, n, fs) && fs.WellFormed()
    ensures var src := LinkSource(j.root, j.hs[n].linkname);
            Plain(fs, j.d, src) && j.d + src in fs.nodes && fs.nodes[j.d + src].File?
  {
    hide CleanName;
    var m := SourceIndex(j.hs, n);
    assert LinkSource(j.root, j.hs[n].linkname) == Target(j.root, j.hs[m]);
    assert Stands(j.fs0, fs, j.d, j.root, j.hs[m], false);
    TargetPlace(j, j.hs[m]);
    hide Acceptable, Plain;
    ExistingIsPlain(fs, j.d, Target(j.root, j.hs[m]));
  }

  /** A place to put header `n` at, its parents checked. */
  ghost predicate AtPlace(j: Job, n: nat, r: Run, top: Name, dst: Path) {
    && Next(j, n, dst) && Acceptable(j.hs) && Normal(j.root) && !r.failed && Inside(top, j.hs[n])
    && Good(j, n, r.fs, r.safe, r.dirs) && BelowTop(j.hs, top, n) && Stood(j, n, r.fs) && Queued(j, n, r.dirs)
    && PlaceOk(j, r.fs, dst) && !Done(j.root, j.hs, n, dst) && SameAt(j.d + dst, j.fs0, r.fs)
  }

  lemma TakenApart(d: Path, dst: Path, a: Fs, b: Fs)
    requires dst != [] && Took(d, dst, a, b)
    ensures OldInodes(a, b) && b.umask == a.umask && forall p :: p != d + dst ==> SameAt(p, a, b)
  {
  }

  lemma StoodMore(j: Job, n: nat, fs: Fs)
    requires n < |j.hs| && Stood(j, n, fs)
    requires Kept(j.hs[n]) && CleanName(j.hs[n].name).Some? ==> Stands(j.fs0, fs, j.d, j.root, j.hs[n], false)
    ensures Stood(j, n + 1, fs)
  {
    hide CleanName, Stands;
  }

  lemma QueuedSkip(j: Job, n: nat, dirs: seq<DirMode>)
    requires n < |j.hs| && Queued(j, n, dirs)
    requires j.hs[n].flag.Directory? && CleanName(j.hs[n].name).Some? ==> j.d + Target(j.root, j.hs[n]) in j.fs0.nodes
    ensures Queued(j, n + 1, dirs)
  {
    hide CleanName;
  }

  lemma QueuedAdd(j: Job, n: nat, r: Run, dst: Path, top: Name)
    requires AtPlace(j, n, r, top, dst) && j.hs[n].flag.Directory? && j.d + dst !in r.fs.nodes
    ensures Queued(j, n + 1, r.dirs + [DirMode(dst, j.hs[n].mode)])
  {
    hide CleanName, Acceptable, PlaceOk, Stood, BelowTop, Confined, CacheOk, Placed;
    var e, dirs := DirMode(dst, j.hs[n].mode), r.dirs;
    var more := dirs + [e];
    assert e in more;
    assert forall x :: x in dirs ==> x in more;
    forall i | 0 <= i < |dirs| ensures !(dst <= dirs[i].path) {
      assert dirs[i] in dirs;
      assert r.fs.IsDir(j.d + dirs[i].path);
      NotAboveThere(r.fs, j.d, dst, dirs[i].path);
    }
  }

  lemma AtPlaceFacts(j: Job, n: nat, r: Run, top: Name, dst: Path)
    requires AtPlace(j, n, r, top, dst)
    ensures r.fs.WellFormed() && Plain(r.fs, j.d, dst) && j.d + dst != [] && SameAt(j.d + dst, j.fs0, r.fs)
    ensures n < |j.hs| && Kept(j.hs[n]) && CleanName(j.hs[n].name).Some? && Target(j.root, j.hs[n]) == dst
    ensures Acceptable(j.hs) && Inside(top, j.hs[n]) && !r.failed && BelowTop(j.hs, top, n)
    ensures Stood(j, n, r.fs) && Queued(j, n, r.dirs) && j.fs0.umask == r.fs.umask
  {
    hide CleanName, Acceptable, BelowTop, Stands;
  }

  /** A directory is merged into. */
  lemma DirMergedStood(j: Job, n: nat, r: Run, top: Name, dst: Path)
    requires AtPlace(j, n, r, top, dst) && j.hs[n].flag.Directory? && j.d + dst in r.fs.nodes
    ensures var r' := ExtractDir(r, j.d, dst, j.hs[n].mode);
            r'.failed || (Stood(j, n + 1, r'.fs) && Queued(j, n + 1, r'.dirs))
  {
    AtPlaceFacts(j, n, r, top, dst);
    hide AtPlace, CleanName, Acceptable, BelowTop, ExtractDir, AllSearchable, Plain, Inside, Stood, Queued, Target, Fs.WellFormed;
    DirMerged(r, j.d, dst, j.hs[n].mode);
    var r' := ExtractDir(r, j.d, dst, j.hs[n].mode);
    if !r'.failed {
      StoodSame(j, n, r.fs, r'.fs);
      assert Stands(j.fs0, r'.fs, j.d, j.root, j.hs[n], false);
      StoodMore(j, n, r'.fs);
      QueuedSkip(j, n, r'.dirs);
    }
  }

  /** ... or made. */
  lemma DirMadeStood(j: Job, n: nat, r: Run, top: Name, dst: Path)
    requires AtPlace(j, n, r, top, dst) && j.hs[n].flag.Directory? && j.d + dst !in r.fs.nodes
    ensures var r' := Extract.Place(r, j.d, j.root, dst, j.hs[n], false);
            r'.failed || (Stood(j, n + 1, r'.fs) && Queued(j, n + 1, r'.dirs))
  {
    AtPlaceFacts(j, n, r, top, dst);
    hide CleanName, Acceptable, BelowTop, Extract.Place, Plain, Stands, Queued, Stood, AtPlace, Inside, Fs.WellFormed;
    PlacePuts(j.fs0, r, j.d, j.root, j.hs[n]);
    QueuedAdd(j, n, r, dst, top);
    var r' := Extract.Place(r, j.d, j.root, dst, j.hs[n], false);
    if !r'.failed {
      TakenApart(j.d, dst, r.fs, r'.fs);
      hide Took;
      StoodElsewhere(j, n, top, r.fs, r'.fs);
      StoodMore(j, n, r'.fs);
    }
  }

  lemma DirStood(j: Job, n: nat, r: Run, top: Name, dst: Path, force: bool)
    requires AtPlace(j, n, r, top, dst) && j.hs[n].flag.Directory?
    ensures var r' := Extract.Place(r, j.d, j.root, dst, j.hs[n], force);
            r'.failed || (Stood(j, n + 1, r'.fs) && Queued(j, n + 1, r'.dirs))
  {
    AtPlaceFacts(j, n, r, top, dst);
    hide AtPlace, CleanName, Acceptable, Plain, Stood, Queued, ExtractDir, BelowTop;
    if j.d + dst in r.fs.nodes {
      DirMergedStood(j, n, r, top, dst);
    } else {
      DirMadeStood(j, n, r, top, dst);
    }
  }

  /** Anything else goes to a place that is free, or freed. */
  lemma FileStood(j: Job, n: nat, r: Run, top: Name, dst: Path, force: bool)
    requires AtPlace(j, n, r, top, dst) && !j.hs[n].flag.Directory? && Clearable(r.fs, j.d, dst, force)
    ensures var r' := Place(r, j.d, j.root, dst, j.hs[n], force);
            r'.failed || (Stood(j, n + 1, r'.fs) && Queued(j, n + 1, r'.dirs))
  {
    var h, d, c := j.hs[n], j.d, Cleared(r, j.d, dst, force);
    ClearedKeeps(j, n, r, dst, force);
    assert c.fs.WellFormed() && Plain(c.fs, d, dst) && Plain(r.fs, d, dst) && d + dst != [];
    Freed(r, d, dst, force);
    hide CleanName, Acceptable, Good, PlaceOk, BelowTop, Done, Plain, Stands, Cleared, Clearable;
    StoodElsewhere(j, n, top, r.fs, c.fs);
    if h.flag.HardLink? {
      SourceStands(j, n, c.fs);
    }
    hide Stood, Queued;
    FilePut(j, n, c, top, dst);
    assert Place(r, d, j.root, dst, h, force) == Place(c, d, j.root, dst, h, false) by { PlaceCleared(r, d, j.root, dst, h, force); }
  }

  lemma PlaceCleared(r: Run, d: Path, root: Name, dst: Path, h: Header, force: bool)
    requires dst != [] && Kept(h) && !h.flag.Directory?
    ensures Place(r, d, root, dst, h, force) == Place(Cleared(r, d, dst, force), d, root, dst, h, false)
  {
    hide ExtractReg, ExtractSymlink, ExtractHardLink, FileSystem.Remove;
  }

  lemma FilePut(j: Job, n: nat, c: Run, top: Name, dst: Path)
    requires Next(j, n, dst) && Acceptable(j.hs) && !c.failed && Inside(top, j.hs[n]) && BelowTop(j.hs, top, n)
    requires Stood(j, n, c.fs) && Queued(j, n, c.dirs) && !j.hs[n].flag.Directory?
    requires Plain(c.fs, j.d, dst) && j.d + dst !in c.fs.nodes && c.fs.WellFormed() && j.d + dst != []
    requires j.hs[n].flag.HardLink? ==> var src := LinkSource(j.root, j.hs[n].linkname);
                                        Plain(c.fs, j.d, src) && j.d + src in c.fs.nodes && c.fs.nodes[j.d + src].File?
    ensures var r' := Place(c, j.d, j.root, dst, j.hs[n], false);
            r'.failed || (Stood(j, n + 1, r'.fs) && Queued(j, n + 1, r'.dirs))
  {
    var h, d := j.hs[n], j.d;
    assert c.fs.umask == j.fs0.umask;
    hide Stood, Queued, Acceptable, CleanName, Stands, Plain, BelowTop;
    PlacePuts(j.fs0, c, d, j.root, h);
    var r' := Place(c, d, j.root, dst, h, false);
    hide Extract.Place;
    if !r'.failed {
      TakenApart(d, dst, c.fs, r'.fs);
      hide Took;
      StoodElsewhere(j, n, top, c.fs, r'.fs);
      StoodMore(j, n, r'.fs);
      QueuedSkip(j, n, r'.dirs);
    }
  }

  /** Header `n` may go where it goes. */
  ghost predicate Fits(j: Job, n: nat, r: Run, top: Name, force: bool)
    requires n < |j.hs|
  {
    Kept(j.hs[n]) && !j.hs[n].flag.Directory? && Inside(top, j.hs[n]) ==> Clearable(r.fs, j.d, Target(j.root, j.hs[n]), force)
  }

  lemma RunningFacts(j: Job, n: nat, r: Run, top: Name)
    requires Running(j, n, r, top)
    ensures n <= |j.hs| && Acceptable(j.hs) && Normal(j.root) && !r.failed
    ensures Good(j, n, r.fs, r.safe, r.dirs) && BelowTop(j.hs, top, n) && History(j, n, r.fs, r.dirs)
    ensures Stood(j, n, r.fs) && Queued(j, n, r.dirs)
  {
  }

  lemma RunningIs(j: Job, n: nat, r: Run, top: Name)
    requires n <= |j.hs| && Acceptable(j.hs) && Normal(j.root) && !r.failed
    requires Good(j, n, r.fs, r.safe, r.dirs) && BelowTop(j.hs, top, n) && History(j, n, r.fs, r.dirs)
    requires Stood(j, n, r.fs) && Queued(j, n, r.dirs)
    ensures Running(j, n, r, top)
  {
  }

  lemma StoodSame(j: Job, n: nat, a: Fs, b: Fs)
    requires Stood(j, n, a) && b.nodes == a.nodes && b.inodes == a.inodes && b.umask == a.umask
    ensures Stood(j, n, b)
  {
    hide CleanName, LinkSource;
    forall k | 0 <= k < n <= |j.hs| && Kept(j.hs[k]) && CleanName(j.hs[k].name).Some?
      ensures Stands(j.fs0, b, j.d, j.root, j.hs[k], false)
    {
      assert Stands(j.fs0, a, j.d, j.root, j.hs[k], false);
    }
  }

  lemma ClearableSame(a: Fs, b: Fs, d: Path, dst: Path, force: bool)
    requires dst != [] && Clearable(a, d, dst, force) && (b == a || (d + dst !in a.nodes && b.nodes == a.nodes))
    ensures Clearable(b, d, dst, force)
  {
  }

  lemma HistoryHere(j: Job, n: nat, fs: Fs, dirs: seq<DirMode>, dst: Path)
    requires History(j, n, fs, dirs) && !Done(j.root, j.hs, n, dst)
    ensures SameAt(j.d + dst, j.fs0, fs)
  {
    hide Done;
    assert (j.d + dst)[|j.d|..] == dst;
  }

  /** Whatever fails: what a header that is extracted names stands, and so does
      everything named before it. */
  lemma StepStood(j: Job, n: nat, r: Run, top: Name, force: bool)
    requires Running(j, n, r, top) && n < |j.hs| && Fits(j, n, r, top, force)
    ensures var r' := Step(r, j.d, top, j.root, j.hs[n], force); r'.failed || (Stood(j, n + 1, r'.fs) && Queued(j, n + 1, r'.dirs))
  {
    var h, r' := j.hs[n], Step(r, j.d, top, j.root, j.hs[n], force);
    RunningFacts(j, n, r, top);
    hide CleanName, CheckParents, Extract.Place, Good, PlaceOk, Acceptable, Clearable, Running, Stands, History, Stood, Queued, BelowTop, Done,
      Calm;
    if Kept(h) && Inside(top, h) {
      TargetPlace(j, h);
      var dst := Target(j.root, h);
      ParentsKeep(j, n, r, dst);
      ParentsUmask(j, n, r, dst);
      ParentsIdle(r.fs, r.safe, j.d, dst, 1);
      var (fs, safe, ok) := CheckParents(r.fs, r.safe, j.d, dst, 1);
      if ok {
        var r1 := r.(fs := fs, safe := safe);
        StoodSame(j, n, r.fs, fs);
        NotDoneHere(j, top, n);
        HistoryHere(j, n, r.fs, r.dirs, dst);
        assert AtPlace(j, n, r1, top, dst);
        hide AtPlace, Step;
        StepIsPlace(r, j.d, top, j.root, h, force, fs, safe);
        if h.flag.Directory? {
          DirStood(j, n, r1, top, dst, force);
        } else {
          CalmNoFaults(r.fs, j.d, dst, force);
          ClearableSame(r.fs, fs, j.d, dst, force);
          FileStood(j, n, r1, top, dst, force);
        }
      }
    } else if !Kept(h) {
      StoodMore(j, n, r.fs);
      QueuedSkip(j, n, r.dirs);
    }
  }

  lemma StepIsPlace(r: Run, d: Path, top: Name, root: Name, h: Header, force: bool, fs: Fs, safe: set<Path>)
    requires Kept(h) && Inside(top, h) && CheckParents(r.fs, r.safe, d, Target(root, h), 1) == (fs, safe, true)
    ensures Step(r, d, top, root, h, force) == Extract.Place(r.(fs := fs, safe := safe), d, root, Target(root, h), h, force)
  {
    hide CleanName, CheckParents, Extract.Place;
  }

  lemma CalmNoFaults(fs: Fs, d: Path, dst: Path, force: bool)
    requires dst != [] && Clearable(fs, d, dst, force)
    ensures d + dst !in fs.nodes || fs.faults == []
  {
  }

  lemma StepRuns(j: Job, n: nat, r: Run, top: Name, force: bool)
    requires Running(j, n, r, top) && n < |j.hs| && Fits(j, n, r, top, force)
    ensures var r' := Step(r, j.d, top, j.root, j.hs[n], force); r'.failed || Running(j, n + 1, r', top)
  {
    RunningFacts(j, n, r, top);
    hide *;
    StepStood(j, n, r, top, force);
    StepKeeps(j, n, r, top, force);
    StepHistory(j, n, r, top, force);
    CountIs(n);
    var r' := Step(r, j.d, top, j.root, j.hs[n], force);
    if !r'.failed {
      RunningIs(j, n + 1, r', top);
    }
  }

  lemma CountIs(n: nat)
    ensures Count(n, false) == n + 1
  {
  }

  /** Nothing stands where a file or link is to go. */
  ghost predicate FreeFiles(a: Fs, d: Path, root: Name, hs: seq<Header>) {
    forall k :: 0 <= k < |hs| && Kept(hs[k]) && !hs[k].flag.Directory? && CleanName(hs[k].name).Some? ==>
      d + Target(root, hs[k]) !in a.nodes
  }

  lemma FreeFits(j: Job, n: nat, r: Run, top: Name, force: bool)
    requires Running(j, n, r, top) && n < |j.hs| && FreeFiles(j.fs0, j.d, j.root, j.hs)
    ensures Fits(j, n, r, top, force)
  {
    hide CleanName, Acceptable, Good, Stood, Queued, Done, Calm;
    if Kept(j.hs[n]) && Inside(top, j.hs[n]) {
      NotDoneHere(j, top, n);
      HistoryHere(j, n, r.fs, r.dirs, Target(j.root, j.hs[n]));
    }
  }

  /** Whatever fails, with or without force: a run into free places that gets through
      has put everything down. */
  lemma {:induction false} StepsRun(j: Job, n: nat, r: Run, top: Name, force: bool)
    requires Running(j, n, r, top) && FreeFiles(j.fs0, j.d, j.root, j.hs)
    ensures var r' := Steps(r, j.d, top, j.root, j.hs[n..], force); r'.failed || Running(j, |j.hs|, r', top)
    decreases |j.hs| - n
  {
    RunningFacts(j, n, r, top);
    hide Step, Running, FreeFiles, Fits;
    if n < |j.hs| {
      FreeFits(j, n, r, top, force);
      StepRuns(j, n, r, top, force);
      var r' := Step(r, j.d, top, j.root, j.hs[n], force);
      assert j.hs[n..][1..] == j.hs[n + 1..];
      if !r'.failed {
        StepsRun(j, n + 1, r', top, force);
      }
    }
  }

  // ---------------------------------------------------------------------
  // With nothing failing
  // ---------------------------------------------------------------------

  /** Header `n` can be put down after those before it: every directory above lets a
      lookup through, the one right above takes entries, and the place is free; with
      force it may hold a file or link. A directory may be there already. */
  ghost predicate Puttable(a: Fs, d: Path, top: Name, root: Name, hs: seq<Header>, n: nat, force: bool)
    requires n < |hs|
  {
    var h := hs[n];
    h.flag.GlobalHeader?
    || (Inside(top, h)
        && (Kept(h) ==>
              var t := Target(root, h);
              && Open(a, d, root, hs, n, t)
              && (if h.flag.Directory? && d + t in a.nodes then a.nodes[d + t].Dir? || (force && a.nodes[d + t].File?)
                  else Growable(a, d, root, hs, n, t[..|t| - 1]) && (d + t in a.nodes ==> force && !a.nodes[d + t].Dir?))))
  }

  ghost predicate AllPuttable(a: Fs, d: Path, top: Name, root: Name, hs: seq<Header>, force: bool) {
    forall n :: 0 <= n < |hs| ==> Puttable(a, d, top, root, hs, n, force)
  }

  /** Lookups go through where the account says they do. */
  lemma DirsStand(j: Job, n: nat, fs: Fs, dirs: seq<DirMode>, top: Name, force: bool, p: Path)
    requires Stood(j, n, fs) && History(j, n, fs, dirs) && AllPuttable(j.fs0, j.d, top, j.root, j.hs, force)
    ensures Enterable(j.fs0, j.d, j.root, j.hs, n, p) ==> fs.Searchable(j.d + p)
    ensures Growable(j.fs0, j.d, j.root, j.hs, n, p) ==> fs.Writable(j.d + p)
  {
    var q := j.d + p;
    hide CleanName, Open, LinkSource;
    if j.fs0.IsDir(q) {
      OldDirStands(j, n, fs, dirs, top, force, q);
    } else if DirMade(j.fs0, j.d, j.root, j.hs, n, p) {
      var k :| 0 <= k < n <= |j.hs| && j.hs[k].flag.Directory? && CleanName(j.hs[k].name).Some? && Target(j.root, j.hs[k]) == p;
      assert Stands(j.fs0, fs, j.d, j.root, j.hs[k], false);
    }
  }

  lemma OldDirStands(j: Job, n: nat, fs: Fs, dirs: seq<DirMode>, top: Name, force: bool, q: Path)
    requires Stood(j, n, fs) && History(j, n, fs, dirs) && AllPuttable(j.fs0, j.d, top, j.root, j.hs, force) && j.fs0.IsDir(q)
    ensures SameAt(q, j.fs0, fs)
  {
    hide CleanName, Open, Growable, LinkSource;
    if DoneAt(j, n, q) {
      var k :| 0 <= k < n <= |j.hs| && Kept(j.hs[k]) && CleanName(j.hs[k].name).Some? && Target(j.root, j.hs[k]) == q[|j.d|..];
      assert Puttable(j.fs0, j.d, top, j.root, j.hs, k, force);
      assert q == j.d + q[|j.d|..];
      assert Stands(j.fs0, fs, j.d, j.root, j.hs[k], false);
    }
  }

  /** The way to a place is open now. */
  lemma WayStands(j: Job, n: nat, r: Run, top: Name, force: bool, dst: Path)
    requires Running(j, n, r, top) && AllPuttable(j.fs0, j.d, top, j.root, j.hs, force)
    requires dst != [] && AllNormal(dst) && Open(j.fs0, j.d, j.root, j.hs, n, dst)
    ensures AllSearchable(r.fs, j.d, dst[..|dst| - 1])
    ensures r.fs.faults == [] ==> Calm(r.fs, j.d, dst)
    ensures Growable(j.fs0, j.d, j.root, j.hs, n, dst[..|dst| - 1]) ==> r.fs.Writable(Parent(j.d + dst))
  {
    RunningFacts(j, n, r, top);
    assert r.fs.WellFormed();
    hide CleanName, Acceptable, AllPuttable, Stood, Queued, Good, BelowTop, History, Enterable, Growable, Running, Fs.WellFormed, AllNormal;
    var up := dst[..|dst| - 1];
    assert Parent(j.d + dst) == j.d + up;
    forall k | 0 <= k <= |up| ensures r.fs.Searchable(j.d + up[..k]) {
      assert up[..k] == dst[..k];
      DirsStand(j, n, r.fs, r.dirs, top, force, dst[..k]);
    }
    DirsStand(j, n, r.fs, r.dirs, top, force, up);
  }

  /** Header `n` finds its place as the account says. */
  lemma PlaceNow(j: Job, n: nat, r: Run, top: Name, force: bool)
    requires Running(j, n, r, top) && r.fs.faults == [] && n < |j.hs| && AllPuttable(j.fs0, j.d, top, j.root, j.hs, force)
    requires Kept(j.hs[n])
    ensures Inside(top, j.hs[n])
    ensures var dst, h := Target(j.root, j.hs[n]), j.hs[n];
            && Calm(r.fs, j.d, dst) && j.d + dst != []
            && (if h.flag.Directory? && j.d + dst in r.fs.nodes then !r.fs.nodes[j.d + dst].Link?
                else r.fs.Writable(Parent(j.d + dst)) && (j.d + dst in r.fs.nodes ==> force && !r.fs.nodes[j.d + dst].Dir?))
  {
    assert Puttable(j.fs0, j.d, top, j.root, j.hs, n, force);
    RunningFacts(j, n, r, top);
    hide CleanName, AllPuttable, Acceptable, Stood, Queued, Good, History, Running, Enterable, Calm, BelowTop, Done;
    var dst := Target(j.root, j.hs[n]);
    TargetPlace(j, j.hs[n]);
    NotDoneHere(j, top, n);
    HistoryHere(j, n, r.fs, r.dirs, dst);
    hide Open, Growable;
    WayStands(j, n, r, top, force, dst);
  }

  lemma SourceNow(j: Job, n: nat, r: Run, top: Name, force: bool)
    requires Running(j, n, r, top) && r.fs.faults == [] && n < |j.hs| && AllPuttable(j.fs0, j.d, top, j.root, j.hs, force)
    requires j.hs[n].flag.HardLink?
    ensures var src := LinkSource(j.root, j.hs[n].linkname);
            Calm(r.fs, j.d, src) && j.d + src in r.fs.nodes && r.fs.nodes[j.d + src].File?
  {
    RunningFacts(j, n, r, top);
    assert r.fs.WellFormed();
    SourceStands(j, n, r.fs);
    var k, src := SourceIndex(j.hs, n), LinkSource(j.root, j.hs[n].linkname);
    assert src == Target(j.root, j.hs[k]);
    assert Puttable(j.fs0, j.d, top, j.root, j.hs, k, force);
    TargetPlace(j, j.hs[k]);
    hide CleanName, AllPuttable, Acceptable, Stood, Queued, Good, History, Running, Enterable, Growable, Calm, BelowTop, Open;
    assert Open(j.fs0, j.d, j.root, j.hs, k, src);
    OpenGrows(j.fs0, j.d, j.root, j.hs, k, n, src);
    WayStands(j, n, r, top, force, src);
  }

  /** Placing an entry succeeds. */
  lemma PlaceCalm(r: Run, d: Path, root: Name, dst: Path, h: Header, force: bool)
    requires Kept(h) && Calm(r.fs, d, dst) && d + dst != [] && !r.failed
    requires if h.flag.Directory? && d + dst in r.fs.nodes then !r.fs.nodes[d + dst].Link?
             else r.fs.Writable(Parent(d + dst)) && (d + dst in r.fs.nodes ==> force && !r.fs.nodes[d + dst].Dir?)
    requires h.flag.HardLink? ==> var src := LinkSource(root, h.linkname);
                                  Calm(r.fs, d, src) && d + src in r.fs.nodes && r.fs.nodes[d + src].File? && d + src != d + dst
    ensures var r' := Extract.Place(r, d, root, dst, h, force); !r'.failed && r'.fs.faults == []
  {
    CalmLookup(r.fs, d, dst);
    CalmFaults(r.fs, d, dst);
    if h.flag.Directory? {
      DirCalm(r, d, dst, h.mode);
    } else {
      var c := Cleared(r, d, dst, force);
      Freed(r, d, dst, force);
      CalmFreed(r.fs, c.fs, d, dst);
      assert c.fs.Writable(Parent(d + dst));
      PlaceCleared(r, d, root, dst, h, force);
      if h.flag.HardLink? {
        SourceCalmFreed(r.fs, c.fs, d, LinkSource(root, h.linkname), dst);
      }
      hide Calm, Cleared, Plain, Fs.Writable, ExtractReg, ExtractSymlink, ExtractHardLink;
      match h.flag {
        case Reg => RegCalm(c, d, dst, h.mode, h.content);
        case SymLink => SymlinkCalm(c, d, dst, h.linkname);
        case HardLink => HardLinkCalm(c, d, LinkSource(root, h.linkname), dst, h.mode);
      }
    }
  }

  lemma CalmFreed(a: Fs, b: Fs, d: Path, dst: Path)
    requires Calm(a, d, dst) && b.faults == [] && b.inodes == a.inodes && d + dst != []
    requires b.nodes == a.nodes || (b.nodes == a.nodes - {d + dst} && d + dst in a.nodes && !a.nodes[d + dst].Dir?)
    ensures Calm(b, d, dst) && Parent(d + dst) != d + dst
  {
    SourceCalmFreed(a, b, d, dst, dst);
  }

  lemma SourceCalmFreed(a: Fs, b: Fs, d: Path, src: Path, dst: Path)
    requires Calm(a, d, src) && b.faults == [] && b.inodes == a.inodes && d + dst != []
    requires b.nodes == a.nodes || (b.nodes == a.nodes - {d + dst} && d + dst in a.nodes && !a.nodes[d + dst].Dir?)
    ensures Calm(b, d, src)
  {
    assert forall p :: a.IsDir(p) ==> b.IsDir(p) && b.nodes[p] == a.nodes[p];
    var up := src[..|src| - 1];
    forall k | 0 <= k <= |up| ensures b.Searchable(d + up[..k]) {
      assert a.Searchable(d + up[..k]);
    }
  }

  /** A header that can be put down is. */
  lemma StepPut(j: Job, n: nat, r: Run, top: Name, force: bool)
    requires Running(j, n, r, top) && r.fs.faults == [] && n < |j.hs| && AllPuttable(j.fs0, j.d, top, j.root, j.hs, force)
    ensures Fits(j, n, r, top, force)
    ensures var r' := Step(r, j.d, top, j.root, j.hs[n], force); !r'.failed && r'.fs.faults == []
  {
    var h, d := j.hs[n], j.d;
    RunningFacts(j, n, r, top);
    if Kept(h) {
      var dst := Target(j.root, h);
      PlaceNow(j, n, r, top, force);
      if h.flag.HardLink? {
        SourceNow(j, n, r, top, force);
        var m := SourceIndex(j.hs, n);
        ApartFrom(j, n, top, m);
        assert LinkSource(j.root, h.linkname) == Target(j.root, j.hs[m]);
      }
      hide CleanName, AllPuttable, Acceptable, Good, Running, Calm, Extract.Place, Fs.Writable, Step, Stood, Queued, History, BelowTop;
      var safe := StepPlaces(r, d, top, j.root, h, force);
      PlaceCalm(r.(safe := safe), d, j.root, dst, h, force);
    } else {
      assert Puttable(j.fs0, j.d, top, j.root, j.hs, n, force);
      hide CleanName, Acceptable, Good, Running, Stood, Queued, History, BelowTop, AllPuttable;
    }
  }

  /** With nothing failing, an archive that can all be put down is. */
  lemma {:induction false} StepsPut(j: Job, n: nat, r: Run, top: Name, force: bool)
    requires Running(j, n, r, top) && r.fs.faults == [] && AllPuttable(j.fs0, j.d, top, j.root, j.hs, force)
    ensures var r' := Steps(r, j.d, top, j.root, j.hs[n..], force); Running(j, |j.hs|, r', top) && r'.fs.faults == []
    decreases |j.hs| - n
  {
    RunningFacts(j, n, r, top);
    hide Step, Running, AllPuttable, Fits;
    if n < |j.hs| {
      StepPut(j, n, r, top, force);
      StepRuns(j, n, r, top, force);
      assert j.hs[n..][1..] == j.hs[n + 1..];
      StepsPut(j, n + 1, Step(r, j.d, top, j.root, j.hs[n], force), top, force);
    }
  }

  // ---------------------------------------------------------------------
  // The waiting modes
  // ---------------------------------------------------------------------

  /** The first of these modes to be set is the last directory's. */
  lemma OneModeSet(j: Job, n: nat, fs: Fs, safe: set<Path>, dirs: seq<DirMode>)
    requires Good(j, n, fs, safe, dirs) && dirs != []
    ensures var e := dirs[|dirs| - 1];
            var (fs', ok) := Chmod(fs, j.d, e.path, e.mode);
            && Good(j, n, fs', safe, dirs[..|dirs| - 1])
            && (ok ==> fs'.nodes == fs.nodes[j.d + e.path := Dir(e.mode)] && fs'.inodes == fs.inodes && fs'.umask == fs.umask)
  {
    LastQueued(j, n, fs, safe, dirs);
    hide Good, Chmod, PlaceOk;
    var e := dirs[|dirs| - 1];
    ChmodKeeps(j, n, fs, safe, dirs[..|dirs| - 1], e.path, e.mode);
    DirModeSet(j, fs, e);
  }

  lemma LastQueued(j: Job, n: nat, fs: Fs, safe: set<Path>, dirs: seq<DirMode>)
    requires Good(j, n, fs, safe, dirs) && dirs != []
    ensures Good(j, n, fs, safe, dirs[..|dirs| - 1]) && fs.WellFormed()
    ensures PlaceOk(j, fs, dirs[|dirs| - 1].path) && fs.IsDir(j.d + dirs[|dirs| - 1].path)
  {
    var e, rest := dirs[|dirs| - 1], dirs[..|dirs| - 1];
    hide CacheOk, Confined, Placed, Fs.WellFormed, Done, Plain;
    assert e in dirs;
    assert forall x :: x in rest ==> x in dirs;
    assert j.Base() <= j.d + e.path;
    ExistingIsPlain(fs, j.d, e.path);
  }

  lemma DirModeSet(j: Job, fs: Fs, e: DirMode)
    requires PlaceOk(j, fs, e.path) && fs.WellFormed() && fs.IsDir(j.d + e.path)
    ensures var (fs', ok) := Chmod(fs, j.d, e.path, e.mode);
            ok ==> fs'.nodes == fs.nodes[j.d + e.path := Dir(e.mode)] && fs'.inodes == fs.inodes && fs'.umask == fs.umask
  {
    ChmodPlain(fs, j.d, e.path, e.mode, j.Base());
    hide Walk, Plain, OnlyAt, Fs.WellFormed;
  }

  /** Every directory of `dirs` has its mode, and nothing else changed. */
  ghost predicate ModesAre(d: Path, dirs: seq<DirMode>, a: Fs, b: Fs) {
    && b.inodes == a.inodes && b.umask == a.umask
    && (forall i :: 0 <= i < |dirs| ==> d + dirs[i].path in b.nodes && b.nodes[d + dirs[i].path] == Dir(dirs[i].mode))
    && (forall p :: SameAt(p, a, b) || exists i :: 0 <= i < |dirs| && p == d + dirs[i].path)
  }

  /** Setting the modes, if that succeeds, gives every waiting directory its own and
      changes nothing else. */
  lemma {:induction false} ModesSet(j: Job, n: nat, fs: Fs, safe: set<Path>, dirs: seq<DirMode>)
    requires Good(j, n, fs, safe, dirs) && forall i, k :: 0 <= i < k < |dirs| ==> !(dirs[k].path <= dirs[i].path)
    ensures ChmodDirs(fs, j.d, dirs).1 ==> ModesAre(j.d, dirs, fs, ChmodDirs(fs, j.d, dirs).0)
    decreases |dirs|
  {
    hide Good, Chmod;
    if dirs != [] {
      var e, rest := dirs[|dirs| - 1], dirs[..|dirs| - 1];
      OneModeSet(j, n, fs, safe, dirs);
      var (fs1, ok) := Chmod(fs, j.d, e.path, e.mode);
      if ok {
        ModesSet(j, n, fs1, safe, rest);
        var (fs', done) := ChmodDirs(fs1, j.d, rest);
        hide ChmodDirs;
        if done {
          ModesMore(j.d, dirs, fs, fs1, fs');
        }
      }
    }
  }

  lemma ModesMore(d: Path, dirs: seq<DirMode>, a: Fs, b: Fs, c: Fs)
    requires dirs != [] && forall i, k :: 0 <= i < k < |dirs| ==> !(dirs[k].path <= dirs[i].path)
    requires var e := dirs[|dirs| - 1]; b.nodes == a.nodes[d + e.path := Dir(e.mode)] && b.inodes == a.inodes && b.umask == a.umask
    requires ModesAre(d, dirs[..|dirs| - 1], b, c)
    ensures ModesAre(d, dirs, a, c)
  {
    var n, q := |dirs| - 1, d + dirs[|dirs| - 1].path;
    forall i | 0 <= i < n ensures d + dirs[i].path != q {
      assert (d + dirs[i].path)[|d|..] == dirs[i].path && q[|d|..] == dirs[n].path;
    }
    assert SameAt(q, b, c);
    forall p ensures SameAt(p, a, c) || exists i :: 0 <= i < |dirs| && p == d + dirs[i].path {
      if p != q && !SameAt(p, b, c) {
        var i :| 0 <= i < n && p == d + dirs[..n][i].path;
        assert p == d + dirs[i].path;
      }
    }
  }

  // ---------------------------------------------------------------------
  // The whole extraction
  // ---------------------------------------------------------------------

  /** Everything the archive names stands, and no file that was there was touched. */
  ghost predicate Unpacked(a: Fs, b: Fs, d: Path, root: Name, hs: seq<Header>) {
    && OldInodes(a, b)
    && forall k :: 0 <= k < |hs| && Kept(hs[k]) ==> CleanName(hs[k].name).Some? && Stands(a, b, d, root, hs[k], true)
  }

  lemma StandsSettled(j: Job, n: nat, top: Name, dirs: seq<DirMode>, fs: Fs, fs': Fs, h: Header)
    requires Queued(j, n, dirs) && ModesAre(j.d, dirs, fs, fs') && n == |j.hs| && h in j.hs && Kept(h) && CleanName(h.name).Some?
    requires Stands(j.fs0, fs, j.d, j.root, h, false) && (forall e :: e in dirs ==> fs.IsDir(j.d + e.path))
    ensures Stands(j.fs0, fs', j.d, j.root, h, true)
  {
    hide CleanName, LinkSource;
    var q := j.d + Target(j.root, h);
    if h.flag.Directory? {
      if q !in j.fs0.nodes {
        var k :| 0 <= k < |j.hs| && j.hs[k] == h;
        assert DirMode(Target(j.root, h), h.mode) in dirs;
      } else {
        assert SameAt(q, fs, fs');
      }
    } else {
      forall i | 0 <= i < |dirs| ensures fs.IsDir(j.d + dirs[i].path) {
        assert dirs[i] in dirs;
      }
      assert forall p :: p in fs.nodes && !fs.nodes[p].Dir? ==> SameAt(p, fs, fs');
    }
  }

  lemma RunStarts(fs: Fs, d: Path, top: Name, root: Name, hs: seq<Header>)
    requires fs.WellFormed() && fs.IsDir(d) && Normal(root) && Acceptable(hs)
    ensures Running(Job(fs, d, root, hs), 0, Run(fs, {}, [], false), top)
  {
    hide Acceptable, CleanName;
    StartsGood(Job(fs, d, root, hs));
  }

  lemma EntryEnds(j: Job, r: Run, top: Name, fs': Fs, k: nat)
    requires Running(j, |j.hs|, r, top) && ModesAre(j.d, r.dirs, r.fs, fs') && k < |j.hs| && Kept(j.hs[k])
    ensures CleanName(j.hs[k].name).Some? && Stands(j.fs0, fs', j.d, j.root, j.hs[k], true)
  {
    hide Acceptable, CleanName, History, Stands, LinkSource, ModesAre, CacheOk, Confined, Placed, Fs.WellFormed;
    assert forall e :: e in r.dirs ==> r.fs.IsDir(j.d + e.path);
    assert Stands(j.fs0, r.fs, j.d, j.root, j.hs[k], false);
    StandsSettled(j, |j.hs|, top, r.dirs, r.fs, fs', j.hs[k]);
  }

  /** A run that put everything down, once the modes are set. */
  lemma RunEnds(j: Job, r: Run, top: Name)
    requires Running(j, |j.hs|, r, top)
    ensures var (fs', ok) := ChmodDirs(r.fs, j.d, r.dirs); ok ==> Unpacked(j.fs0, fs', j.d, j.root, j.hs) && fs'.umask == j.fs0.umask
  {
    hide Acceptable, Good, CleanName, ChmodDirs, History, Stands, Running, LinkSource, BelowTop;
    RunningFacts(j, |j.hs|, r, top);
    ModesSet(j, |j.hs|, r.fs, r.safe, r.dirs);
    hide Queued;
    var (fs', ok) := ChmodDirs(r.fs, j.d, r.dirs);
    if ok {
      forall k | 0 <= k < |j.hs| && Kept(j.hs[k])
        ensures CleanName(j.hs[k].name).Some? && Stands(j.fs0, fs', j.d, j.root, j.hs[k], true)
      {
        EntryEnds(j, r, top, fs', k);
      }
    }
  }

  /** Main result: an extraction that answers true has put down every entry of the
      archive, file for file, whatever failed on the way, with or without force, if the
      places of its files and links were free. */
  lemma ExtractionPuts(fs: Fs, d: Path, top: Name, root: Name, tar: Tar, force: bool)
    requires fs.WellFormed() && fs.IsDir(d) && Normal(root) && Acceptable(tar.headers)
    requires FreeFiles(fs, d, root, tar.headers)
    ensures var (fs', ok) := Extraction(fs, d, top, root, tar, force);
            ok ==> !tar.broken && Unpacked(fs, fs', d, root, tar.headers) && fs'.umask == fs.umask
  {
    hide Steps, ChmodDirs, CleanName, Running, FreeFiles, Unpacked, Acceptable, Fs.WellFormed;
    var j := Job(fs, d, root, tar.headers);
    RunStarts(fs, d, top, root, tar.headers);
    assert j.hs[0..] == j.hs;
    StepsRun(j, 0, Run(fs, {}, [], false), top, force);
    var r := Steps(Run(fs, {}, [], false), d, top, root, tar.headers, force);
    if !r.failed {
      RunEnds(j, r, top);
    }
  }

  /** The directories that wait can be got to. */
  lemma QueueClimbs(j: Job, r: Run, top: Name, force: bool)
    requires Running(j, |j.hs|, r, top) && AllPuttable(j.fs0, j.d, top, j.root, j.hs, force)
    ensures Climbing(r.fs, j.d, r.dirs)
  {
    RunningFacts(j, |j.hs|, r, top);
    hide Acceptable, History, CleanName, Stands, Running, AllPuttable, Stood, CacheOk, Confined, Placed, BelowTop, Fs.WellFormed;
    forall i | 0 <= i < |r.dirs|
      ensures r.dirs[i].path != [] && AllNormal(r.dirs[i].path) && r.fs.IsDir(j.d + r.dirs[i].path)
      ensures AllSearchable(r.fs, j.d, r.dirs[i].path[..|r.dirs[i].path| - 1])
    {
      var e := r.dirs[i];
      assert e in r.dirs;
      var k :| 0 <= k < |j.hs| && Kept(j.hs[k]) && CleanName(j.hs[k].name).Some? && Target(j.root, j.hs[k]) == e.path;
      PuttableOpen(j, k, top, force);
      WayStands(j, |j.hs|, r, top, force, e.path);
    }
  }

  lemma PuttableOpen(j: Job, k: nat, top: Name, force: bool)
    requires AllPuttable(j.fs0, j.d, top, j.root, j.hs, force) && k < |j.hs| && Kept(j.hs[k])
    ensures CleanName(j.hs[k].name).Some? && Open(j.fs0, j.d, j.root, j.hs, |j.hs|, Target(j.root, j.hs[k]))
  {
    assert Puttable(j.fs0, j.d, top, j.root, j.hs, k, force);
    hide CleanName, Open, AllPuttable;
    OpenGrows(j.fs0, j.d, j.root, j.hs, k, |j.hs|, Target(j.root, j.hs[k]));
  }

  /** Main result: with nothing failing, an archive all of whose entries can be put
      down, with force over files and links, is extracted, and everything stands. */
  lemma ExtractionQuiet(fs: Fs, d: Path, top: Name, root: Name, tar: Tar, force: bool)
    requires fs.WellFormed() && fs.IsDir(d) && Normal(root) && Acceptable(tar.headers) && !tar.broken && fs.faults == []
    requires AllPuttable(fs, d, top, root, tar.headers, force)
    ensures var (fs', ok) := Extraction(fs, d, top, root, tar, force);
            ok && Unpacked(fs, fs', d, root, tar.headers) && fs'.umask == fs.umask && fs'.faults == []
  {
    hide Steps, ChmodDirs, CleanName, Running, AllPuttable, Unpacked, Acceptable, Fs.WellFormed, Climbing;
    var j := Job(fs, d, root, tar.headers);
    RunStarts(fs, d, top, root, tar.headers);
    assert j.hs[0..] == j.hs;
    StepsPut(j, 0, Run(fs, {}, [], false), top, force);
    var r := Steps(Run(fs, {}, [], false), d, top, root, tar.headers, force);
    RunningFacts(j, |j.hs|, r, top);
    hide Good, History, Stood, Queued, BelowTop;
    QueueClimbs(j, r, top, force);
    ChmodDirsCalm(r.fs, d, r.dirs);
    RunEnds(j, r, top);
  }
}
