/** What an extraction leaves alone: with or without force, every path the
    archive does not name; without force and without conflicts, everything that
    was there before. */
module NoClobber {
  import opened Wrappers
  import opened FileSystem
  import opened Archive
  import opened Extract
  import opened ExtractSafety

  /** `p` is where one of the first `n` headers was extracted to. */
  ghost predicate DoneAt(j: Job, n: nat, p: Path) {
    j.d <= p && Done(j.root, j.hs, n, p[|j.d|..])
  }

  /** Nodes differ only where headers went, a directory that is still one keeps
      its mode, and the directories waiting for a mode are all new. */
  ghost predicate History(j: Job, n: nat, fs: Fs, dirs: seq<DirMode>) {
    && (forall p :: !DoneAt(j, n, p) ==> SameAt(p, j.fs0, fs))
    && (forall p :: j.fs0.IsDir(p) && fs.IsDir(p) ==> SameAt(p, j.fs0, fs))
    && (forall e :: e in dirs ==> j.d + e.path !in j.fs0.nodes)
  }

  lemma DoneAtNext(j: Job, n: nat, dst: Path)
    requires Next(j, n, dst)
    ensures DoneAt(j, n + 1, j.d + dst)
    ensures forall p :: DoneAt(j, n, p) ==> DoneAt(j, n + 1, p)
  {
    hide CleanName;
    assert (j.d + dst)[|j.d|..] == dst;
    NextDone(j, n, dst);
    forall p | DoneAt(j, n, p) ensures DoneAt(j, n + 1, p) {
      DoneMore(j.root, j.hs, n, p[|j.d|..]);
    }
  }

  lemma DoneMore(root: Name, hs: seq<Header>, n: nat, p: Path)
    requires Done(root, hs, n, p) && n < |hs|
    ensures Done(root, hs, n + 1, p)
  {
    hide CleanName;
    var k :| 0 <= k < n <= |hs| && Kept(hs[k]) && CleanName(hs[k].name).Some? && Target(root, hs[k]) == p;
  }

  lemma StepHistory(j: Job, n: nat, r: Run, top: Name, force: bool)
    requires Good(j, n, r.fs, r.safe, r.dirs) && BelowTop(j.hs, top, n) && !r.failed
    requires n < |j.hs| && Acceptable(j.hs) && Normal(j.root)
    requires History(j, n, r.fs, r.dirs)
    ensures var r' := Step(r, j.d, top, j.root, j.hs[n], force); History(j, n + 1, r'.fs, r'.dirs)
  {
    hide Good, Acceptable, CleanName, Step;
    StepKeeps(j, n, r, top, force);
    var r' := Step(r, j.d, top, j.root, j.hs[n], force);
    forall p | DoneAt(j, n, p) ensures DoneAt(j, n + 1, p) {
      DoneMore(j.root, j.hs, n, p[|j.d|..]);
    }
    if r'.fs.nodes == r.fs.nodes && r'.dirs == r.dirs {
      forall p | !DoneAt(j, n + 1, p) || (j.fs0.IsDir(p) && r'.fs.IsDir(p)) ensures SameAt(p, j.fs0, r'.fs) {
        assert SameAt(p, j.fs0, r.fs);
      }
    } else {
      var dst := Target(j.root, j.hs[n]);
      var q := j.d + dst;
      StepBelowTop(j, n, r, top, force);
      NotDoneHere(j, top, n);
      DoneAtNext(j, n, dst);
      assert q[|j.d|..] == dst;
      assert SameAt(q, j.fs0, r.fs);
      forall p | p != q ensures SameAt(p, r.fs, r'.fs) {
      }
      forall p | !DoneAt(j, n + 1, p) || (j.fs0.IsDir(p) && r'.fs.IsDir(p)) ensures SameAt(p, j.fs0, r'.fs) {
        if p != q {
          assert SameAt(p, r.fs, r'.fs);
          assert SameAt(p, j.fs0, r.fs);
        }
      }
    }
  }

  /** A header that changes something names something below `top`. */
  lemma StepBelowTop(j: Job, n: nat, r: Run, top: Name, force: bool)
    requires n < |j.hs| && Kept(j.hs[n]) && CleanName(j.hs[n].name).Some? && !r.failed
    requires var r' := Step(r, j.d, top, j.root, j.hs[n], force); r'.fs.nodes != r.fs.nodes || r'.dirs != r.dirs
    ensures CleanName(j.hs[n].name).value[0] == top
  {
    hide CleanName, CheckParents, Place;
  }

  lemma ChmodHistory(j: Job, n: nat, fs: Fs, safe: set<Path>, dirs: seq<DirMode>, e: DirMode)
    requires Good(j, n, fs, safe, dirs) && History(j, n, fs, dirs) && e in dirs
    ensures var fs' := Chmod(fs, j.d, e.path, e.mode).0;
            History(j, n, fs', dirs) && fs'.inodes == fs.inodes && forall p :: p in fs.nodes ==> p in fs'.nodes
  {
    hide Chmod;
    ExistingIsPlain(fs, j.d, e.path);
    assert j.Base() <= j.d + e.path;
    ChmodPlain(fs, j.d, e.path, e.mode, j.Base());
    var fs', q := Chmod(fs, j.d, e.path, e.mode).0, j.d + e.path;
    assert q[|j.d|..] == e.path;
    assert DoneAt(j, n, q);
    forall p | !DoneAt(j, n, p) || (j.fs0.IsDir(p) && fs'.IsDir(p)) ensures SameAt(p, j.fs0, fs') {
      assert p != q;
      assert SameAt(p, fs, fs');
      assert SameAt(p, j.fs0, fs);
    }
  }

  lemma {:induction false} ChmodDirsHistory(j: Job, n: nat, fs: Fs, safe: set<Path>, dirs: seq<DirMode>)
    requires Good(j, n, fs, safe, dirs) && History(j, n, fs, dirs)
    ensures var fs' := ChmodDirs(fs, j.d, dirs).0; History(j, n, fs', []) && fs'.inodes == fs.inodes
    decreases |dirs|
  {
    hide Chmod;
    if dirs != [] {
      var e, rest := dirs[|dirs| - 1], dirs[..|dirs| - 1];
      assert e in dirs;
      ChmodHistory(j, n, fs, safe, dirs, e);
      var (fs', ok) := Chmod(fs, j.d, e.path, e.mode);
      assert forall x :: x in rest ==> x in dirs;
      if ok {
        ExistingIsPlain(fs, j.d, e.path);
        assert j.Base() <= j.d + e.path;
        ChmodKeeps(j, n, fs, safe, dirs, e.path, e.mode);
        assert Good(j, n, fs', safe, rest);
        ChmodDirsHistory(j, n, fs', safe, rest);
      }
    }
  }

  /** StepsKeep and StepHistory along the whole archive. */
  lemma {:induction false} StepsHistory(j: Job, n: nat, r: Run, top: Name, force: bool) returns (m: nat)
    requires Good(j, n, r.fs, r.safe, r.dirs) && BelowTop(j.hs, top, n) && !r.failed
    requires n <= |j.hs| && Acceptable(j.hs) && Normal(j.root)
    requires History(j, n, r.fs, r.dirs)
    ensures var r' := Steps(r, j.d, top, j.root, j.hs[n..], force);
            && m <= |j.hs| && History(j, m, r'.fs, r'.dirs)
            && (!r'.failed ==> Good(j, m, r'.fs, r'.safe, r'.dirs))
    decreases |j.hs| - n
  {
    hide Good, Step, BelowTop, History;
    m := n;
    if n < |j.hs| {
      StepKeeps(j, n, r, top, force);
      StepHistory(j, n, r, top, force);
      var r' := Step(r, j.d, top, j.root, j.hs[n], force);
      assert j.hs[n..][1..] == j.hs[n + 1..];
      m := n + 1;
      if !r'.failed {
        m := StepsHistory(j, n + 1, r', top, force);
      }
    }
  }

  /** Some header of the archive is extracted to `p`. */
  ghost predicate NamedAt(d: Path, root: Name, hs: seq<Header>, p: Path) {
    exists k :: 0 <= k < |hs| && Kept(hs[k]) && CleanName(hs[k].name).Some? && p == d + Target(root, hs[k])
  }

  /** Main result: with or without force, an extraction changes no node the
      archive does not name, and no mode of a directory that was there before. */
  lemma OnlyNamedPathsChange(fs: Fs, d: Path, top: Name, root: Name, tar: Tar, force: bool)
    requires fs.WellFormed() && fs.IsDir(d) && Normal(root) && Acceptable(tar.headers)
    ensures var fs' := Extraction(fs, d, top, root, tar, force).0;
            && (forall p :: !NamedAt(d, root, tar.headers, p) ==> SameAt(p, fs, fs'))
            && (forall p :: fs.IsDir(p) && fs'.IsDir(p) ==> SameAt(p, fs, fs'))
  {
    hide Steps, ChmodDirs, CleanName, Good;
    var j := Job(fs, d, root, tar.headers);
    StartsGood(j);
    assert j.hs[0..] == j.hs;
    var m := StepsHistory(j, 0, Run(fs, {}, [], false), top, force);
    var r := Steps(Run(fs, {}, [], false), d, top, root, tar.headers, force);
    if !r.failed {
      ChmodDirsHistory(j, m, r.fs, r.safe, r.dirs);
    }
    forall p | DoneAt(j, m, p) ensures NamedAt(d, root, tar.headers, p) {
      assert p == d + p[|d|..];
    }
  }

  // ---------------------------------------------------------------------
  // Without force
  // ---------------------------------------------------------------------

  ghost predicate SameStore(a: Fs, b: Fs) { b.nodes == a.nodes && b.inodes == a.inodes }

  ghost predicate OldInodes(a: Fs, b: Fs) {
    forall i :: i in a.inodes ==> i in b.inodes && b.inodes[i] == a.inodes[i]
  }

  /** Everything of `a` is in `b` unchanged: nodes, modes, and files, none of
      which was opened to be written. */
  ghost predicate Intact(a: Fs, b: Fs) {
    && (forall p :: p in a.nodes ==> SameAt(p, a, b))
    && OldInodes(a, b)
  }

  /** A name that came since `a` is of a file that came since `a`. */
  ghost predicate Apart(a: Fs, b: Fs) {
    forall p :: p in b.nodes && p !in a.nodes && b.nodes[p].File? ==> b.nodes[p].ino !in a.inodes
  }

  ghost predicate Spared(a: Fs, b: Fs) { Intact(a, b) && Apart(a, b) }

  lemma SparedSame(a: Fs, b: Fs, c: Fs)
    requires Spared(a, b) && SameStore(b, c)
    ensures Spared(a, c)
  {
    forall p | p in a.nodes ensures SameAt(p, a, c) {
      assert SameAt(p, a, b);
    }
  }

  /** A call that touches only a path that is not in `a`, and puts no file of `a`
      there. */
  lemma TouchedSpares(a: Fs, b: Fs, c: Fs, base: Path, q: Path)
    requires Spared(a, b) && OnlyAt(base, q, b, c) && q !in a.nodes
    requires q in c.nodes && c.nodes[q].File? ==>
               SameAt(q, b, c) || c.nodes[q].ino !in b.inodes || c.nodes[q].ino !in a.inodes
    ensures Spared(a, c)
  {
    forall p | p in a.nodes ensures SameAt(p, a, c) {
      assert SameAt(p, a, b) && SameAt(p, b, c);
    }
    forall p | p in c.nodes && p !in a.nodes && c.nodes[p].File? ensures c.nodes[p].ino !in a.inodes {
      assert p != q ==> SameAt(p, b, c);
    }
  }

  /** A file the owner may write, where a lookup gets to it. */
  ghost predicate Overwritable(fs: Fs, d: Path, dst: Path)
    requires dst != []
  {
    && AllSearchable(fs, d, dst[..|dst| - 1])
    && d + dst in fs.nodes && fs.nodes[d + dst].File?
    && fs.nodes[d + dst].ino in fs.inodes && OwnerWrite in fs.inodes[fs.nodes[d + dst].ino].mode
  }

  ghost predicate Readable(fs: Fs, p: Path) {
    p in fs.nodes && fs.nodes[p].File? && fs.nodes[p].ino in fs.inodes && OwnerRead in fs.inodes[fs.nodes[p].ino].mode
  }

  /** Header `n`, extracted now, may open a file of `a`: it is a regular file, or
      a hard link that ends up copied from a file that can be read. */
  ghost predicate Opening(a: Fs, j: Job, n: nat, fs: Fs)
    requires n < |j.hs|
  {
    var h := j.hs[n];
    && (h.flag.Reg? || h.flag.HardLink?) && CleanName(h.name).Some?
    && j.d + Target(j.root, h) in a.nodes && Overwritable(fs, j.d, Target(j.root, h))
    && (h.flag.HardLink? ==> Readable(fs, j.d + LinkSource(j.root, h.linkname)))
  }

  lemma OpeningSame(a: Fs, j: Job, n: nat, fs: Fs, fs': Fs)
    requires n < |j.hs| && SameStore(fs, fs')
    ensures Opening(a, j, n, fs) <==> Opening(a, j, n, fs')
  {
    hide CleanName;
    if CleanName(j.hs[n].name).Some? {
      var up := Target(j.root, j.hs[n])[..|Target(j.root, j.hs[n])| - 1];
      assert forall p :: fs.Searchable(p) <==> fs'.Searchable(p);
      assert AllSearchable(fs, j.d, up) <==> AllSearchable(fs', j.d, up);
    }
  }

  /** The directories waiting for a mode, and the files the first `n` headers
      put down, came since `a`. */
  ghost predicate Newcomers(a: Fs, j: Job, n: nat, dirs: seq<DirMode>) {
    && (forall e :: e in dirs ==> j.d + e.path !in a.nodes)
    && (forall k :: 0 <= k < n <= |j.hs| && Kept(j.hs[k]) && !j.hs[k].flag.Directory? && CleanName(j.hs[k].name).Some? ==>
          j.d + Target(j.root, j.hs[k]) !in a.nodes)
  }

  lemma MkdirSpares(a: Fs, fs: Fs, d: Path, dst: Path, mode: Perm, base: Path)
    requires Spared(a, fs) && Plain(fs, d, dst) && base <= d + dst && fs.WellFormed()
    ensures var (fs', ok) := Mkdir(fs, d, dst, mode);
            Spared(a, fs') && (ok ==> d + dst !in a.nodes) && (!ok ==> SameStore(fs, fs'))
  {
    hide Mkdir, NoLinks, AllNormal;
    MkdirPlain(fs, d, dst, mode, base);
    var (fs', ok) := Mkdir(fs, d, dst, mode);
    hide OnlyAt;
    if ok {
      assert d + dst in a.nodes ==> SameAt(d + dst, a, fs);
      TouchedSpares(a, fs, fs', base, d + dst);
    } else {
      SparedSame(a, fs, fs');
    }
  }

  lemma SymlinkSpares(a: Fs, fs: Fs, d: Path, dst: Path, target: string, base: Path)
    requires Spared(a, fs) && Plain(fs, d, dst) && base <= d + dst && fs.WellFormed()
    ensures var (fs', ok) := Symlink(fs, d, dst, target);
            Spared(a, fs') && (ok ==> d + dst !in a.nodes)
  {
    hide Symlink, NoLinks, AllNormal;
    SymlinkPlain(fs, d, dst, target, base);
    var (fs', ok) := Symlink(fs, d, dst, target);
    hide OnlyAt;
    if ok {
      assert d + dst in a.nodes ==> SameAt(d + dst, a, fs);
      TouchedSpares(a, fs, fs', base, d + dst);
    } else {
      SparedSame(a, fs, fs');
    }
  }

  /** Opening for writing where no file of `a` can be opened. */
  lemma OpenTruncSpares(a: Fs, fs: Fs, d: Path, dst: Path, mode: Perm, base: Path)
    requires Spared(a, fs) && Plain(fs, d, dst) && base <= d + dst && fs.WellFormed() && d + dst != []
    requires d + dst in a.nodes ==> !Overwritable(fs, d, dst)
    ensures var (fs', ino) := OpenTrunc(fs, d, dst, mode);
            && Spared(a, fs') && fs'.WellFormed() && Plain(fs', d, dst)
            && (ino.None? ==> SameStore(fs, fs'))
            && (ino.Some? ==> d + dst !in a.nodes && ino.value in fs'.inodes && ino.value !in a.inodes)
            && (ino.Some? ==> d + dst in fs'.nodes && fs'.nodes[d + dst] == File(ino.value))
  {
    OpenTruncPlain(fs, d, dst, mode, base);
    hide OpenTrunc, OnlyAt, AllSearchable;
    var (fs', ino) := OpenTrunc(fs, d, dst, mode);
    if ino.Some? {
      assert d + dst in a.nodes ==> SameAt(d + dst, a, fs);
      assert d + dst !in a.nodes;
      OpenedIsNew(a, fs, fs', base, d + dst, ino.value);
      TouchedSpares(a, fs, fs', base, d + dst);
      TreeKept(fs, fs', base, d + dst);
      PlainStays(fs, fs', d, dst);
    } else {
      SparedSame(a, fs, fs');
    }
  }

  lemma OpenedIsNew(a: Fs, b: Fs, c: Fs, base: Path, q: Path, i: nat)
    requires Spared(a, b) && q !in a.nodes
    requires c.nodes == b.nodes[q := File(i)]
    requires if q in b.nodes then b.nodes[q] == File(i) else i !in b.inodes
    ensures i !in a.inodes
    ensures forall p :: p != q ==> SameAt(p, b, c)
  {
  }

  lemma WriteAllSpares(a: Fs, fs: Fs, i: nat, content: Bytes)
    requires Spared(a, fs) && i in fs.inodes && i !in a.inodes
    ensures Spared(a, WriteAll(fs, i, content).0)
  {
    var fs' := WriteAll(fs, i, content).0;
    forall p | p in a.nodes ensures SameAt(p, a, fs') {
      assert SameAt(p, a, fs);
    }
  }

  lemma WriteAllTree(fs: Fs, i: nat, content: Bytes, d: Path, dst: Path)
    requires i in fs.inodes && fs.WellFormed() && Plain(fs, d, dst)
    ensures var fs' := WriteAll(fs, i, content).0; fs'.WellFormed() && Plain(fs', d, dst) && fs'.nodes == fs.nodes
  {
    hide AllNormal, NoLinks;
    var fs' := WriteAll(fs, i, content).0;
    assert forall p :: fs'.IsDir(p) <==> fs.IsDir(p);
    PlainStays(fs, fs', d, dst);
  }

  lemma ChmodSpares(a: Fs, fs: Fs, d: Path, dst: Path, mode: Perm, base: Path)
    requires Spared(a, fs) && Plain(fs, d, dst) && base <= d + dst && fs.WellFormed()
    requires d + dst in fs.nodes && !fs.nodes[d + dst].Link? && d + dst !in a.nodes
    ensures Spared(a, Chmod(fs, d, dst, mode).0)
  {
    hide Chmod, Plain;
    ChmodPlain(fs, d, dst, mode, base);
    hide OnlyAt;
    TouchedSpares(a, fs, Chmod(fs, d, dst, mode).0, base, d + dst);
  }

  lemma ExtractDirSpares(a: Fs, r: Run, d: Path, dst: Path, mode: Perm, base: Path)
    requires Spared(a, r.fs) && Plain(r.fs, d, dst) && base <= d + dst && r.fs.WellFormed()
    ensures var r' := ExtractDir(r, d, dst, mode);
            Spared(a, r'.fs) && (r'.dirs == r.dirs || (r'.dirs == r.dirs + [DirMode(dst, mode)] && d + dst !in a.nodes))
  {
    hide Lookup, Mkdir, Intact, Apart;
    var fs := Lstat(r.fs, d, dst).0;
    Ticks(r.fs, d, dst);
    SparedSame(a, r.fs, fs);
    hide Fs.WellFormed, Plain;
    MkdirSpares(a, fs, d, dst, mode + OWNER_ALL, base);
  }

  /** A call that only looks. */
  lemma Ticks(fs: Fs, d: Path, dst: Path)
    requires Plain(fs, d, dst) && fs.WellFormed()
    ensures Plain(fs.Tick(), d, dst) && fs.Tick().WellFormed() && SameStore(fs, fs.Tick())
    ensures AllSearchable(fs.Tick(), d, dst[..|dst| - 1]) <==> AllSearchable(fs, d, dst[..|dst| - 1])
  {
    assert forall p :: fs.Tick().Searchable(p) <==> fs.Searchable(p);
  }

  lemma ExtractRegSpares(a: Fs, r: Run, d: Path, dst: Path, mode: Perm, content: Bytes, base: Path)
    requires Spared(a, r.fs) && Plain(r.fs, d, dst) && base <= d + dst && r.fs.WellFormed() && d + dst != []
    requires d + dst in a.nodes ==> !Overwritable(r.fs, d, dst)
    ensures var r' := ExtractReg(r, d, dst, mode, content);
            Spared(a, r'.fs) && r'.dirs == r.dirs && (!r'.failed ==> d + dst !in a.nodes)
  {
    hide OpenTrunc, WriteAll, Chmod, Walk, NoLinks, AllNormal, Fs.WellFormed, Spared, Overwritable;
    OpenTruncSpares(a, r.fs, d, dst, mode, base);
    var (fs1, ino) := OpenTrunc(r.fs, d, dst, mode);
    if ino.Some? {
      WriteAllSpares(a, fs1, ino.value, content);
      WriteAllTree(fs1, ino.value, content, d, dst);
      var fs2 := WriteAll(fs1, ino.value, content).0;
      ChmodSpares(a, fs2, d, dst, mode, base);
      var fs3 := Chmod(fs2, d, dst, mode).0;
      SparedSame(a, fs3, Chtimes(fs3, d, dst).0);
    }
  }

  lemma ReadsReadable(fs: Fs, d: Path, src: Path)
    requires Plain(fs, d, src) && OpenRead(fs, d, src).1.Some?
    ensures Readable(fs, d + src)
  {
    hide Lookup, Plain;
    LookupPlain(fs, d, src);
  }

  lemma CopyFileSpares(a: Fs, fs: Fs, d: Path, src: Path, dst: Path, mode: Perm, base: Path)
    requires Spared(a, fs) && Plain(fs, d, dst) && Plain(fs, d, src) && base <= d + dst && fs.WellFormed() && d + dst != []
    requires d + dst in a.nodes && Readable(fs, d + src) ==> !Overwritable(fs, d, dst)
    ensures var (fs', ok) := CopyFile(fs, d, src, dst, mode);
            Spared(a, fs') && (ok ==> d + dst !in a.nodes)
  {
    hide OpenTrunc, WriteAll, Symlink, Lookup, NoLinks, AllNormal, Spared, AllSearchable, Fs.WellFormed;
    var (fs1, node) := Lstat(fs, d, src);
    Ticks(fs, d, dst);
    Ticks(fs, d, src);
    SparedSame(a, fs, fs1);
    if node.Some? && node.value.Link? {
      SymlinkSpares(a, fs1, d, dst, node.value.target, base);
    } else if node.Some? {
      var (fs2, from) := OpenRead(fs1, d, src);
      Ticks(fs1, d, dst);
      SparedSame(a, fs1, fs2);
      if from.Some? {
        ReadsReadable(fs1, d, src);
        assert d + dst in a.nodes ==> !Overwritable(fs2, d, dst);
        OpenTruncSpares(a, fs2, d, dst, mode, base);
        var (fs3, ino) := OpenTrunc(fs2, d, dst, mode);
        if ino.Some? && from.value in fs3.inodes {
          WriteAllSpares(a, fs3, ino.value, fs3.inodes[from.value].content);
        }
      }
    }
  }

  lemma ExtractHardLinkSpares(a: Fs, r: Run, d: Path, src: Path, dst: Path, mode: Perm, base: Path)
    requires Spared(a, r.fs) && Plain(r.fs, d, dst) && Plain(r.fs, d, src) && r.fs.WellFormed() && d + dst != []
    requires base <= d + dst && base <= d + src && d + src !in a.nodes
    requires d + dst in a.nodes && Readable(r.fs, d + src) ==> !Overwritable(r.fs, d, dst)
    ensures var r' := ExtractHardLink(r, d, src, dst, mode);
            Spared(a, r'.fs) && r'.dirs == r.dirs && (!r'.failed && !r.failed ==> d + dst !in a.nodes)
  {
    HardLinkPlain(r.fs, d, src, dst, base);
    var (fs1, linked) := FileSystem.HardLink(r.fs, d, src, dst);
    if linked {
      hide FileSystem.HardLink, OnlyAt, Plain, Overwritable;
      assert d + dst in a.nodes ==> SameAt(d + dst, a, r.fs);
      assert fs1.nodes[d + dst] == r.fs.nodes[d + src];
      TouchedSpares(a, r.fs, fs1, base, d + dst);
    } else {
      HardLinkTicks(r.fs, d, src, dst);
      hide FileSystem.HardLink, CopyFile, Spared, Plain, AllSearchable, Fs.WellFormed;
      Ticks(r.fs, d, dst);
      Ticks(r.fs, d, src);
      SparedSame(a, r.fs, fs1);
      CopyFileSpares(a, fs1, d, src, dst, mode, base);
    }
  }

  lemma HardLinkTicks(fs: Fs, d: Path, src: Path, dst: Path)
    requires src != [] && dst != [] && !FileSystem.HardLink(fs, d, src, dst).1
    ensures FileSystem.HardLink(fs, d, src, dst).0 == fs.Tick()
  {
    hide Slot, Lookup;
  }

  lemma PlaceSpares(a: Fs, j: Job, n: nat, r: Run, dst: Path)
    requires Good(j, n, r.fs, r.safe, r.dirs) && PlaceOk(j, r.fs, dst) && Next(j, n, dst) && !r.failed
    requires Acceptable(j.hs) && Normal(j.root)
    requires Spared(a, r.fs) && Newcomers(a, j, n, r.dirs) && !Opening(a, j, n, r.fs)
    ensures var r' := Place(r, j.d, j.root, dst, j.hs[n], false);
            Spared(a, r'.fs) && Newcomers(a, j, n, r'.dirs)
            && (!r'.failed && !j.hs[n].flag.Directory? ==> j.d + dst !in a.nodes)
  {
    hide ExtractDir, ExtractReg, ExtractSymlink, ExtractHardLink, CleanName, Spared, Overwritable, Acceptable;
    var h, d, base := j.hs[n], j.d, j.Base();
    PlaceTree(j, n, r.fs, r.safe, r.dirs, dst);
    if h.flag.HardLink? {
      LinkSourcePlaced(j, n, r.fs, r.safe, r.dirs);
      LinkSourceNew(a, j, n, r.dirs);
    }
    hide Good, Plain;
    match h.flag {
      case Directory =>
        ExtractDirSpares(a, r, d, dst, h.mode, base);
      case Reg => ExtractRegSpares(a, r, d, dst, h.mode, h.content, base);
      case SymLink => LinkSpares(a, r, d, dst, h.linkname, base);
      case HardLink => ExtractHardLinkSpares(a, r, d, LinkSource(j.root, h.linkname), dst, h.mode, base);
    }
  }

  lemma LinkSpares(a: Fs, r: Run, d: Path, dst: Path, target: string, base: Path)
    requires Spared(a, r.fs) && Plain(r.fs, d, dst) && base <= d + dst && r.fs.WellFormed() && !r.failed
    ensures var r' := ExtractSymlink(r, d, dst, target);
            Spared(a, r'.fs) && r'.dirs == r.dirs && (!r'.failed ==> d + dst !in a.nodes)
  {
    hide Symlink, Plain, Spared, Fs.WellFormed;
    SymlinkSpares(a, r.fs, d, dst, target, base);
  }

  lemma PlaceTree(j: Job, n: nat, fs: Fs, safe: set<Path>, dirs: seq<DirMode>, dst: Path)
    requires Good(j, n, fs, safe, dirs) && PlaceOk(j, fs, dst)
    ensures fs.WellFormed() && Plain(fs, j.d, dst) && j.d + dst != []
  {
  }

  /** An accepted hard link's target is a file an earlier header put down. */
  lemma LinkSourceNew(a: Fs, j: Job, n: nat, dirs: seq<DirMode>)
    requires n < |j.hs| && Acceptable(j.hs) && j.hs[n].flag.HardLink? && Newcomers(a, j, n, dirs)
    ensures j.d + LinkSource(j.root, j.hs[n].linkname) !in a.nodes
  {
    hide CleanName;
    var k := SourceIndex(j.hs, n);
  }

  /** The header that puts down the file hard link `n` names. */
  ghost function SourceIndex(hs: seq<Header>, n: nat): (k: nat)
    requires n < |hs| && Acceptable(hs) && hs[n].flag.HardLink?
    ensures k < n && (hs[k].flag.Reg? || hs[k].flag.HardLink?)
    ensures CleanName(hs[n].linkname).Some? && CleanName(hs[k].name) == CleanName(hs[n].linkname)
    ensures forall root :: LinkSource(root, hs[n].linkname) == Target(root, hs[k])
  {
    hide CleanName;
    assert LinkInside(hs, n);
    var t := CleanName(hs[n].linkname).value;
    var k: nat :| k < n && Names(hs[..n][k], t) && hs[..n][k].flag in {Reg, HardLink};
    k
  }

  lemma StepSpares(a: Fs, j: Job, n: nat, r: Run, top: Name)
    requires Good(j, n, r.fs, r.safe, r.dirs) && BelowTop(j.hs, top, n) && !r.failed
    requires n < |j.hs| && Acceptable(j.hs) && Normal(j.root)
    requires Spared(a, r.fs) && Newcomers(a, j, n, r.dirs) && !Opening(a, j, n, r.fs)
    ensures var r' := Step(r, j.d, top, j.root, j.hs[n], false);
            && Spared(a, r'.fs) && Newcomers(a, j, n, r'.dirs)
            && (!r'.failed ==> Newcomers(a, j, n + 1, r'.dirs))
  {
    hide CleanName, CheckParents, Place, Good, PlaceOk, Acceptable, Opening, Spared;
    var h := j.hs[n];
    if Kept(h) && CleanName(h.name).Some? && CleanName(h.name).value[0] == top {
      TargetPlace(j, h);
      var dst := Target(j.root, h);
      ParentsKeep(j, n, r, dst);
      var (fs, safe, ok) := CheckParents(r.fs, r.safe, j.d, dst, 1);
      SparedSame(a, r.fs, fs);
      if ok {
        OpeningSame(a, j, n, r.fs, fs);
        PlaceSpares(a, j, n, r.(fs := fs, safe := safe), dst);
      }
    }
  }

  lemma ChmodDirSpares(a: Fs, j: Job, n: nat, fs: Fs, safe: set<Path>, dirs: seq<DirMode>, e: DirMode)
    requires Good(j, n, fs, safe, dirs) && Spared(a, fs) && Newcomers(a, j, n, dirs) && e in dirs
    ensures var fs' := Chmod(fs, j.d, e.path, e.mode).0; Good(j, n, fs', safe, dirs) && Spared(a, fs')
  {
    hide Chmod, Spared;
    ExistingIsPlain(fs, j.d, e.path);
    assert j.Base() <= j.d + e.path;
    ChmodKeeps(j, n, fs, safe, dirs, e.path, e.mode);
    ChmodSpares(a, fs, j.d, e.path, e.mode, j.Base());
  }

  lemma FewerDirs(a: Fs, j: Job, n: nat, fs: Fs, safe: set<Path>, dirs: seq<DirMode>)
    requires Good(j, n, fs, safe, dirs) && Newcomers(a, j, n, dirs) && dirs != []
    ensures Good(j, n, fs, safe, dirs[..|dirs| - 1]) && Newcomers(a, j, n, dirs[..|dirs| - 1])
  {
    hide CleanName;
    assert forall x :: x in dirs[..|dirs| - 1] ==> x in dirs;
  }

  lemma {:induction false} ChmodDirsSpare(a: Fs, j: Job, n: nat, fs: Fs, safe: set<Path>, dirs: seq<DirMode>)
    requires Good(j, n, fs, safe, dirs) && Spared(a, fs) && Newcomers(a, j, n, dirs)
    ensures Spared(a, ChmodDirs(fs, j.d, dirs).0)
    decreases |dirs|
  {
    hide Chmod, Good, Spared, Newcomers;
    if dirs != [] {
      var e := dirs[|dirs| - 1];
      ChmodDirSpares(a, j, n, fs, safe, dirs, e);
      var (fs', ok) := Chmod(fs, j.d, e.path, e.mode);
      if ok {
        FewerDirs(a, j, n, fs', safe, dirs);
        ChmodDirsSpare(a, j, n, fs', safe, dirs[..|dirs| - 1]);
      }
    }
  }

  /** Nothing the archive would put down is there already, where a lookup can
      see it, unless both are directories. */
  ghost predicate ConflictFree(fs: Fs, d: Path, root: Name, hs: seq<Header>) {
    forall k :: 0 <= k < |hs| && Kept(hs[k]) && CleanName(hs[k].name).Some? ==>
      NoConflictAt(fs, d, Target(root, hs[k]), hs[k].flag.Directory?)
  }

  ghost predicate NoConflictAt(fs: Fs, d: Path, dst: Path, isDir: bool)
    requires dst != []
  {
    Plain(fs, d, dst) && AllSearchable(fs, d, dst[..|dst| - 1]) && d + dst in fs.nodes ==>
      isDir && fs.IsDir(d + dst)
  }

  /** The way to what was there has not changed. */
  lemma WayThen(a: Fs, fs: Fs, d: Path, dst: Path)
    requires a.WellFormed() && Intact(a, fs) && dst != [] && d + dst in a.nodes
    requires AllSearchable(fs, d, dst[..|dst| - 1])
    ensures AllSearchable(a, d, dst[..|dst| - 1])
  {
    var up := dst[..|dst| - 1];
    forall k | 0 <= k <= |up| ensures a.Searchable(d + up[..k]) {
      AboveIsDir(a, d, dst, k);
      assert up[..k] == dst[..k];
      assert SameAt(d + up[..k], a, fs);
      assert fs.Searchable(d + up[..k]);
    }
  }

  /** Where nothing is in the way, no file of `a` can be opened. */
  lemma NoConflictNoOpening(a: Fs, j: Job, n: nat, fs: Fs)
    requires a.WellFormed() && Intact(a, fs) && Normal(j.root) && n < |j.hs|
    requires ConflictFree(a, j.d, j.root, j.hs)
    ensures !Opening(a, j, n, fs)
  {
    hide CleanName, Intact;
    if Kept(j.hs[n]) && CleanName(j.hs[n].name).Some? && j.d + Target(j.root, j.hs[n]) in a.nodes {
      var dst := Target(j.root, j.hs[n]);
      TargetPlace(j, j.hs[n]);
      ExistingIsPlain(a, j.d, dst);
      if AllSearchable(fs, j.d, dst[..|dst| - 1]) {
        WayThen(a, fs, j.d, dst);
        hide Plain, AllSearchable;
        assert NoConflictAt(a, j.d, dst, j.hs[n].flag.Directory?);
      }
    }
  }

  lemma {:induction false} StepsSpare(a: Fs, j: Job, n: nat, r: Run, top: Name) returns (m: nat)
    requires Good(j, n, r.fs, r.safe, r.dirs) && BelowTop(j.hs, top, n) && !r.failed
    requires n <= |j.hs| && Acceptable(j.hs) && Normal(j.root) && a.WellFormed()
    requires Spared(a, r.fs) && Newcomers(a, j, n, r.dirs) && ConflictFree(a, j.d, j.root, j.hs)
    ensures var r' := Steps(r, j.d, top, j.root, j.hs[n..], false);
            && Spared(a, r'.fs)
            && (!r'.failed ==> Good(j, m, r'.fs, r'.safe, r'.dirs) && Newcomers(a, j, m, r'.dirs))
    decreases |j.hs| - n
  {
    hide Good, Step, BelowTop, Newcomers, Intact, Apart, ConflictFree, Opening;
    m := n;
    if n < |j.hs| {
      NoConflictNoOpening(a, j, n, r.fs);
      StepKeeps(j, n, r, top, false);
      StepSpares(a, j, n, r, top);
      var r' := Step(r, j.d, top, j.root, j.hs[n], false);
      assert j.hs[n..][1..] == j.hs[n + 1..];
      if !r'.failed {
        m := StepsSpare(a, j, n + 1, r', top);
      }
    }
  }

  lemma StartsNew(a: Fs, j: Job)
    ensures Newcomers(a, j, 0, [])
  {
  }

  /** Main result: without force, and if nothing the archive names stood in the
      way on the disk `a`, an extraction leaves everything of `a` as it was,
      whatever came to the disk between `a` and its start, and whether it
      succeeds or fails part-way. */
  lemma ExtractionSpares(a: Fs, fs: Fs, d: Path, top: Name, root: Name, tar: Tar)
    requires fs.WellFormed() && fs.IsDir(d) && Normal(root) && Acceptable(tar.headers)
    requires a.WellFormed() && Spared(a, fs) && ConflictFree(a, d, root, tar.headers)
    ensures Spared(a, Extraction(fs, d, top, root, tar, false).0)
  {
    hide Steps, ChmodDirs, CleanName, Good, ConflictFree, Spared;
    var j := Job(fs, d, root, tar.headers);
    StartsGood(j);
    StartsNew(a, j);
    assert j.hs[0..] == j.hs;
    var m := StepsSpare(a, j, 0, Run(fs, {}, [], false), top);
    var r := Steps(Run(fs, {}, [], false), d, top, root, tar.headers, false);
    if !r.failed {
      ChmodDirsSpare(a, j, m, r.fs, r.safe, r.dirs);
    }
  }

  lemma Unchanged(fs: Fs)
    requires fs.WellFormed()
    ensures Spared(fs, fs)
  {
  }

  /** ... and so everything that was there at its start. */
  lemma ExtractionIntact(fs: Fs, d: Path, top: Name, root: Name, tar: Tar)
    requires fs.WellFormed() && fs.IsDir(d) && Normal(root) && Acceptable(tar.headers)
    requires ConflictFree(fs, d, root, tar.headers)
    ensures Intact(fs, Extraction(fs, d, top, root, tar, false).0)
  {
    hide Extraction, ConflictFree, CleanName;
    Unchanged(fs);
    ExtractionSpares(fs, fs, d, top, root, tar);
  }
}
