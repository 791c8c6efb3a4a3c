/** A copy without force worked out on paper: of the disk only its nodes and the
    modes of its files, of an archive only its headers. Which calls are made, what
    they look up and what is cached plays no part; the one thing left open is
    whether the file system takes a hard link. */
module Drafting {
  import opened Wrappers
  import opened FileSystem
  import opened Archive
  import opened Extract
  import opened ExtractSafety
  import opened NoClobber
  import opened CopyOut
  import opened Overwriting

  // ---------------------------------------------------------------------
  // Said of the disk and the headers
  // ---------------------------------------------------------------------

  datatype Sketch = Sketch(nodes: map<Path, Node>, modes: map<nat, Perm>, umask: Perm)

  function Of(fs: Fs): Sketch { Sketch(fs.nodes, map i | i in fs.inodes :: fs.inodes[i].mode, fs.umask) }

  predicate CanSearch(s: Sketch, p: Path) { p in s.nodes && s.nodes[p].Dir? && OwnerExec in s.nodes[p].mode }

  predicate CanFill(s: Sketch, p: Path) { CanSearch(s, p) && OwnerWrite in s.nodes[p].mode }

  /** Every directory above `t` lets a lookup through. */
  predicate Way(s: Sketch, d: Path, t: Path) { forall k :: 0 <= k < |t| ==> CanSearch(s, d + t[..k]) }

  predicate CanOpen(s: Sketch, p: Path) {
    p in s.nodes && s.nodes[p].File? && s.nodes[p].ino in s.modes && OwnerWrite in s.modes[s.nodes[p].ino]
  }

  predicate CanRead(s: Sketch, p: Path) {
    p in s.nodes && s.nodes[p].File? && s.nodes[p].ino in s.modes && OwnerRead in s.modes[s.nodes[p].ino]
  }

  function Put(s: Sketch, q: Path, n: Node): Sketch { s.(nodes := s.nodes[q := n]) }

  function PutFile(s: Sketch, q: Path, mode: Perm): Sketch {
    var i := Above(s.modes.Keys);
    s.(nodes := s.nodes[q := File(i)], modes := s.modes[i := mode])
  }

  /** The sketch so far, and the directories that wait for their modes. */
  datatype Draft = Draft(s: Sketch, dirs: seq<DirMode>)

  /** A kept header, after those before it: put in a free place of a directory that
      takes it, merged into what is there if it is a directory, written over a file
      its owner may write if it is a file. A hard link is another name of its
      target's file unless `refused`, or unless its place is taken: then a copy of
      what can be read. None if the extraction has to fail. */
  function Fill(r: Draft, d: Path, root: Name, h: Header, refused: bool): Option<Draft>
    requires Kept(h) && CleanName(h.name).Some?
  {
    var t, s := Target(root, h), r.s;
    var q := d + t;
    var free := q !in s.nodes && CanFill(s, d + t[..|t| - 1]);
    if !Way(s, d, t) then None
    else match h.flag
         case Directory =>
           if q in s.nodes then (if s.nodes[q].Link? then None else Some(r))
           else if !free then None
           else Some(Draft(Put(s, q, Dir(h.mode + OWNER_ALL - s.umask)), r.dirs + [DirMode(t, h.mode)]))
         case SymLink => if free then Some(r.(s := Put(s, q, Link(h.linkname)))) else None
         case Reg =>
           if free then Some(r.(s := PutFile(s, q, h.mode)))
           else if CanOpen(s, q) then Some(r.(s := s.(modes := s.modes[s.nodes[q].ino := h.mode])))
           else None
         case HardLink =>
           var src := d + LinkSource(root, h.linkname);
           if free && !refused then
             if src in s.nodes && s.nodes[src].File? then Some(r.(s := Put(s, q, s.nodes[src]))) else None
           else if !CanRead(s, src) then None
           else if free then Some(r.(s := PutFile(s, q, h.mode - s.umask)))
           else if CanOpen(s, q) then Some(r)
           else None
  }

  /** Any header. */
  function NextDraft(r: Draft, d: Path, top: Name, root: Name, h: Header, refused: bool): Option<Draft> {
    if h.flag.GlobalHeader? then Some(r)
    else if !Inside(top, h) then None
    else if !Kept(h) then Some(r)
    else Fill(r, d, root, h, refused)
  }

  /** The header would write over one of the files `files`. */
  predicate Hits(files: set<nat>, s: Sketch, d: Path, top: Name, root: Name, h: Header) {
    && (h.flag.Reg? || h.flag.HardLink?) && Inside(top, h)
    && var t := Target(root, h);
       && Way(s, d, t) && CanOpen(s, d + t) && s.nodes[d + t].ino in files
       && (h.flag.HardLink? ==> CanRead(s, d + LinkSource(root, h.linkname)))
  }

  /** The waiting modes are set, last directory first. */
  function Settled(s: Sketch, d: Path, dirs: seq<DirMode>): Sketch
    decreases |dirs|
  {
    if dirs == [] then s
    else
      var last := dirs[|dirs| - 1];
      Settled(Put(s, d + last.path, Dir(last.mode)), d, dirs[..|dirs| - 1])
  }

  /** Headers `hs` are still to come of one source, `tars` of the sources after it:
      one of them would write over a file of `files`, and all before it can be
      extracted, if the right hard links are refused. */
  ghost predicate Meets(files: set<nat>, r: Draft, p: Place, base: Name, top: Name, root: Name, hs: seq<Header>,
                        entries: seq<ArchiveEntry>, tars: seq<Tar>)
    requires |entries| == |tars|
    decreases |entries|, |hs|
  {
    if hs != [] then
      || Hits(files, r.s, p.dir, top, root, hs[0])
      || (exists refused: bool ::
            && NextDraft(r, p.dir, top, root, hs[0], refused).Some?
            && Meets(files, NextDraft(r, p.dir, top, root, hs[0], refused).value, p, base, top, root, hs[1..], entries, tars))
    else
      entries != [] && Meets(files, Draft(Settled(r.s, p.dir, r.dirs), []), p, base, entries[0].name,
                             RootOf(entries[0], base, p.into), tars[0].headers, entries[1..], tars[1..])
  }

  /** The sources expose a file of the disk to a copy to `p`. */
  ghost predicate ExposedTo(a: Fs, p: Place, base: Name, entries: seq<ArchiveEntry>, tars: seq<Tar>)
    requires |entries| == |tars|
  {
    Meets(a.inodes.Keys, Draft(Of(a), []), p, base, "", "", [], entries, tars)
  }

  // ---------------------------------------------------------------------
  // The disk, sketched
  // ---------------------------------------------------------------------

  lemma OfDirs(fs: Fs, d: Path, t: Path)
    requires t != []
    ensures Way(Of(fs), d, t) <==> AllSearchable(fs, d, t[..|t| - 1])
    ensures CanFill(Of(fs), d + t[..|t| - 1]) <==> fs.Writable(Parent(d + t))
  {
    var up := t[..|t| - 1];
    assert Parent(d + t) == d + up;
    forall k | 0 <= k <= |up| ensures up[..k] == t[..k] {
    }
    forall p ensures CanSearch(Of(fs), p) <==> fs.Searchable(p) {
    }
    hide CanSearch, Fs.Searchable, Of;
    if Way(Of(fs), d, t) {
      forall k | 0 <= k <= |up| ensures fs.Searchable(d + up[..k]) {
        assert CanSearch(Of(fs), d + t[..k]);
      }
    }
    if AllSearchable(fs, d, up) {
      forall k | 0 <= k < |t| ensures CanSearch(Of(fs), d + t[..k]) {
        assert fs.Searchable(d + up[..k]);
      }
    }
  }

  lemma OfFiles(fs: Fs, p: Path)
    ensures CanRead(Of(fs), p) <==> Readable(fs, p)
    ensures CanOpen(Of(fs), p) <==>
            p in fs.nodes && fs.nodes[p].File? && fs.nodes[p].ino in fs.inodes
            && OwnerWrite in fs.inodes[fs.nodes[p].ino].mode
  {
  }

  lemma OfSame(a: Fs, b: Fs)
    requires SameStore(a, b) && b.umask == a.umask
    ensures Of(b) == Of(a)
  {
  }

  lemma OfPut(a: Fs, b: Fs, q: Path, n: Node)
    requires b.nodes == a.nodes[q := n] && b.inodes == a.inodes && b.umask == a.umask
    ensures Of(b) == Put(Of(a), q, n)
  {
  }

  lemma OfMode(a: Fs, b: Fs, i: nat, node: Inode)
    requires b.nodes == a.nodes && b.inodes == a.inodes[i := node] && b.umask == a.umask
    ensures Of(b) == Of(a).(modes := Of(a).modes[i := node.mode])
  {
    assert Of(b).modes == Of(a).modes[i := node.mode];
  }

  lemma OfNew(a: Fs, b: Fs, q: Path, node: Inode)
    requires var i := FreshIno(a); b.nodes == a.nodes[q := File(i)] && b.inodes == a.inodes[i := node]
    requires b.umask == a.umask
    ensures Of(b) == PutFile(Of(a), q, node.mode)
  {
    assert Of(a).modes.Keys == a.inodes.Keys;
    assert Of(b).modes == Of(a).modes[FreshIno(a) := node.mode];
  }

  // ---------------------------------------------------------------------
  // One entry, whatever calls fail
  // ---------------------------------------------------------------------

  lemma MkdirDrafts(fs: Fs, d: Path, dst: Path, mode: Perm)
    requires Plain(fs, d, dst)
    ensures var (fs', ok) := Mkdir(fs, d, dst, mode);
            ok ==> AllSearchable(fs, d, dst[..|dst| - 1]) && fs.Writable(Parent(d + dst)) && d + dst !in fs.nodes
                   && Of(fs') == Put(Of(fs), d + dst, Dir(mode - fs.umask))
  {
    SlotTook(fs, d, dst);
    hide Slot, NoLinks, AllNormal, AllSearchable;
    if Mkdir(fs, d, dst, mode).1 {
      OfPut(fs, Mkdir(fs, d, dst, mode).0, d + dst, Dir(mode - fs.umask));
    }
  }

  lemma SymlinkDrafts(fs: Fs, d: Path, dst: Path, target: string)
    requires Plain(fs, d, dst)
    ensures var (fs', ok) := Symlink(fs, d, dst, target);
            ok ==> AllSearchable(fs, d, dst[..|dst| - 1]) && fs.Writable(Parent(d + dst)) && d + dst !in fs.nodes
                   && Of(fs') == Put(Of(fs), d + dst, Link(target))
  {
    SlotTook(fs, d, dst);
    hide Slot, NoLinks, AllNormal, AllSearchable;
    if Symlink(fs, d, dst, target).1 {
      OfPut(fs, Symlink(fs, d, dst, target).0, d + dst, Link(target));
    }
  }

  /** Opened to be written: a new file, or one its owner may write. */
  ghost predicate Opened(fs: Fs, fs': Fs, d: Path, dst: Path, mode: Perm, i: nat)
    requires dst != []
  {
    && AllSearchable(fs, d, dst[..|dst| - 1])
    && i in fs'.inodes && d + dst in fs'.nodes && fs'.nodes[d + dst] == File(i) && fs'.umask == fs.umask
    && (if d + dst in fs.nodes then CanOpen(Of(fs), d + dst) && fs.nodes[d + dst] == File(i) && Of(fs') == Of(fs)
        else fs.Writable(Parent(d + dst)) && i == FreshIno(fs) && Of(fs') == PutFile(Of(fs), d + dst, mode - fs.umask))
    && (forall p :: p != d + dst ==> SameAt(p, fs, fs'))
    && fs.inodes.Keys <= fs'.inodes.Keys
  }

  lemma OpenDrafts(fs: Fs, d: Path, dst: Path, mode: Perm)
    requires Plain(fs, d, dst)
    ensures var (fs', ino) := OpenTrunc(fs, d, dst, mode); ino.Some? ==> Opened(fs, fs', d, dst, mode, ino.value)
  {
    SlotTook(fs, d, dst);
    hide Locate, NoLinks, AllNormal, AllSearchable, FreshIno;
    var (fs', ino) := OpenTrunc(fs, d, dst, mode);
    if ino.Some? {
      if d + dst in fs.nodes {
        OfMode(fs, fs', ino.value, fs'.inodes[ino.value]);
        assert Of(fs).modes[ino.value := fs'.inodes[ino.value].mode] == Of(fs).modes;
        OfFiles(fs, d + dst);
      } else {
        OfNew(fs, fs', d + dst, fs'.inodes[ino.value]);
      }
    }
  }

  lemma WriteDrafts(fs: Fs, i: nat, content: Bytes)
    requires i in fs.inodes
    ensures var fs' := WriteAll(fs, i, content).0; Of(fs') == Of(fs) && fs'.inodes.Keys == fs.inodes.Keys
  {
    var fs' := WriteAll(fs, i, content).0;
    OfMode(fs, fs', i, fs'.inodes[i]);
    assert Of(fs).modes[i := fs'.inodes[i].mode] == Of(fs).modes;
  }

  lemma ChmodDrafts(fs: Fs, d: Path, dst: Path, mode: Perm, i: nat)
    requires Plain(fs, d, dst) && d + dst in fs.nodes && fs.nodes[d + dst] == File(i) && i in fs.inodes
    ensures var (fs', ok) := Chmod(fs, d, dst, mode);
            ok ==> Of(fs') == Of(fs).(modes := Of(fs).modes[i := mode])
  {
    hide Walk;
    PlainFinal(fs, d, dst);
    hide Plain;
    var (fs', ok) := Chmod(fs, d, dst, mode);
    if ok {
      OfMode(fs, fs', i, fs'.inodes[i]);
    }
  }

  lemma PutFileThenMode(s: Sketch, q: Path, first: Perm, mode: Perm)
    ensures var s' := PutFile(s, q, first);
            s'.(modes := s'.modes[Above(s.modes.Keys) := mode]) == PutFile(s, q, mode)
  {
    var i := Above(s.modes.Keys);
    assert s.modes[i := first][i := mode] == s.modes[i := mode];
  }

  /** What a regular file's header makes of the sketch. */
  ghost predicate RegDrafted(fs: Fs, fs': Fs, d: Path, dst: Path, mode: Perm)
    requires dst != []
  {
    && AllSearchable(fs, d, dst[..|dst| - 1])
    && (if d + dst in fs.nodes then
          CanOpen(Of(fs), d + dst) && Of(fs') == Of(fs).(modes := Of(fs).modes[fs.nodes[d + dst].ino := mode])
        else fs.Writable(Parent(d + dst)) && Of(fs') == PutFile(Of(fs), d + dst, mode))
  }

  lemma OpenedIsPlain(fs: Fs, fs': Fs, d: Path, dst: Path, mode: Perm, i: nat)
    requires Plain(fs, d, dst) && Opened(fs, fs', d, dst, mode, i)
    ensures Plain(fs', d, dst)
  {
    hide AllSearchable;
    PlainStays(fs, fs', d, dst);
  }

  lemma RegDrafts(r: Run, d: Path, dst: Path, mode: Perm, content: Bytes)
    requires Plain(r.fs, d, dst)
    ensures var r' := ExtractReg(r, d, dst, mode, content);
            r'.dirs == r.dirs && (r'.failed || RegDrafted(r.fs, r'.fs, d, dst, mode))
  {
    hide OpenTrunc, WriteAll, Chmod, Walk, NoLinks, AllNormal, AllSearchable, Of, PutFile, FreshIno;
    OpenDrafts(r.fs, d, dst, mode);
    var (fs1, ino) := OpenTrunc(r.fs, d, dst, mode);
    if ino.Some? {
      OpenedIsPlain(r.fs, fs1, d, dst, mode, ino.value);
      WriteDrafts(fs1, ino.value, content);
      SketchPlain(fs1, WriteAll(fs1, ino.value, content).0, d, dst);
      var (fs2, written) := WriteAll(fs1, ino.value, content);
      ChmodDrafts(fs2, d, dst, mode, ino.value);
      var (fs3, moded) := Chmod(fs2, d, dst, mode);
      OfSame(fs3, Chtimes(fs3, d, dst).0);
      NewIno(r.fs);
      PutFileThenMode(Of(r.fs), d + dst, mode - r.fs.umask, mode);
      if d + dst !in r.fs.nodes {
        SameModes(r.fs, fs1, d, dst, mode, ino.value);
      }
    }
  }

  lemma NewIno(fs: Fs)
    ensures FreshIno(fs) == Above(Of(fs).modes.Keys)
  {
    assert Of(fs).modes.Keys == fs.inodes.Keys;
  }

  lemma SameModes(fs: Fs, fs1: Fs, d: Path, dst: Path, mode: Perm, i: nat)
    requires dst != [] && Opened(fs, fs1, d, dst, mode, i) && d + dst !in fs.nodes
    ensures Of(fs1).modes == Of(fs).modes[i := mode - fs.umask]
  {
    hide AllSearchable;
    NewIno(fs);
  }

  /** The same sketch has the same plain paths. */
  lemma SketchPlain(a: Fs, b: Fs, d: Path, dst: Path)
    requires Plain(a, d, dst) && Of(a) == Of(b)
    ensures Plain(b, d, dst) && b.nodes == a.nodes && b.umask == a.umask
  {
  }

  lemma DirDrafts(r: Run, d: Path, dst: Path, mode: Perm)
    requires Plain(r.fs, d, dst) && r.fs.WellFormed()
    ensures var r' := ExtractDir(r, d, dst, mode);
            || r'.failed
            || (&& AllSearchable(r.fs, d, dst[..|dst| - 1])
                && if d + dst in r.fs.nodes then
                     !r.fs.nodes[d + dst].Link? && r'.dirs == r.dirs && Of(r'.fs) == Of(r.fs)
                   else r.fs.Writable(Parent(d + dst)) && r'.dirs == r.dirs + [DirMode(dst, mode)]
                        && Of(r'.fs) == Put(Of(r.fs), d + dst, Dir(mode + OWNER_ALL - r.fs.umask)))
  {
    LookupPlain(r.fs, d, dst);
    LookupSearchable(r.fs, d, dst);
    Ticks(r.fs, d, dst);
    var fs := Lstat(r.fs, d, dst).0;
    MkdirDrafts(fs, d, dst, mode + OWNER_ALL);
    OfSame(r.fs, fs);
    SameWritable(r.fs, fs, Parent(d + dst));
    hide Lookup, Mkdir, NoLinks, AllNormal, AllSearchable, Of, Fs.WellFormed, Fs.Writable;
  }

  lemma SameWritable(a: Fs, b: Fs, p: Path)
    requires a.nodes == b.nodes
    ensures a.Writable(p) <==> b.Writable(p)
  {
  }

  /** What a copy makes of the sketch. */
  ghost predicate CopyDrafted(fs: Fs, fs': Fs, d: Path, src: Path, dst: Path, mode: Perm)
    requires dst != []
  {
    && AllSearchable(fs, d, dst[..|dst| - 1]) && CanRead(Of(fs), d + src)
    && (if d + dst in fs.nodes then CanOpen(Of(fs), d + dst) && Of(fs') == Of(fs)
        else fs.Writable(Parent(d + dst)) && Of(fs') == PutFile(Of(fs), d + dst, mode - fs.umask))
  }

  lemma OpenedTick(a: Fs, b: Fs, c: Fs, d: Path, dst: Path, mode: Perm, i: nat)
    requires dst != [] && SameStore(a, b) && b.umask == a.umask && Opened(b, c, d, dst, mode, i)
    ensures Opened(a, c, d, dst, mode, i)
  {
    assert forall p :: a.Searchable(p) <==> b.Searchable(p);
    OfSame(a, b);
    hide Of, CanOpen, PutFile;
    assert forall p :: SameAt(p, a, c) <==> SameAt(p, b, c);
  }

  lemma CopyDrafts(fs: Fs, d: Path, src: Path, dst: Path, mode: Perm)
    requires Plain(fs, d, dst) && Plain(fs, d, src) && fs.WellFormed()
    requires d + src in fs.nodes && fs.nodes[d + src].File?
    ensures var (fs', ok) := CopyFile(fs, d, src, dst, mode); ok ==> CopyDrafted(fs, fs', d, src, dst, mode)
  {
    LookupPlain(fs, d, src);
    hide OpenTrunc, WriteAll, Lookup, AllNormal, NoLinks, AllSearchable, Fs.WellFormed, Of, CanOpen, CanRead, PutFile, FreshIno;
    var (fs1, node) := Lstat(fs, d, src);
    Ticks(fs, d, dst);
    Ticks(fs, d, src);
    if node.Some? {
      var (fs2, from) := OpenRead(fs1, d, src);
      Ticks(fs1, d, dst);
      if from.Some? {
        ReadsReadable(fs1, d, src);
        OfFiles(fs1, d + src);
        OfSame(fs, fs1);
        OpenDrafts(fs2, d, dst, mode);
        var (fs3, ino) := OpenTrunc(fs2, d, dst, mode);
        if ino.Some? && from.value in fs3.inodes {
          OpenedTick(fs, fs2, fs3, d, dst, mode, ino.value);
          WriteDrafts(fs3, ino.value, fs3.inodes[from.value].content);
        }
      }
    }
  }

  lemma LinkDrafts(fs: Fs, d: Path, src: Path, dst: Path)
    requires Plain(fs, d, dst) && Plain(fs, d, src)
    ensures var (fs', ok) := FileSystem.HardLink(fs, d, src, dst);
            ok ==> AllSearchable(fs, d, dst[..|dst| - 1]) && fs.Writable(Parent(d + dst)) && d + dst !in fs.nodes
                   && d + src in fs.nodes && Of(fs') == Put(Of(fs), d + dst, fs.nodes[d + src])
  {
    SlotTook(fs, d, dst);
    LookupPlain(fs, d, src);
    hide Slot, Lookup, NoLinks, AllNormal, AllSearchable;
    if FileSystem.HardLink(fs, d, src, dst).1 {
      OfPut(fs, FileSystem.HardLink(fs, d, src, dst).0, d + dst, fs.nodes[d + src]);
    }
  }

  lemma HardLinkDrafts(r: Run, d: Path, src: Path, dst: Path, mode: Perm)
    requires Plain(r.fs, d, dst) && Plain(r.fs, d, src) && r.fs.WellFormed() && !r.failed
    requires d + src in r.fs.nodes && r.fs.nodes[d + src].File?
    ensures var r' := ExtractHardLink(r, d, src, dst, mode);
            && r'.dirs == r.dirs
            && (|| r'.failed
                || (if FileSystem.HardLink(r.fs, d, src, dst).1 then
                      AllSearchable(r.fs, d, dst[..|dst| - 1]) && r.fs.Writable(Parent(d + dst)) && d + dst !in r.fs.nodes
                      && Of(r'.fs) == Put(Of(r.fs), d + dst, r.fs.nodes[d + src])
                    else CopyDrafted(r.fs, r'.fs, d, src, dst, mode)))
  {
    LinkDrafts(r.fs, d, src, dst);
    var (fs1, linked) := FileSystem.HardLink(r.fs, d, src, dst);
    if !linked {
      HardLinkTicks(r.fs, d, src, dst);
      Ticks(r.fs, d, dst);
      Ticks(r.fs, d, src);
      hide FileSystem.HardLink, CopyFile, NoLinks, AllNormal, AllSearchable, Fs.WellFormed, Of, CanOpen, CanRead, PutFile;
      CopyDrafts(fs1, d, src, dst, mode);
      CopyTick(r.fs, fs1, CopyFile(fs1, d, src, dst, mode).0, d, src, dst, mode);
    }
  }

  lemma CopyTick(a: Fs, b: Fs, c: Fs, d: Path, src: Path, dst: Path, mode: Perm)
    requires dst != [] && SameStore(a, b) && b.umask == a.umask
    ensures CopyDrafted(b, c, d, src, dst, mode) ==> CopyDrafted(a, c, d, src, dst, mode)
  {
    assert forall p :: a.Searchable(p) <==> b.Searchable(p);
    OfSame(a, b);
    hide Of, CanOpen, CanRead, PutFile;
  }

  // ---------------------------------------------------------------------
  // Every run
  // ---------------------------------------------------------------------

  /** Every regular file and hard link among the first `n` headers is a file now. */
  ghost predicate FilesThere(j: Job, n: nat, fs: Fs) {
    forall k :: 0 <= k < n <= |j.hs| && (j.hs[k].flag.Reg? || j.hs[k].flag.HardLink?) && CleanName(j.hs[k].name).Some? ==>
      j.d + Target(j.root, j.hs[k]) in fs.nodes && fs.nodes[j.d + Target(j.root, j.hs[k])].File?
  }

  /** The part of a run's invariant that speaks of the disk `a` and of the files put
      down. */
  ghost predicate Sharing(a: Fs, j: Job, n: nat, fs: Fs, dirs: seq<DirMode>) {
    a.WellFormed() && Spared(a, fs) && Newcomers(a, j, n, dirs) && FilesThere(j, n, fs)
  }

  lemma SourceThere(a: Fs, j: Job, n: nat, fs: Fs, safe: set<Path>, dirs: seq<DirMode>)
    requires Good(j, n, fs, safe, dirs) && n < |j.hs| && Acceptable(j.hs) && j.hs[n].flag.HardLink? && Normal(j.root)
    requires FilesThere(j, n, fs)
    ensures var src := LinkSource(j.root, j.hs[n].linkname);
            Plain(fs, j.d, src) && j.d + src in fs.nodes && fs.nodes[j.d + src].File?
  {
    LinkSourcePlaced(j, n, fs, safe, dirs);
    hide CleanName, Acceptable, Good, Plain;
    var k := SourceIndex(j.hs, n);
    assert LinkSource(j.root, j.hs[n].linkname) == Target(j.root, j.hs[k]);
  }

  /** A header that may open a file of the disk hits it. */
  lemma OpeningHits(a: Fs, j: Job, n: nat, fs: Fs, top: Name)
    requires n < |j.hs| && Inside(top, j.hs[n]) && Opening(a, j, n, fs) && Intact(a, fs) && a.WellFormed()
    ensures Hits(a.inodes.Keys, Of(fs), j.d, top, j.root, j.hs[n])
  {
    hide CleanName, Fs.WellFormed;
    var dst := Target(j.root, j.hs[n]);
    assert SameAt(j.d + dst, a, fs);
    OfDirs(fs, j.d, dst);
    OfFiles(fs, j.d + dst);
    OfFiles(fs, j.d + LinkSource(j.root, j.hs[n].linkname));
    FileOf(a, j.d + dst);
    hide Of, AllSearchable, Way, CanOpen, CanRead;
  }

  lemma FileOf(a: Fs, q: Path)
    requires a.WellFormed() && q in a.nodes && a.nodes[q].File?
    ensures a.nodes[q].ino in a.inodes
  {
  }

  lemma NoHitNoOpening(a: Fs, j: Job, n: nat, fs: Fs, top: Name)
    requires n < |j.hs| && Inside(top, j.hs[n]) && Intact(a, fs) && a.WellFormed()
    requires !Hits(a.inodes.Keys, Of(fs), j.d, top, j.root, j.hs[n])
    ensures !Opening(a, j, n, fs)
  {
    hide *;
    if Opening(a, j, n, fs) {
      OpeningHits(a, j, n, fs, top);
    }
  }

  /** Placing an entry is filling it in, with the hard link refused or not. */
  lemma PlaceDrafts(j: Job, n: nat, r: Run, dst: Path) returns (refused: bool)
    requires Good(j, n, r.fs, r.safe, r.dirs) && PlaceOk(j, r.fs, dst) && Next(j, n, dst) && !r.failed
    requires Acceptable(j.hs) && Normal(j.root) && FilesThere(j, n, r.fs)
    ensures var r' := Extract.Place(r, j.d, j.root, dst, j.hs[n], false);
            || r'.failed
            || Fill(Draft(Of(r.fs), r.dirs), j.d, j.root, j.hs[n], refused) == Some(Draft(Of(r'.fs), r'.dirs))
  {
    var h, d := j.hs[n], j.d;
    var r' := Extract.Place(r, d, j.root, dst, h, false);
    var src := LinkSource(j.root, h.linkname);
    refused := h.flag.HardLink? && !FileSystem.HardLink(r.fs, d, src, dst).1;
    PlaceTree(j, n, r.fs, r.safe, r.dirs, dst);
    OfDirs(r.fs, d, dst);
    if h.flag.HardLink? {
      SourceThere(r.fs, j, n, r.fs, r.safe, r.dirs);
    }
    OfNodes(r.fs);
    hide CleanName, Acceptable, Good, NoLinks, AllNormal, AllSearchable, ExtractDir, ExtractReg, ExtractSymlink,
      ExtractHardLink, Fs.WellFormed, Of, Way, CanFill, CanOpen, CanRead, Put, PutFile, Fs.Writable, FilesThere,
      FileSystem.HardLink;
    match h.flag {
      case Directory => DirDrafts(r, d, dst, h.mode);
      case Reg => RegDrafts(r, d, dst, h.mode, h.content);
      case SymLink => LinkPut(r, d, dst, h.linkname);
      case HardLink => HardLinkDrafts(r, d, src, dst, h.mode);
    }
  }

  lemma OfNodes(fs: Fs)
    ensures Of(fs).nodes == fs.nodes && Of(fs).umask == fs.umask
  {
  }

  lemma LinkPut(r: Run, d: Path, dst: Path, target: string)
    requires Plain(r.fs, d, dst)
    ensures var r' := ExtractSymlink(r, d, dst, target);
            && r'.dirs == r.dirs
            && (|| r'.failed
                || (AllSearchable(r.fs, d, dst[..|dst| - 1]) && r.fs.Writable(Parent(d + dst)) && d + dst !in r.fs.nodes
                    && Of(r'.fs) == Put(Of(r.fs), d + dst, Link(target))))
  {
    hide Symlink, NoLinks, AllNormal, AllSearchable, Of;
    SymlinkDrafts(r.fs, d, dst, target);
  }

  /** What filling in does to files: they stay, and a file's header puts one. */
  lemma FillKeeps(r: Draft, d: Path, root: Name, h: Header, refused: bool)
    requires Kept(h) && CleanName(h.name).Some? && Fill(r, d, root, h, refused).Some?
    ensures var r' := Fill(r, d, root, h, refused).value;
            && (forall p :: p in r.s.nodes ==> p in r'.s.nodes && r'.s.nodes[p] == r.s.nodes[p])
            && (forall p :: p in r'.s.nodes && p !in r.s.nodes ==> p == d + Target(root, h))
            && ((h.flag.Reg? || h.flag.HardLink?) ==>
                  d + Target(root, h) in r'.s.nodes && r'.s.nodes[d + Target(root, h)].File?)
            && r'.s.umask == r.s.umask && r.s.modes.Keys <= r'.s.modes.Keys
  {
    hide CleanName, Way;
  }

  lemma FilesThereNext(j: Job, n: nat, a: Fs, b: Fs, dst: Path)
    requires FilesThere(j, n, a) && n < |j.hs| && (Kept(j.hs[n]) ==> Next(j, n, dst))
    requires forall p :: p in a.nodes ==> p in b.nodes && b.nodes[p] == a.nodes[p]
    requires j.hs[n].flag.Reg? || j.hs[n].flag.HardLink? ==> j.d + dst in b.nodes && b.nodes[j.d + dst].File?
    ensures FilesThere(j, n + 1, b)
  {
    hide CleanName;
  }

  lemma StepDrafts(a: Fs, j: Job, n: nat, r: Run, top: Name) returns (refused: bool)
    requires Good(j, n, r.fs, r.safe, r.dirs) && BelowTop(j.hs, top, n) && !r.failed
    requires n < |j.hs| && Acceptable(j.hs) && Normal(j.root) && Sharing(a, j, n, r.fs, r.dirs)
    requires !Hits(a.inodes.Keys, Of(r.fs), j.d, top, j.root, j.hs[n])
    ensures var r' := Step(r, j.d, top, j.root, j.hs[n], false);
            && Spared(a, r'.fs)
            && (|| r'.failed
                || (&& Sharing(a, j, n + 1, r'.fs, r'.dirs)
                    && NextDraft(Draft(Of(r.fs), r.dirs), j.d, top, j.root, j.hs[n], refused)
                       == Some(Draft(Of(r'.fs), r'.dirs))))
  {
    hide CleanName, CheckParents, Extract.Place, Good, PlaceOk, Acceptable, Opening, Intact, Apart, Hits, Fill, Newcomers, Of,
      FilesThere, Fs.WellFormed, Target;
    var h, r' := j.hs[n], Step(r, j.d, top, j.root, j.hs[n], false);
    refused := false;
    if Kept(h) && Inside(top, h) {
      NoHitNoOpening(a, j, n, r.fs, top);
      StepSpares(a, j, n, r, top);
      TargetPlace(j, h);
      var dst := Target(j.root, h);
      ParentsKeep(j, n, r, dst);
      ParentsUmask(j, n, r, dst);
      var (fs, safe, ok) := CheckParents(r.fs, r.safe, j.d, dst, 1);
      OfSame(r.fs, fs);
      if ok {
        var r1 := r.(fs := fs, safe := safe);
        FilesThereSame(j, n, r.fs, fs);
        refused := PlaceDrafts(j, n, r1, dst);
        if !r'.failed {
          FillKeeps(Draft(Of(fs), r.dirs), j.d, j.root, h, refused);
          OfNodes(fs);
          OfNodes(r'.fs);
          FilesThereNext(j, n, fs, r'.fs, dst);
        }
      }
    } else if !Kept(h) {
      NewcomersSkip(a, j, n, r.dirs);
      FilesThereNext(j, n, r.fs, r.fs, []);
    }
  }

  lemma NewcomersSkip(a: Fs, j: Job, n: nat, dirs: seq<DirMode>)
    requires n < |j.hs| && Newcomers(a, j, n, dirs) && !Kept(j.hs[n])
    ensures Newcomers(a, j, n + 1, dirs)
  {
    hide CleanName;
  }

  lemma FilesThereSame(j: Job, n: nat, a: Fs, b: Fs)
    requires FilesThere(j, n, a) && b.nodes == a.nodes
    ensures FilesThere(j, n, b)
  {
    hide CleanName;
  }

  /** Nothing is met from here: nor after the next header, if it is extracted. */
  lemma UnmetNext(files: set<nat>, r: Draft, p: Place, base: Name, top: Name, root: Name, hs: seq<Header>,
                  entries: seq<ArchiveEntry>, tars: seq<Tar>, refused: bool)
    requires |entries| == |tars| && hs != [] && !Meets(files, r, p, base, top, root, hs, entries, tars)
    ensures !Hits(files, r.s, p.dir, top, root, hs[0])
    ensures var next := NextDraft(r, p.dir, top, root, hs[0], refused);
            next.Some? ==> !Meets(files, next.value, p, base, top, root, hs[1..], entries, tars)
  {
    hide Hits, NextDraft;
  }

  /** A run that meets nothing spares the disk `a`, and goes as drafted. */
  lemma {:induction false} StepsDraft(a: Fs, j: Job, n: nat, r: Run, top: Name, p: Place, base: Name,
                                      entries: seq<ArchiveEntry>, tars: seq<Tar>) returns (m: nat)
    requires Good(j, n, r.fs, r.safe, r.dirs) && BelowTop(j.hs, top, n) && !r.failed && p.dir == j.d
    requires n <= |j.hs| && Acceptable(j.hs) && Normal(j.root) && Sharing(a, j, n, r.fs, r.dirs) && |entries| == |tars|
    requires !Meets(a.inodes.Keys, Draft(Of(r.fs), r.dirs), p, base, top, j.root, j.hs[n..], entries, tars)
    ensures var r' := Steps(r, j.d, top, j.root, j.hs[n..], false);
            && Spared(a, r'.fs)
            && (!r'.failed ==>
                  && m == |j.hs| && Good(j, m, r'.fs, r'.safe, r'.dirs) && Sharing(a, j, m, r'.fs, r'.dirs)
                  && !Meets(a.inodes.Keys, Draft(Of(r'.fs), r'.dirs), p, base, top, j.root, [], entries, tars))
    decreases |j.hs| - n
  {
    hide Good, Step, BelowTop, Intact, Apart, Newcomers, FilesThere, Fs.WellFormed, Meets, Of, NextDraft, Hits;
    m := n;
    if n < |j.hs| {
      var hs := j.hs[n..];
      assert hs[0] == j.hs[n] && hs[1..] == j.hs[n + 1..];
      UnmetNext(a.inodes.Keys, Draft(Of(r.fs), r.dirs), p, base, top, j.root, hs, entries, tars, false);
      StepKeeps(j, n, r, top, false);
      var refused := StepDrafts(a, j, n, r, top);
      UnmetNext(a.inodes.Keys, Draft(Of(r.fs), r.dirs), p, base, top, j.root, hs, entries, tars, refused);
      var r' := Step(r, j.d, top, j.root, j.hs[n], false);
      if !r'.failed {
        m := StepsDraft(a, j, n + 1, r', top, p, base, entries, tars);
      }
    } else {
      assert j.hs[n..] == [];
    }
  }

  lemma ChmodDirDrafts(j: Job, n: nat, fs: Fs, safe: set<Path>, dirs: seq<DirMode>)
    requires Good(j, n, fs, safe, dirs) && dirs != []
    ensures var e, rest := dirs[|dirs| - 1], dirs[..|dirs| - 1];
            var (fs', ok) := Chmod(fs, j.d, e.path, e.mode);
            && Good(j, n, fs', safe, rest)
            && (ok ==> Of(fs') == Put(Of(fs), j.d + e.path, Dir(e.mode)))
  {
    hide Chmod, Done, Of, Confined, NoLinks, AllNormal;
    var e, rest := dirs[|dirs| - 1], dirs[..|dirs| - 1];
    assert forall x :: x in rest ==> x in dirs;
    assert e in dirs;
    ExistingIsPlain(fs, j.d, e.path);
    assert j.Base() <= j.d + e.path;
    ChmodKeeps(j, n, fs, safe, rest, e.path, e.mode);
    ChmodDirPuts(fs, j.d, e.path, e.mode);
  }

  lemma ChmodDirPuts(fs: Fs, d: Path, dst: Path, mode: Perm)
    requires Plain(fs, d, dst) && fs.IsDir(d + dst)
    ensures var (fs', ok) := Chmod(fs, d, dst, mode); ok ==> Of(fs') == Put(Of(fs), d + dst, Dir(mode))
  {
    hide Walk;
    PlainFinal(fs, d, dst);
    hide Plain;
    var (fs', ok) := Chmod(fs, d, dst, mode);
    if ok {
      OfPut(fs, fs', d + dst, Dir(mode));
    }
  }

  lemma {:induction false} ChmodDirsDraft(j: Job, n: nat, fs: Fs, safe: set<Path>, dirs: seq<DirMode>)
    requires Good(j, n, fs, safe, dirs)
    ensures var (fs', ok) := ChmodDirs(fs, j.d, dirs); ok ==> Of(fs') == Settled(Of(fs), j.d, dirs)
    decreases |dirs|
  {
    hide Chmod, Good, Of, Put;
    if dirs != [] {
      ChmodDirDrafts(j, n, fs, safe, dirs);
      var e := dirs[|dirs| - 1];
      ChmodDirsDraft(j, n, Chmod(fs, j.d, e.path, e.mode).0, safe, dirs[..|dirs| - 1]);
    }
  }

  /** Between two sources only the waiting modes count, not what came before. */
  lemma MeetsBetween(files: set<nat>, r: Draft, s: Sketch, p: Place, base: Name, top: Name, root: Name,
                     entries: seq<ArchiveEntry>, tars: seq<Tar>)
    requires |entries| == |tars| && s == Settled(r.s, p.dir, r.dirs)
    ensures Meets(files, r, p, base, top, root, [], entries, tars)
            <==> Meets(files, Draft(s, []), p, base, "", "", [], entries, tars)
  {
    assert Settled(s, p.dir, []) == s;
    hide Settled;
  }
}
