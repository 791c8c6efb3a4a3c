/** Making a run go as drafted: the schedule of failing calls under which exactly
    the chosen hard links are refused and nothing else fails. */
module Steering {
  import opened Wrappers
  import opened FileSystem
  import opened Archive
  import opened Extract
  import opened ExtractSafety
  import opened NoClobber
  import C = CopyOut
  import opened CopyOutSafety
  import opened Overwriting
  import opened QuietRun
  import opened Drafting

  /** The disk under a schedule. */
  function Under(fs: Fs, faults: seq<Fault>): Fs { fs.(faults := faults) }

  function RunUnder(r: Run, faults: seq<Fault>): Run { r.(fs := Under(r.fs, faults)) }

  /** `n` calls that do not fail, and then `rest`. */
  function Quietly(n: nat, rest: seq<Fault>): seq<Fault> { if n == 0 then rest else [Quiet] + Quietly(n - 1, rest) }

  // ---------------------------------------------------------------------
  // One call takes one entry of the schedule
  // ---------------------------------------------------------------------

  lemma Shifted(fs: Fs, f: Fault, rest: seq<Fault>)
    ensures Under(fs, [f] + rest).Tick() == Under(fs, rest)
    ensures Under(fs, [f] + rest).Faulty() <==> f.Fail?
    ensures fs.faults == [] ==> Under(fs, []) == fs && !fs.Faulty() && fs.Tick() == fs
  {
    assert ([f] + rest)[1..] == rest;
  }

  lemma LookupUnder(fs: Fs, d: Path, comps: Path, faults: seq<Fault>)
    ensures Walk(Under(fs, faults), d, comps, MAX_LINKS) == Walk(fs, d, comps, MAX_LINKS)
    ensures comps != [] ==> Locate(Under(fs, faults), d, comps) == Locate(fs, d, comps)
    ensures comps != [] ==> Lookup(Under(fs, faults), d, comps) == Lookup(fs, d, comps)
  {
    hide Walk;
    WalkSame(fs, Under(fs, faults), d, comps, MAX_LINKS);
    if comps != [] {
      WalkSame(fs, Under(fs, faults), d, comps[..|comps| - 1], MAX_LINKS);
    }
  }

  /** A call that does not fail does what it does when nothing ever fails. */
  lemma LstatShift(fs: Fs, d: Path, comps: Path, rest: seq<Fault>)
    requires fs.faults == [] && comps != []
    ensures Lstat(Under(fs, [Quiet] + rest), d, comps) == (Under(Lstat(fs, d, comps).0, rest), Lstat(fs, d, comps).1)
  {
    Shifted(fs, Quiet, rest);
    LookupUnder(fs, d, comps, [Quiet] + rest);
    hide Lookup;
  }

  lemma MkdirShift(fs: Fs, d: Path, comps: Path, mode: Perm, rest: seq<Fault>)
    requires fs.faults == [] && comps != []
    ensures Mkdir(Under(fs, [Quiet] + rest), d, comps, mode) == (Under(Mkdir(fs, d, comps, mode).0, rest), Mkdir(fs, d, comps, mode).1)
  {
    Shifted(fs, Quiet, rest);
    LookupUnder(fs, d, comps, [Quiet] + rest);
    hide Locate;
  }

  lemma SymlinkShift(fs: Fs, d: Path, comps: Path, target: string, rest: seq<Fault>)
    requires fs.faults == [] && comps != []
    ensures Symlink(Under(fs, [Quiet] + rest), d, comps, target)
            == (Under(Symlink(fs, d, comps, target).0, rest), Symlink(fs, d, comps, target).1)
  {
    Shifted(fs, Quiet, rest);
    LookupUnder(fs, d, comps, [Quiet] + rest);
    hide Locate;
  }

  lemma HardLinkShift(fs: Fs, d: Path, src: Path, comps: Path, rest: seq<Fault>)
    requires fs.faults == [] && comps != [] && src != []
    ensures FileSystem.HardLink(Under(fs, [Quiet] + rest), d, src, comps)
            == (Under(FileSystem.HardLink(fs, d, src, comps).0, rest), FileSystem.HardLink(fs, d, src, comps).1)
    ensures FileSystem.HardLink(Under(fs, [Fail(0)] + rest), d, src, comps) == (Under(fs, rest), false)
  {
    Shifted(fs, Quiet, rest);
    Shifted(fs, Fail(0), rest);
    LookupUnder(fs, d, comps, [Quiet] + rest);
    LookupUnder(fs, d, src, [Quiet] + rest);
    hide Locate, Lookup;
  }

  lemma OpenReadShift(fs: Fs, d: Path, comps: Path, rest: seq<Fault>)
    requires fs.faults == [] && comps != []
    ensures OpenRead(Under(fs, [Quiet] + rest), d, comps) == (Under(OpenRead(fs, d, comps).0, rest), OpenRead(fs, d, comps).1)
  {
    Shifted(fs, Quiet, rest);
    LookupUnder(fs, d, comps, [Quiet] + rest);
    hide Lookup;
  }

  lemma OpenTruncShift(fs: Fs, d: Path, comps: Path, mode: Perm, rest: seq<Fault>)
    requires fs.faults == [] && comps != []
    ensures OpenTrunc(Under(fs, [Quiet] + rest), d, comps, mode)
            == (Under(OpenTrunc(fs, d, comps, mode).0, rest), OpenTrunc(fs, d, comps, mode).1)
  {
    Shifted(fs, Quiet, rest);
    LookupUnder(fs, d, comps, [Quiet] + rest);
    hide Locate, Above;
  }

  lemma WriteAllShift(fs: Fs, i: nat, content: Bytes, rest: seq<Fault>)
    requires fs.faults == [] && i in fs.inodes
    ensures WriteAll(Under(fs, [Quiet] + rest), i, content) == (Under(WriteAll(fs, i, content).0, rest), WriteAll(fs, i, content).1)
  {
    Shifted(fs, Quiet, rest);
  }

  lemma ChmodShift(fs: Fs, d: Path, comps: Path, mode: Perm, rest: seq<Fault>)
    requires fs.faults == []
    ensures Chmod(Under(fs, [Quiet] + rest), d, comps, mode) == (Under(Chmod(fs, d, comps, mode).0, rest), Chmod(fs, d, comps, mode).1)
  {
    Shifted(fs, Quiet, rest);
    LookupUnder(fs, d, comps, [Quiet] + rest);
    hide Walk;
  }

  lemma ChtimesShift(fs: Fs, d: Path, comps: Path, rest: seq<Fault>)
    requires fs.faults == []
    ensures Chtimes(Under(fs, [Quiet] + rest), d, comps) == (Under(Chtimes(fs, d, comps).0, rest), Chtimes(fs, d, comps).1)
  {
    Shifted(fs, Quiet, rest);
    LookupUnder(fs, d, comps, [Quiet] + rest);
    hide Walk;
  }

  /** Without faults to come none come. */
  lemma StillQuiet(fs: Fs, d: Path, src: Path, comps: Path, mode: Perm, target: string, i: nat, content: Bytes)
    requires fs.faults == [] && comps != [] && src != []
    ensures Lstat(fs, d, comps).0 == fs && OpenRead(fs, d, comps).0 == fs
    ensures Mkdir(fs, d, comps, mode).0.faults == [] && Symlink(fs, d, comps, target).0.faults == []
    ensures FileSystem.HardLink(fs, d, src, comps).0.faults == [] && OpenTrunc(fs, d, comps, mode).0.faults == []
    ensures Chmod(fs, d, comps, mode).0.faults == [] && Chtimes(fs, d, comps).0 == fs
    ensures i in fs.inodes ==> WriteAll(fs, i, content).0.faults == []
  {
    hide Walk, Locate, Lookup, Above;
  }

  // ---------------------------------------------------------------------
  // One entry
  // ---------------------------------------------------------------------

  lemma DirShift(r: Run, d: Path, dst: Path, mode: Perm, rest: seq<Fault>)
    requires r.fs.faults == [] && dst != []
    ensures var calls := if Lookup(r.fs, d, dst).Some? then 1 else 2;
            ExtractDir(RunUnder(r, Quietly(calls, rest)), d, dst, mode) == RunUnder(ExtractDir(r, d, dst, mode), rest)
  {
    LstatShift(r.fs, d, dst, Quietly(1, rest));
    LstatShift(r.fs, d, dst, rest);
    MkdirShift(r.fs, d, dst, mode + OWNER_ALL, rest);
    Shifted(r.fs, Quiet, []);
    assert Quietly(1, rest) == [Quiet] + rest && Quietly(2, rest) == [Quiet] + Quietly(1, rest);
    hide Lookup, Mkdir;
  }

  lemma RegShift(r: Run, d: Path, dst: Path, mode: Perm, content: Bytes, rest: seq<Fault>)
    requires r.fs.faults == [] && dst != [] && !ExtractReg(r, d, dst, mode, content).failed
    ensures ExtractReg(RunUnder(r, Quietly(4, rest)), d, dst, mode, content) == RunUnder(ExtractReg(r, d, dst, mode, content), rest)
  {
    hide OpenTrunc, WriteAll, Chmod, Chtimes, Quietly;
    QuietFour(rest);
    StillQuiet(r.fs, d, dst, dst, mode, "", 0, []);
    OpenTruncShift(r.fs, d, dst, mode, Quietly(3, rest));
    var (fs1, ino) := OpenTrunc(r.fs, d, dst, mode);
    WriteAllShift(fs1, ino.value, content, Quietly(2, rest));
    StillQuiet(fs1, d, dst, dst, mode, "", ino.value, content);
    var fs2 := WriteAll(fs1, ino.value, content).0;
    ChmodShift(fs2, d, dst, mode, Quietly(1, rest));
    StillQuiet(fs2, d, dst, dst, mode, "", 0, []);
    ChtimesShift(Chmod(fs2, d, dst, mode).0, d, dst, rest);
  }

  lemma QuietFour(rest: seq<Fault>)
    ensures Quietly(5, rest) == [Quiet] + Quietly(4, rest) && Quietly(4, rest) == [Quiet] + Quietly(3, rest)
    ensures Quietly(3, rest) == [Quiet] + Quietly(2, rest) && Quietly(2, rest) == [Quiet] + Quietly(1, rest)
    ensures Quietly(1, rest) == [Quiet] + rest
  {
    assert Quietly(3, rest) == [Quiet] + Quietly(2, rest);
  }

  lemma CopyShift(fs: Fs, d: Path, src: Path, dst: Path, mode: Perm, rest: seq<Fault>)
    requires fs.faults == [] && dst != [] && src != [] && CopyFile(fs, d, src, dst, mode).1
    requires Lookup(fs, d, src).Some? && Lookup(fs, d, src).value.File?
    ensures CopyFile(Under(fs, Quietly(4, rest)), d, src, dst, mode) == (Under(CopyFile(fs, d, src, dst, mode).0, rest), true)
  {
    hide OpenTrunc, WriteAll, OpenRead, Lookup, Quietly, Symlink;
    QuietFour(rest);
    StillQuiet(fs, d, src, src, mode, "", 0, []);
    StillQuiet(fs, d, src, dst, mode, "", 0, []);
    LstatShift(fs, d, src, Quietly(3, rest));
    OpenReadShift(fs, d, src, Quietly(2, rest));
    OpenTruncShift(fs, d, dst, mode, Quietly(1, rest));
    var (fs3, ino) := OpenTrunc(fs, d, dst, mode);
    var from := OpenRead(fs, d, src).1;
    WriteAllShift(fs3, ino.value, fs3.inodes[from.value].content, rest);
  }

  /** The calls of a hard link, refused or not. */
  function LinkCalls(linked: bool, refused: bool, rest: seq<Fault>): seq<Fault> {
    if refused then [Fail(0)] + Quietly(4, rest) else if linked then Quietly(1, rest) else Quietly(5, rest)
  }

  lemma HardLinkShifts(r: Run, d: Path, src: Path, dst: Path, mode: Perm, refused: bool, rest: seq<Fault>)
    requires r.fs.faults == [] && dst != [] && src != [] && !r.failed
    requires Lookup(r.fs, d, src).Some? && Lookup(r.fs, d, src).value.File?
    requires var linked := FileSystem.HardLink(r.fs, d, src, dst).1;
             (refused || !linked) ==> CopyFile(r.fs, d, src, dst, mode).1
    ensures var linked := FileSystem.HardLink(r.fs, d, src, dst).1;
            ExtractHardLink(RunUnder(r, LinkCalls(linked, refused, rest)), d, src, dst, mode)
            == if refused || !linked then RunUnder(r.(fs := CopyFile(r.fs, d, src, dst, mode).0), rest)
               else RunUnder(r.(fs := FileSystem.HardLink(r.fs, d, src, dst).0), rest)
  {
    HardLinkIdle(r.fs, d, src, dst);
    hide FileSystem.HardLink, CopyFile, Lookup, Quietly;
    QuietFour(rest);
    HardLinkShift(r.fs, d, src, dst, rest);
    HardLinkShift(r.fs, d, src, dst, Quietly(4, rest));
    if refused || !FileSystem.HardLink(r.fs, d, src, dst).1 {
      CopyShift(r.fs, d, src, dst, mode, rest);
    }
  }

  lemma HardLinkIdle(fs: Fs, d: Path, src: Path, dst: Path)
    requires src != [] && dst != [] && fs.faults == []
    ensures !FileSystem.HardLink(fs, d, src, dst).1 ==> FileSystem.HardLink(fs, d, src, dst).0 == fs
  {
    hide Slot, Lookup;
  }

  // ---------------------------------------------------------------------
  // Where something stands already
  // ---------------------------------------------------------------------

  /** A file its owner may write, or a free place in a directory that takes it. */
  ghost predicate Takes(fs: Fs, d: Path, dst: Path) {
    if d + dst in fs.nodes then CanOpen(Of(fs), d + dst) else fs.Writable(Parent(d + dst))
  }

  lemma OpensCalmly(fs: Fs, d: Path, dst: Path, mode: Perm)
    requires Calm(fs, d, dst) && Takes(fs, d, dst)
    ensures var (fs', ino) := OpenTrunc(fs, d, dst, mode);
            && ino.Some? && ino.value in fs'.inodes && fs.inodes.Keys <= fs'.inodes.Keys && fs'.faults == []
            && fs'.nodes == fs.nodes[d + dst := File(ino.value)]
  {
    CalmLookup(fs, d, dst);
    OfFiles(fs, d + dst);
    hide Locate, Lookup, Slot, AllSearchable, Plain, FreshIno, Of, CanOpen;
  }

  lemma RegCalmly(r: Run, d: Path, dst: Path, mode: Perm, content: Bytes)
    requires Calm(r.fs, d, dst) && Takes(r.fs, d, dst) && !r.failed && d + dst != []
    ensures var r' := ExtractReg(r, d, dst, mode, content); !r'.failed && r'.fs.faults == []
  {
    OpensCalmly(r.fs, d, dst, mode);
    var (fs1, ino) := OpenTrunc(r.fs, d, dst, mode);
    var fs2 := WriteAll(fs1, ino.value, content).0;
    assert fs2.nodes == fs1.nodes && fs2.faults == [] && ino.value in fs2.inodes;
    FileReached(r.fs, fs2, d, dst, ino.value);
    hide OpenTrunc, WriteAll, Calm, Takes, Walk;
    ChmodCalm(fs2, d, dst, mode);
  }

  lemma FileReached(a: Fs, b: Fs, d: Path, dst: Path, i: nat)
    requires Calm(a, d, dst) && b.nodes == a.nodes[d + dst := File(i)] && (d + dst in a.nodes ==> a.nodes[d + dst].File?)
    ensures Walk(b, d, dst, MAX_LINKS) == Some(d + dst)
  {
    hide Walk, Fs.WellFormed;
    var up := dst[..|dst| - 1];
    forall k | 0 <= k <= |up| ensures b.Searchable(d + up[..k]) {
      assert a.Searchable(d + up[..k]);
    }
    OpenHasNoLinks(b, d, up);
    PlainFinal(b, d, dst);
  }

  lemma CopyCalmly(fs: Fs, d: Path, src: Path, dst: Path, mode: Perm)
    requires Calm(fs, d, dst) && Calm(fs, d, src) && Takes(fs, d, dst) && CanRead(Of(fs), d + src)
    ensures var (fs', ok) := CopyFile(fs, d, src, dst, mode); ok && fs'.faults == []
    ensures Lookup(fs, d, src) == Some(fs.nodes[d + src])
  {
    CalmLookup(fs, d, src);
    OfFiles(fs, d + src);
    OpensCalmly(fs, d, dst, mode);
    hide OpenTrunc, Lookup, Calm, Takes, Of, CanRead;
  }

  // ---------------------------------------------------------------------
  // Filling in
  // ---------------------------------------------------------------------

  /** A kept header placed with nothing failing but, if `refused`, its hard link. */
  function Filled(r: Run, d: Path, root: Name, dst: Path, h: Header, refused: bool): Run
    requires dst != [] && Kept(h)
  {
    var src := LinkSource(root, h.linkname);
    if h.flag.HardLink? then r.(fs := Linked(r.fs, d, src, dst, h.mode, refused)) else Place(r, d, root, dst, h, false)
  }

  /** The schedule of its calls. */
  function PlaceCalls(r: Run, d: Path, root: Name, dst: Path, h: Header, refused: bool, rest: seq<Fault>): seq<Fault>
    requires dst != [] && Kept(h)
  {
    match h.flag
    case Directory => Quietly(if Lookup(r.fs, d, dst).Some? then 1 else 2, rest)
    case Reg => Quietly(4, rest)
    case SymLink => Quietly(1, rest)
    case HardLink => LinkCalls(FileSystem.HardLink(r.fs, d, LinkSource(root, h.linkname), dst).1, refused, rest)
  }

  /** A hard link's target can be got to and is a file. */
  ghost predicate SourceCan(fs: Fs, d: Path, root: Name, h: Header) {
    h.flag.HardLink? ==>
      var src := LinkSource(root, h.linkname);
      Calm(fs, d, src) && d + src in fs.nodes && fs.nodes[d + src].File?
  }

  lemma DirFills(r: Run, d: Path, root: Name, h: Header, rest: seq<Fault>)
    requires h.flag.Directory? && CleanName(h.name).Some? && !r.failed
    requires Calm(r.fs, d, Target(root, h)) && Fill(Draft(Of(r.fs), r.dirs), d, root, h, false).Some?
    ensures var dst := Target(root, h);
            var r' := ExtractDir(r, d, dst, h.mode);
            && !r'.failed && r'.fs.faults == []
            && Some(Draft(Of(r'.fs), r'.dirs)) == Fill(Draft(Of(r.fs), r.dirs), d, root, h, false)
            && ExtractDir(RunUnder(r, Quietly(if Lookup(r.fs, d, dst).Some? then 1 else 2, rest)), d, dst, h.mode)
               == RunUnder(r', rest)
  {
    hide CleanName;
    var dst := Target(root, h);
    OfDirs(r.fs, d, dst);
    OfNodes(r.fs);
    CalmLookup(r.fs, d, dst);
    CalmTree(r.fs, d, dst);
    hide Of, Way, CanFill, AllSearchable, Lookup, Calm, Plain, ExtractDir, Quietly;
    DirCalm(r, d, dst, h.mode);
    DirDrafts(r, d, dst, h.mode);
    DirShift(r, d, dst, h.mode, rest);
  }

  lemma CalmTree(fs: Fs, d: Path, dst: Path)
    requires Calm(fs, d, dst)
    ensures fs.WellFormed() && fs.faults == [] && dst != []
  {
  }

  lemma RegFills(r: Run, d: Path, root: Name, h: Header, rest: seq<Fault>)
    requires h.flag.Reg? && CleanName(h.name).Some? && !r.failed && d + Target(root, h) != []
    requires Calm(r.fs, d, Target(root, h)) && Fill(Draft(Of(r.fs), r.dirs), d, root, h, false).Some?
    ensures var dst := Target(root, h);
            var r' := ExtractReg(r, d, dst, h.mode, h.content);
            && !r'.failed && r'.fs.faults == []
            && Some(Draft(Of(r'.fs), r'.dirs)) == Fill(Draft(Of(r.fs), r.dirs), d, root, h, false)
            && ExtractReg(RunUnder(r, Quietly(4, rest)), d, dst, h.mode, h.content) == RunUnder(r', rest)
  {
    hide CleanName;
    var dst := Target(root, h);
    OfDirs(r.fs, d, dst);
    OfNodes(r.fs);
    CalmLookup(r.fs, d, dst);
    CalmTree(r.fs, d, dst);
    hide Of, Way, CanFill, AllSearchable, Lookup, Calm, Plain, ExtractReg, Quietly, CanOpen, PutFile;
    RegCalmly(r, d, dst, h.mode, h.content);
    RegDrafts(r, d, dst, h.mode, h.content);
    RegShift(r, d, dst, h.mode, h.content, rest);
  }

  lemma SymlinkFills(r: Run, d: Path, root: Name, h: Header, rest: seq<Fault>)
    requires h.flag.SymLink? && CleanName(h.name).Some? && !r.failed
    requires Calm(r.fs, d, Target(root, h)) && Fill(Draft(Of(r.fs), r.dirs), d, root, h, false).Some?
    ensures var dst := Target(root, h);
            var r' := ExtractSymlink(r, d, dst, h.linkname);
            && !r'.failed && r'.fs.faults == []
            && Some(Draft(Of(r'.fs), r'.dirs)) == Fill(Draft(Of(r.fs), r.dirs), d, root, h, false)
            && ExtractSymlink(RunUnder(r, Quietly(1, rest)), d, dst, h.linkname) == RunUnder(r', rest)
  {
    hide CleanName;
    var dst := Target(root, h);
    OfDirs(r.fs, d, dst);
    OfNodes(r.fs);
    CalmLookup(r.fs, d, dst);
    CalmTree(r.fs, d, dst);
    QuietFour(rest);
    hide Of, Way, CanFill, AllSearchable, Lookup, Calm, Plain, Symlink, Quietly;
    SymlinkCalm(r, d, dst, h.linkname);
    LinkPut(r, d, dst, h.linkname);
    SymlinkShift(r.fs, d, dst, h.linkname, rest);
  }

  /** What filling a hard link in comes to. */
  lemma LinkFillIs(r: Draft, d: Path, root: Name, h: Header, refused: bool)
    requires h.flag.HardLink? && CleanName(h.name).Some? && Fill(r, d, root, h, refused).Some?
    ensures var t, s := Target(root, h), r.s;
            var q, src := d + t, d + LinkSource(root, h.linkname);
            var free := q !in s.nodes && CanFill(s, d + t[..|t| - 1]);
            && Way(s, d, t)
            && (if free && !refused then
                  src in s.nodes && Fill(r, d, root, h, refused) == Some(r.(s := Put(s, q, s.nodes[src])))
                else
                  && CanRead(s, src) && (q in s.nodes ==> CanOpen(s, q)) && (q !in s.nodes ==> free)
                  && Fill(r, d, root, h, refused) == Some(if q in s.nodes then r else r.(s := PutFile(s, q, h.mode - s.umask))))
  {
    hide CleanName, Way, CanRead, PutFile;
  }

  /** The file system after a hard link, made or copied. */
  function Linked(fs: Fs, d: Path, src: Path, dst: Path, mode: Perm, refused: bool): Fs
    requires src != [] && dst != []
  {
    if refused || !FileSystem.HardLink(fs, d, src, dst).1 then CopyFile(fs, d, src, dst, mode).0
    else FileSystem.HardLink(fs, d, src, dst).0
  }

  lemma LinkedDrafts(fs: Fs, d: Path, src: Path, dst: Path, mode: Perm, refused: bool)
    requires Calm(fs, d, dst) && Calm(fs, d, src) && d + src in fs.nodes && fs.nodes[d + src].File?
    requires var free := d + dst !in fs.nodes && fs.Writable(Parent(d + dst));
             (free && !refused) || (CanRead(Of(fs), d + src) && Takes(fs, d, dst))
    ensures var fs' := Linked(fs, d, src, dst, mode, refused);
            && fs'.faults == []
            && Of(fs') ==
               if d + dst !in fs.nodes && !refused then Put(Of(fs), d + dst, fs.nodes[d + src])
               else if d + dst in fs.nodes then Of(fs)
               else PutFile(Of(fs), d + dst, mode - fs.umask)
    ensures var linked := FileSystem.HardLink(fs, d, src, dst).1;
            (refused || !linked) ==> CopyFile(fs, d, src, dst, mode).1
  {
    LinkedCalmly(fs, d, src, dst);
    CalmLookup(fs, d, dst);
    CalmLookup(fs, d, src);
    CalmTree(fs, d, dst);
    hide Of, AllSearchable, Lookup, Calm, NoLinks, AllNormal, FileSystem.HardLink, CopyFile, CanOpen, CanRead, PutFile,
      Fs.WellFormed, Locate, Slot;
    if refused || !FileSystem.HardLink(fs, d, src, dst).1 {
      CopyCalmly(fs, d, src, dst, mode);
      CopyDrafts(fs, d, src, dst, mode);
    } else {
      LinkDrafts(fs, d, src, dst);
    }
  }

  lemma HardLinkFills(r: Run, d: Path, root: Name, h: Header, refused: bool, rest: seq<Fault>)
    requires h.flag.HardLink? && CleanName(h.name).Some? && !r.failed && SourceCan(r.fs, d, root, h)
    requires Calm(r.fs, d, Target(root, h)) && Fill(Draft(Of(r.fs), r.dirs), d, root, h, refused).Some?
    ensures var dst, src := Target(root, h), LinkSource(root, h.linkname);
            var linked, fs' := FileSystem.HardLink(r.fs, d, src, dst).1, Linked(r.fs, d, src, dst, h.mode, refused);
            && fs'.faults == []
            && Some(Draft(Of(fs'), r.dirs)) == Fill(Draft(Of(r.fs), r.dirs), d, root, h, refused)
            && ExtractHardLink(RunUnder(r, LinkCalls(linked, refused, rest)), d, src, dst, h.mode)
               == RunUnder(r.(fs := fs'), rest)
  {
    var dst, src := Target(root, h), LinkSource(root, h.linkname);
    LinkFillIs(Draft(Of(r.fs), r.dirs), d, root, h, refused);
    OfDirs(r.fs, d, dst);
    OfNodes(r.fs);
    CalmLookup(r.fs, d, src);
    CalmTree(r.fs, d, dst);
    hide CleanName, Of, AllSearchable, Lookup, Calm, Plain, FileSystem.HardLink, CopyFile, CanOpen, CanRead, PutFile, Put,
      LinkCalls, Fill, Way, CanFill, Fs.WellFormed, Fs.Writable, Locate, Slot, Target, LinkSource;
    LinkedDrafts(r.fs, d, src, dst, h.mode, refused);
    HardLinkShifts(r, d, src, dst, h.mode, refused, rest);
  }

  lemma LinkedCalmly(fs: Fs, d: Path, src: Path, dst: Path)
    requires Calm(fs, d, dst) && Calm(fs, d, src) && d + src in fs.nodes && fs.nodes[d + src].File?
    ensures FileSystem.HardLink(fs, d, src, dst).0.faults == []
    ensures FileSystem.HardLink(fs, d, src, dst).1 <==> d + dst !in fs.nodes && fs.Writable(Parent(d + dst))
  {
    CalmLookup(fs, d, dst);
    CalmLookup(fs, d, src);
    SlotTook(fs, d, dst);
    hide Slot, Lookup, AllSearchable, Plain;
  }

  /** Placing under its schedule is filling in as drafted. */
  lemma PlaceSteers(r: Run, d: Path, root: Name, h: Header, refused: bool, rest: seq<Fault>)
    requires Kept(h) && CleanName(h.name).Some? && !r.failed && d + Target(root, h) != []
    requires Calm(r.fs, d, Target(root, h)) && SourceCan(r.fs, d, root, h)
    requires Fill(Draft(Of(r.fs), r.dirs), d, root, h, refused).Some?
    ensures var dst := Target(root, h);
            var r' := Filled(r, d, root, dst, h, refused);
            && !r'.failed && r'.fs.faults == []
            && Some(Draft(Of(r'.fs), r'.dirs)) == Fill(Draft(Of(r.fs), r.dirs), d, root, h, refused)
            && Place(RunUnder(r, PlaceCalls(r, d, root, dst, h, refused, rest)), d, root, dst, h, false) == RunUnder(r', rest)
  {
    if !h.flag.HardLink? {
      FillAnyway(Draft(Of(r.fs), r.dirs), d, root, h, refused);
    }
    hide CleanName, Calm, Fill, Of, ExtractDir, ExtractReg, ExtractSymlink, ExtractHardLink, CopyFile, Quietly, LinkCalls,
      FileSystem.HardLink, Lookup, RunUnder, SourceCan;
    match h.flag {
      case Directory => DirFills(r, d, root, h, rest);
      case Reg => RegFills(r, d, root, h, rest);
      case SymLink => SymlinkFills(r, d, root, h, rest);
      case HardLink => HardLinkFills(r, d, root, h, refused, rest);
    }
    RunUnderIs(r, PlaceCalls(r, d, root, Target(root, h), h, refused, rest));
  }

  lemma RunUnderIs(r: Run, faults: seq<Fault>)
    ensures RunUnder(r, faults) == r.(fs := Under(r.fs, faults))
  {
  }

  lemma FillAnyway(r: Draft, d: Path, root: Name, h: Header, refused: bool)
    requires Kept(h) && CleanName(h.name).Some? && !h.flag.HardLink?
    ensures Fill(r, d, root, h, refused) == Fill(r, d, root, h, false)
  {
    hide CleanName, Way, CanFill, CanOpen, PutFile;
  }

  // ---------------------------------------------------------------------
  // One header
  // ---------------------------------------------------------------------

  /** The lookups of the parents that are not in the cache, and then `rest`. */
  function ParentCalls(safe: set<Path>, dst: Path, k: nat, rest: seq<Fault>): seq<Fault>
    requires 1 <= k
    decreases |dst| - k
  {
    if k >= |dst| then rest
    else if dst[..k] in safe then ParentCalls(safe, dst, k + 1, rest)
    else [Quiet] + ParentCalls(safe + {dst[..k]}, dst, k + 1, rest)
  }

  lemma {:induction false} ParentsShift(fs: Fs, safe: set<Path>, d: Path, dst: Path, k: nat, rest: seq<Fault>)
    requires Calm(fs, d, dst) && 1 <= k
    ensures CheckParents(Under(fs, ParentCalls(safe, dst, k, rest)), safe, d, dst, k)
            == (Under(fs, rest), CheckParents(fs, safe, d, dst, k).1, true)
    decreases |dst| - k
  {
    hide Lookup, Calm;
    if k < |dst| {
      if dst[..k] in safe {
        ParentsShift(fs, safe, d, dst, k + 1, rest);
      } else {
        PrefixCalm(fs, d, dst, k);
        CalmLookup(fs, d, dst[..k]);
        CalmTree(fs, d, dst);
        ParentsShift(fs, safe + {dst[..k]}, d, dst, k + 1, rest);
        LstatShift(fs, d, dst[..k], ParentCalls(safe + {dst[..k]}, dst, k + 1, rest));
        Shifted(fs, Quiet, []);
      }
    }
  }

  /** The run after a header, and the schedule of the header's calls. */
  function Steered(r: Run, d: Path, top: Name, root: Name, h: Header, refused: bool): Run {
    if !Kept(h) || !Inside(top, h) then r
    else
      var dst := Target(root, h);
      Filled(r.(safe := CheckParents(r.fs, r.safe, d, dst, 1).1), d, root, dst, h, refused)
  }

  function StepCalls(r: Run, d: Path, top: Name, root: Name, h: Header, refused: bool, rest: seq<Fault>): seq<Fault> {
    if !Kept(h) || !Inside(top, h) then rest
    else
      var dst := Target(root, h);
      ParentCalls(r.safe, dst, 1, PlaceCalls(r, d, root, dst, h, refused, rest))
  }

  lemma StepSteers(r: Run, d: Path, top: Name, root: Name, h: Header, refused: bool, rest: seq<Fault>)
    requires !r.failed && r.fs.faults == [] && NextDraft(Draft(Of(r.fs), r.dirs), d, top, root, h, refused).Some?
    requires Kept(h) && Inside(top, h) ==>
               Calm(r.fs, d, Target(root, h)) && SourceCan(r.fs, d, root, h) && d + Target(root, h) != []
    ensures var r' := Steered(r, d, top, root, h, refused);
            && !r'.failed && r'.fs.faults == []
            && Some(Draft(Of(r'.fs), r'.dirs)) == NextDraft(Draft(Of(r.fs), r.dirs), d, top, root, h, refused)
            && Step(RunUnder(r, StepCalls(r, d, top, root, h, refused, rest)), d, top, root, h, false) == RunUnder(r', rest)
  {
    hide CleanName, Calm, SourceCan, Fill, Filled, Of, Place, PlaceCalls, ParentCalls, CheckParents;
    if Kept(h) {
      var dst := Target(root, h);
      var own := PlaceCalls(r, d, root, dst, h, refused, rest);
      ParentsShift(r.fs, r.safe, d, dst, 1, own);
      var r1 := r.(safe := CheckParents(r.fs, r.safe, d, dst, 1).1);
      SameCalls(r, r1, d, root, dst, h, refused, rest);
      PlaceSteers(r1, d, root, h, refused, rest);
    }
  }

  lemma SameCalls(r: Run, r1: Run, d: Path, root: Name, dst: Path, h: Header, refused: bool, rest: seq<Fault>)
    requires dst != [] && Kept(h) && r1.fs == r.fs
    ensures PlaceCalls(r1, d, root, dst, h, refused, rest) == PlaceCalls(r, d, root, dst, h, refused, rest)
  {
  }

  // ---------------------------------------------------------------------
  // The run's invariant
  // ---------------------------------------------------------------------

  /** The files the first `n` headers put down can be got to. */
  ghost predicate WaysThere(j: Job, n: nat, fs: Fs) {
    forall k :: 0 <= k < n <= |j.hs| && (j.hs[k].flag.Reg? || j.hs[k].flag.HardLink?) && CleanName(j.hs[k].name).Some? ==>
      var t := Target(j.root, j.hs[k]); AllSearchable(fs, j.d, t[..|t| - 1])
  }

  /** A run going as drafted, after `n` headers. */
  ghost predicate Going(a: Fs, j: Job, n: nat, r: Run, top: Name) {
    && n <= |j.hs| && Acceptable(j.hs) && Normal(j.root) && !r.failed && r.fs.faults == []
    && Good(j, n, r.fs, r.safe, r.dirs) && BelowTop(j.hs, top, n)
    && Sharing(a, j, n, r.fs, r.dirs) && WaysThere(j, n, r.fs) && Climbing(r.fs, j.d, r.dirs)
  }

  lemma GoingCalm(a: Fs, j: Job, n: nat, r: Run, top: Name, dst: Path)
    requires Going(a, j, n, r, top) && dst != [] && AllNormal(dst)
    ensures Way(Of(r.fs), j.d, dst) <==> Calm(r.fs, j.d, dst)
  {
    OfDirs(r.fs, j.d, dst);
    hide Way, Of, AllSearchable, Acceptable, BelowTop, Sharing, WaysThere, Climbing;
  }

  lemma SourceGoing(a: Fs, j: Job, n: nat, r: Run, top: Name)
    requires Going(a, j, n, r, top) && n < |j.hs|
    ensures SourceCan(r.fs, j.d, j.root, j.hs[n])
  {
    if j.hs[n].flag.HardLink? {
      SourceThere(a, j, n, r.fs, r.safe, r.dirs);
      var k, src := SourceIndex(j.hs, n), LinkSource(j.root, j.hs[n].linkname);
      assert src == Target(j.root, j.hs[k]);
      TargetPlace(j, j.hs[k]);
      assert AllSearchable(r.fs, j.d, src[..|src| - 1]);
      hide CleanName, Acceptable, BelowTop, Sharing, WaysThere, Climbing, AllSearchable, Plain;
    }
  }

  /** What filling in does to directories. */
  lemma FillWaits(r: Draft, d: Path, root: Name, h: Header, refused: bool)
    requires Kept(h) && CleanName(h.name).Some? && Fill(r, d, root, h, refused).Some?
    ensures var r', t := Fill(r, d, root, h, refused).value, Target(root, h);
            && Way(r.s, d, t)
            && (|| r'.dirs == r.dirs
                || (r'.dirs == r.dirs + [DirMode(t, h.mode)] && d + t !in r.s.nodes && d + t in r'.s.nodes && r'.s.nodes[d + t].Dir?))
  {
    hide CleanName, Way, CanFill, CanOpen, CanRead, PutFile;
  }

  lemma WaysThereNext(j: Job, n: nat, a: Fs, b: Fs)
    requires WaysThere(j, n, a) && n < |j.hs| && forall p :: p in a.nodes ==> SameAt(p, a, b)
    requires Kept(j.hs[n]) && CleanName(j.hs[n].name).Some? ==>
               var t := Target(j.root, j.hs[n]); AllSearchable(a, j.d, t[..|t| - 1])
    ensures WaysThere(j, n + 1, b)
  {
    hide CleanName, AllSearchable;
    forall k | 0 <= k < n + 1 <= |j.hs| && (j.hs[k].flag.Reg? || j.hs[k].flag.HardLink?) && CleanName(j.hs[k].name).Some?
      ensures var t := Target(j.root, j.hs[k]); AllSearchable(b, j.d, t[..|t| - 1])
    {
      var t := Target(j.root, j.hs[k]);
      assert AllSearchable(a, j.d, t[..|t| - 1]);
      SearchableStays(a, b, j.d, t[..|t| - 1]);
    }
  }

  lemma GoodUnder(j: Job, n: nat, fs: Fs, faults: seq<Fault>, safe: set<Path>, dirs: seq<DirMode>)
    requires Good(j, n, fs, safe, dirs)
    ensures Good(j, n, Under(fs, faults), safe, dirs)
  {
    hide Good;
    SameNodesKeep(j, n, fs, Under(fs, faults), safe, dirs);
  }

  lemma SharingUnder(a: Fs, j: Job, n: nat, fs: Fs, faults: seq<Fault>, dirs: seq<DirMode>)
    requires Sharing(a, j, n, fs, dirs)
    ensures Sharing(a, j, n, Under(fs, faults), dirs) && Of(Under(fs, faults)) == Of(fs)
  {
    SparedSame(a, fs, Under(fs, faults));
    FilesThereSame(j, n, fs, Under(fs, faults));
    OfSame(fs, Under(fs, faults));
    hide Spared, Newcomers, FilesThere, Of;
  }

  lemma ClimbsNext(a: Fs, b: Fs, d: Path, dirs: seq<DirMode>, dirs': seq<DirMode>, e: DirMode)
    requires Climbing(a, d, dirs) && a.WellFormed() && (forall p :: p in a.nodes ==> SameAt(p, a, b))
    requires e.path != [] && AllNormal(e.path) && AllSearchable(a, d, e.path[..|e.path| - 1])
    requires dirs' == dirs || (dirs' == dirs + [e] && d + e.path !in a.nodes && b.IsDir(d + e.path))
    ensures Climbing(b, d, dirs')
  {
    hide Climbing, AllSearchable, AllNormal, Fs.WellFormed;
    if dirs' == dirs {
      ClimbingStays(a, b, d, dirs);
    } else {
      ClimbingAdds(a, b, d, dirs, e);
    }
  }

  /** The geometry of one drafted header. */
  lemma DraftedKeeps(a: Fs, j: Job, n: nat, r: Run, r': Run, top: Name, refused: bool)
    requires Going(a, j, n, r, top) && n < |j.hs|
    requires NextDraft(Draft(Of(r.fs), r.dirs), j.d, top, j.root, j.hs[n], refused) == Some(Draft(Of(r'.fs), r'.dirs))
    ensures WaysThere(j, n + 1, r'.fs) && Climbing(r'.fs, j.d, r'.dirs)
  {
    var h := j.hs[n];
    OfNodes(r.fs);
    OfNodes(r'.fs);
    assert r.fs.WellFormed();
    if Kept(h) {
      TargetPlace(j, h);
      var t := Target(j.root, h);
      FillKeeps(Draft(Of(r.fs), r.dirs), j.d, j.root, h, refused);
      FillWaits(Draft(Of(r.fs), r.dirs), j.d, j.root, h, refused);
      OfDirs(r.fs, j.d, t);
      hide Of, Fill, CleanName, Acceptable, Good, BelowTop, Sharing, AllSearchable, Way, Climbing, WaysThere, AllNormal,
        Fs.WellFormed, Target;
      forall p | p in r.fs.nodes ensures SameAt(p, r.fs, r'.fs) {
      }
      WaysThereNext(j, n, r.fs, r'.fs);
      ClimbsNext(r.fs, r'.fs, j.d, r.dirs, r'.dirs, DirMode(t, h.mode));
    } else {
      hide Of, CleanName, Acceptable, Good, BelowTop, Sharing, AllSearchable, Climbing, WaysThere, Fs.WellFormed;
      WaysThereNext(j, n, r.fs, r'.fs);
      ClimbingStays(r.fs, r'.fs, j.d, r.dirs);
    }
  }

  /** One header goes as drafted. */
  lemma GoingNext(a: Fs, j: Job, n: nat, r: Run, top: Name, refused: bool, rest: seq<Fault>)
    requires Going(a, j, n, r, top) && n < |j.hs|
    requires NextDraft(Draft(Of(r.fs), r.dirs), j.d, top, j.root, j.hs[n], refused).Some?
    requires !Hits(a.inodes.Keys, Of(r.fs), j.d, top, j.root, j.hs[n])
    ensures var r' := Steered(r, j.d, top, j.root, j.hs[n], refused);
            && Going(a, j, n + 1, r', top)
            && Some(Draft(Of(r'.fs), r'.dirs)) == NextDraft(Draft(Of(r.fs), r.dirs), j.d, top, j.root, j.hs[n], refused)
            && Step(RunUnder(r, StepCalls(r, j.d, top, j.root, j.hs[n], refused, rest)), j.d, top, j.root, j.hs[n], false)
               == RunUnder(r', rest)
  {
    var h, r' := j.hs[n], Steered(r, j.d, top, j.root, j.hs[n], refused);
    GoingSteers(a, j, n, r, top, refused, rest);
    GoingSteers(a, j, n, r, top, refused, []);
    hide Steered, Of, NextDraft, Hits, StepCalls, Step;
    DraftedKeeps(a, j, n, r, r', top, refused);
    GoingStep(a, j, n, r, top, StepCalls(r, j.d, top, j.root, h, refused, []), r');
    hide Good, BelowTop, Sharing, WaysThere, Climbing, Acceptable, Normal;
  }

  lemma GoingSteers(a: Fs, j: Job, n: nat, r: Run, top: Name, refused: bool, rest: seq<Fault>)
    requires Going(a, j, n, r, top) && n < |j.hs|
    requires NextDraft(Draft(Of(r.fs), r.dirs), j.d, top, j.root, j.hs[n], refused).Some?
    ensures var r' := Steered(r, j.d, top, j.root, j.hs[n], refused);
            && !r'.failed && r'.fs.faults == []
            && Some(Draft(Of(r'.fs), r'.dirs)) == NextDraft(Draft(Of(r.fs), r.dirs), j.d, top, j.root, j.hs[n], refused)
            && Step(RunUnder(r, StepCalls(r, j.d, top, j.root, j.hs[n], refused, rest)), j.d, top, j.root, j.hs[n], false)
               == RunUnder(r', rest)
  {
    var h := j.hs[n];
    if Kept(h) && Inside(top, h) {
      TargetPlace(j, h);
      GoingCalm(a, j, n, r, top, Target(j.root, h));
      SourceGoing(a, j, n, r, top);
      FillWaits(Draft(Of(r.fs), r.dirs), j.d, j.root, h, refused);
    }
    assert !r.failed && r.fs.faults == [];
    hide Steered, Of, Fill, StepCalls, Step, Going, Calm, SourceCan, CleanName, Way, Target, AllNormal;
    StepSteers(r, j.d, top, j.root, h, refused, rest);
  }

  lemma GoingStep(a: Fs, j: Job, n: nat, r: Run, top: Name, calls: seq<Fault>, r': Run)
    requires Going(a, j, n, r, top) && n < |j.hs| && !r'.failed && r'.fs.faults == []
    requires Step(RunUnder(r, calls), j.d, top, j.root, j.hs[n], false) == RunUnder(r', [])
    requires !Hits(a.inodes.Keys, Of(r.fs), j.d, top, j.root, j.hs[n])
    ensures Good(j, n + 1, r'.fs, r'.safe, r'.dirs) && BelowTop(j.hs, top, n + 1) && Sharing(a, j, n + 1, r'.fs, r'.dirs)
  {
    hide Step, Good, BelowTop, Sharing, WaysThere, Climbing, Acceptable, Normal, Of, Hits, NextDraft, StepShape;
    GoodUnder(j, n, r.fs, calls, r.safe, r.dirs);
    SharingUnder(a, j, n, r.fs, calls, r.dirs);
    Shifted(r'.fs, Quiet, []);
    StepKeeps(j, n, RunUnder(r, calls), top, false);
    var took := StepDrafts(a, j, n, RunUnder(r, calls), top);
  }

  // ---------------------------------------------------------------------
  // Where a file of the disk is met
  // ---------------------------------------------------------------------

  lemma HitPlace(a: Fs, j: Job, n: nat, r: Run, top: Name)
    requires Going(a, j, n, r, top) && n < |j.hs| && Hits(a.inodes.Keys, Of(r.fs), j.d, top, j.root, j.hs[n])
    ensures var h := j.hs[n];
            var t := Target(j.root, h);
            && Calm(r.fs, j.d, t) && Overwritable(r.fs, j.d, t) && r.fs.nodes[j.d + t].ino in a.inodes
            && (h.flag.HardLink? ==>
                  var src := LinkSource(j.root, h.linkname); Calm(r.fs, j.d, src) && Readable(r.fs, j.d + src))
  {
    var h, t := j.hs[n], Target(j.root, j.hs[n]);
    TargetPlace(j, h);
    GoingCalm(a, j, n, r, top, t);
    SourceGoing(a, j, n, r, top);
    OfDirs(r.fs, j.d, t);
    OfNodes(r.fs);
    OfFiles(r.fs, j.d + t);
    OfFiles(r.fs, j.d + LinkSource(j.root, h.linkname));
    hide Of, Way, CanOpen, CanRead, Calm, AllSearchable, CleanName, Acceptable, Good, BelowTop, Sharing, WaysThere, Climbing;
  }

  lemma SameOpens(a: Fs, b: Fs, i: nat)
    requires Intact(a, b) && i in a.inodes
    ensures i in b.inodes && b.inodes[i] == a.inodes[i]
  {
  }

  lemma HitBreaks(a: Fs, j: Job, n: nat, r: Run, top: Name)
    requires Going(a, j, n, r, top) && n < |j.hs| && Hits(a.inodes.Keys, Of(r.fs), j.d, top, j.root, j.hs[n])
    ensures Broken(a, Step(r, j.d, top, j.root, j.hs[n], false).fs)
  {
    var h, t := j.hs[n], Target(j.root, j.hs[n]);
    HitPlace(a, j, n, r, top);
    var i := r.fs.nodes[j.d + t].ino;
    SameOpens(a, r.fs, i);
    hide Going, Calm, AllSearchable, Overwritable;
    var safe := StepPlaces(r, j.d, top, j.root, h, false);
    hide *;
    PlaceOpens(r.(safe := safe), j.d, j.root, t, h);
    IsBroken(a, Step(r, j.d, top, j.root, h, false).fs, i);
  }

  // ---------------------------------------------------------------------
  // The waiting modes
  // ---------------------------------------------------------------------

  lemma {:induction false} ChmodDirsSteer(fs: Fs, d: Path, dirs: seq<DirMode>, rest: seq<Fault>)
    requires fs.faults == [] && Climbing(fs, d, dirs)
    ensures var (fs', ok) := ChmodDirs(fs, d, dirs);
            ok && fs'.faults == [] && ChmodDirs(Under(fs, Quietly(|dirs|, rest)), d, dirs) == (Under(fs', rest), true)
    decreases |dirs|
  {
    hide Chmod, Climbing;
    if dirs != [] {
      var e := dirs[|dirs| - 1];
      ChmodOneCalm(fs, d, dirs);
      ChmodShift(fs, d, e.path, e.mode, Quietly(|dirs| - 1, rest));
      ChmodDirsSteer(Chmod(fs, d, e.path, e.mode).0, d, dirs[..|dirs| - 1], rest);
    }
  }

  // ---------------------------------------------------------------------
  // The rest of a copy
  // ---------------------------------------------------------------------

  /** From within a source: its other headers, its modes, the sources after it. */
  function Onward(r: Run, p: C.Place, base: Name, top: Name, root: Name, hs: seq<Header>,
                  entries: seq<ArchiveEntry>, tars: seq<Tar>): Fs
    requires |entries| == |tars|
  {
    var r' := Steps(r, p.dir, top, root, hs, false);
    if r'.failed then r'.fs
    else
      var (fs', ok) := ChmodDirs(r'.fs, p.dir, r'.dirs);
      if !ok then fs' else C.ExtractAll(fs', p, base, entries, tars, false).0
  }

  lemma {:induction false} ExtractAllAges(fs: Fs, p: C.Place, base: Name, entries: seq<ArchiveEntry>, tars: seq<Tar>)
    requires |entries| == |tars|
    ensures Ages(fs, C.ExtractAll(fs, p, base, entries, tars, false).0)
    decreases |entries|
  {
    hide Extraction;
    if entries != [] {
      var top, root := entries[0].name, C.RootOf(entries[0], base, p.into);
      ExtractionAges(fs, p.dir, top, root, tars[0]);
      var (fs', ok) := Extraction(fs, p.dir, top, root, tars[0], false);
      if ok {
        ExtractAllAges(fs', p, base, entries[1..], tars[1..]);
      }
    }
  }

  lemma OnwardAges(r: Run, p: C.Place, base: Name, top: Name, root: Name, hs: seq<Header>,
                   entries: seq<ArchiveEntry>, tars: seq<Tar>)
    requires |entries| == |tars|
    ensures Ages(r.fs, Onward(r, p, base, top, root, hs, entries, tars))
  {
    hide Steps, ChmodDirs, C.ExtractAll;
    StepsAge(r, p.dir, top, root, hs);
    var r' := Steps(r, p.dir, top, root, hs, false);
    ChmodDirsAge(r'.fs, p.dir, r'.dirs);
    ExtractAllAges(ChmodDirs(r'.fs, p.dir, r'.dirs).0, p, base, entries, tars);
  }

  /** One header more. */
  lemma OnwardStep(r: Run, p: C.Place, base: Name, top: Name, root: Name, hs: seq<Header>,
                   entries: seq<ArchiveEntry>, tars: seq<Tar>)
    requires |entries| == |tars| && hs != [] && !r.failed
    ensures Onward(r, p, base, top, root, hs, entries, tars)
            == Onward(Step(r, p.dir, top, root, hs[0], false), p, base, top, root, hs[1..], entries, tars)
  {
    hide Step, ChmodDirs, C.ExtractAll;
  }

  /** One source more. */
  lemma OnwardSource(r: Run, p: C.Place, base: Name, top: Name, root: Name, entries: seq<ArchiveEntry>, tars: seq<Tar>)
    requires |entries| == |tars| && entries != [] && !r.failed && !tars[0].broken
    requires ChmodDirs(r.fs, p.dir, r.dirs).1
    ensures Onward(r, p, base, top, root, [], entries, tars)
            == Onward(Run(ChmodDirs(r.fs, p.dir, r.dirs).0, {}, [], false), p, base, entries[0].name,
                      C.RootOf(entries[0], base, p.into), tars[0].headers, entries[1..], tars[1..])
  {
    assert Steps(r, p.dir, top, root, [], false) == r;
    hide Steps, ChmodDirs;
  }

  /** What is known between two sources. */
  ghost predicate Resting(a: Fs, fs: Fs, p: C.Place) {
    a.WellFormed() && fs.WellFormed() && fs.IsDir(p.dir) && Spared(a, fs) && fs.faults == []
  }

  lemma GoingStarts(a: Fs, j: Job, p: C.Place, top: Name)
    requires Resting(a, j.fs0, p) && p.dir == j.d && Acceptable(j.hs) && Normal(j.root)
    ensures Going(a, j, 0, Run(j.fs0, {}, [], false), top)
  {
    StartsGood(j);
    StartsNew(a, j);
    hide Good, Acceptable, Newcomers, Spared, CleanName;
  }

  lemma GoingRests(a: Fs, j: Job, n: nat, r: Run, top: Name, p: C.Place, rest: seq<Fault>)
    requires Going(a, j, n, r, top) && p.dir == j.d
    ensures var (fs', ok) := ChmodDirs(r.fs, j.d, r.dirs);
            && ok && Resting(a, fs', p) && Of(fs') == Settled(Of(r.fs), j.d, r.dirs)
            && ChmodDirs(Under(r.fs, Quietly(|r.dirs|, rest)), j.d, r.dirs) == (Under(fs', rest), true)
  {
    ChmodDirsSteer(r.fs, j.d, r.dirs, rest);
    ChmodDirsDraft(j, n, r.fs, r.safe, r.dirs);
    ChmodDirsSpare(a, j, n, r.fs, r.safe, r.dirs);
    ChmodDirsKeep(j, n, r.fs, r.safe, r.dirs);
    hide ChmodDirs, Of, Settled, Spared, Acceptable, BelowTop, WaysThere, Climbing, Confined, Quietly;
  }

  lemma MeetsStep(files: set<nat>, r: Draft, p: C.Place, base: Name, top: Name, root: Name, hs: seq<Header>,
                  entries: seq<ArchiveEntry>, tars: seq<Tar>) returns (refused: bool)
    requires |entries| == |tars| && hs != [] && Meets(files, r, p, base, top, root, hs, entries, tars)
    requires !Hits(files, r.s, p.dir, top, root, hs[0])
    ensures var next := NextDraft(r, p.dir, top, root, hs[0], refused);
            next.Some? && Meets(files, next.value, p, base, top, root, hs[1..], entries, tars)
  {
    hide Hits, NextDraft;
    refused :| && NextDraft(r, p.dir, top, root, hs[0], refused).Some?
               && Meets(files, NextDraft(r, p.dir, top, root, hs[0], refused).value, p, base, top, root, hs[1..], entries, tars);
  }

  lemma MeetsSource(files: set<nat>, r: Draft, p: C.Place, base: Name, top: Name, root: Name,
                    entries: seq<ArchiveEntry>, tars: seq<Tar>)
    requires |entries| == |tars| && Meets(files, r, p, base, top, root, [], entries, tars)
    ensures entries != [] && Meets(files, Draft(Settled(r.s, p.dir, r.dirs), []), p, base, entries[0].name,
                                   C.RootOf(entries[0], base, p.into), tars[0].headers, entries[1..], tars[1..])
  {
    hide Settled;
  }

  /** Main step of the other direction: what is met on paper is met by a run, under a
      schedule that refuses the chosen hard links and fails nothing else. */
  lemma {:induction false} Drive(a: Fs, j: Job, n: nat, r: Run, top: Name, p: C.Place, base: Name,
                                 entries: seq<ArchiveEntry>, tars: seq<Tar>) returns (faults: seq<Fault>)
    requires Going(a, j, n, r, top) && p.dir == j.d && Normal(base) && AllRead(entries, tars) && |entries| == |tars|
    requires Meets(a.inodes.Keys, Draft(Of(r.fs), r.dirs), p, base, top, j.root, j.hs[n..], entries, tars)
    ensures Broken(a, Onward(RunUnder(r, faults), p, base, top, j.root, j.hs[n..], entries, tars))
    decreases |entries|, |j.hs| - n
  {
    var files, draft, hs := a.inodes.Keys, Draft(Of(r.fs), r.dirs), j.hs[n..];
    GoingIs(a, j, n, r, top);
    hide Going, Of, Meets, Hits, NextDraft, Steered, StepCalls, Step, Onward, Broken, Ages, AllRead, Acceptable, Listing,
      ChmodDirs, Settled, Resting, Quietly;
    if n < |j.hs| {
      assert hs[0] == j.hs[n] && hs[1..] == j.hs[n + 1..];
      if Hits(files, Of(r.fs), j.d, top, j.root, hs[0]) {
        faults := [];
        HitBreaks(a, j, n, r, top);
        OnwardStep(r, p, base, top, j.root, hs, entries, tars);
        var r' := Step(r, j.d, top, j.root, hs[0], false);
        OnwardAges(r', p, base, top, j.root, hs[1..], entries, tars);
        BrokenStays(a, r'.fs, Onward(r', p, base, top, j.root, hs[1..], entries, tars));
      } else {
        var refused := MeetsStep(files, draft, p, base, top, j.root, hs, entries, tars);
        GoingNext(a, j, n, r, top, refused, []);
        var r' := Steered(r, j.d, top, j.root, hs[0], refused);
        var more := Drive(a, j, n + 1, r', top, p, base, entries, tars);
        faults := StepCalls(r, j.d, top, j.root, hs[0], refused, more);
        GoingNext(a, j, n, r, top, refused, more);
        OnwardStep(RunUnder(r, faults), p, base, top, j.root, hs, entries, tars);
      }
    } else {
      assert hs == [];
      MeetsSource(files, draft, p, base, top, j.root, entries, tars);
      GoingRests(a, j, n, r, top, p, []);
      var fs', e, t := ChmodDirs(r.fs, j.d, r.dirs).0, entries[0], tars[0];
      NextSource(entries, tars, base, p);
      var j' := Job(fs', j.d, C.RootOf(e, base, p.into), t.headers);
      GoingStarts(a, j', p, e.name);
      assert j'.hs[0..] == j'.hs;
      var more := Drive(a, j', 0, Run(fs', {}, [], false), e.name, p, base, entries[1..], tars[1..]);
      faults := Quietly(|r.dirs|, more);
      GoingRests(a, j, n, r, top, p, more);
      OnwardSource(RunUnder(r, faults), p, base, top, j.root, entries, tars);
    }
  }

  lemma GoingIs(a: Fs, j: Job, n: nat, r: Run, top: Name)
    requires Going(a, j, n, r, top)
    ensures n <= |j.hs| && !r.failed && r.fs.faults == [] && RunUnder(r, []) == r
  {
    Shifted(r.fs, Quiet, []);
  }

  lemma NextSource(entries: seq<ArchiveEntry>, tars: seq<Tar>, base: Name, p: C.Place)
    requires AllRead(entries, tars) && entries != [] && Normal(base)
    ensures !tars[0].broken && Acceptable(tars[0].headers) && Normal(C.RootOf(entries[0], base, p.into))
    ensures AllRead(entries[1..], tars[1..]) && |entries| == |tars|
  {
    AllReadRest(entries, tars);
    hide Acceptable, Listing;
    TopIsNormal(tars[0].headers, entries[0]);
  }
}
