/** archiveTree, and the round trip: a tree archived and extracted where nothing
    stood comes back the same, read-only directories included. */
module RoundTrip {
  import opened Wrappers
  import opened FileSystem
  import opened Archive
  import opened Extract
  import opened ExtractSafety
  import opened NoClobber
  import Lines

  // ---------------------------------------------------------------------
  // Trees and their archives
  // ---------------------------------------------------------------------

  /** What lies at a path being archived; Special is a socket, a device and the
      like. Kids are in the order of the directory walk. */
  datatype Tree =
    | FileTree(content: Bytes, mode: Perm)
    | LinkTree(target: string)
    | DirTree(mode: Perm, kids: Kids)
    | Special
  datatype Kids = NoKids | Kid(name: Name, tree: Tree, rest: Kids)

  predicate HasKid(ks: Kids, n: Name) {
    ks.Kid? && (ks.name == n || HasKid(ks.rest, n))
  }

  /** Every directory's names are ordinary and different. */
  predicate ValidTree(t: Tree) { t.DirTree? ==> ValidKids(t.kids) }

  predicate ValidKids(ks: Kids) {
    ks.Kid? ==> Normal(ks.name) && !HasKid(ks.rest, ks.name) && ValidTree(ks.tree) && ValidKids(ks.rest)
  }

  function Slashed(comps: Path): string { Lines.Join(comps, '/') }

  predicate OneLine(name: string) { '\n' !in name && '\r' !in name }

  /** archiveTree for the tree at archive path `comps`: the entry, then whatever
      is below it. A name that does not fit one line refuses the whole archive;
      a special file is skipped. */
  function ArchiveTree(comps: Path, t: Tree): Option<seq<Header>>
    requires comps != []
    decreases t
  {
    if t.Special? then Some([])
    else if !OneLine(Slashed(comps)) then None
    else match t
         case FileTree(content, mode) => Some([Header(Reg, Slashed(comps), "", mode, content)])
         case LinkTree(target) => Some([Header(SymLink, Slashed(comps), target, {}, [])])
         case DirTree(mode, kids) =>
           (match ArchiveKids(comps, kids)
            case None => None
            case Some(hs) => Some([Header(Directory, Slashed(comps) + "/", "", mode, [])] + hs))
  }

  function ArchiveKids(comps: Path, ks: Kids): Option<seq<Header>>
    requires comps != []
    decreases ks
  {
    match ks
    case NoKids => Some([])
    case Kid(n, t, rest) =>
      (match (ArchiveTree(comps + [n], t), ArchiveKids(comps, rest))
       case (Some(hs), Some(more)) => Some(hs + more)
       case _ => None)
  }

  // ---------------------------------------------------------------------
  // Names survive
  // ---------------------------------------------------------------------

  lemma SplitSlashed(comps: Path, tail: string)
    requires comps != [] && AllNormal(comps) && (tail == "" || tail == "/")
    ensures Lines.Split(Slashed(comps) + tail, '/') == if tail == "" then comps else comps + [""]
  {
    var parts := if tail == "" then comps else comps + [""];
    forall p | p in parts ensures '/' !in p {
      assert p in comps || p == "";
    }
    Lines.SplitJoin(parts, '/');
    if tail == "" {
      assert Slashed(comps) + "" == Slashed(comps);
    } else {
      Lines.JoinAppend(comps, [""], '/');
      assert Slashed(comps) + ['/'] + "" == Slashed(comps) + tail;
    }
  }

  lemma {:induction false} CleanNormal(cs: Path, acc: Path, tail: seq<string>)
    requires AllNormal(cs) && (tail == [] || tail == [""])
    ensures CleanComps(cs + tail, acc) == acc + cs
    decreases |cs|
  {
    if cs == [] {
      if tail != [] {
        assert (cs + tail)[1..] == [];
      }
    } else {
      assert (cs + tail)[1..] == cs[1..] + tail;
      CleanNormal(cs[1..], acc + [cs[0]], tail);
      assert acc + [cs[0]] + cs[1..] == acc + cs;
    }
  }

  /** The name an entry is given reads back as the path it was made from. */
  lemma CleanJoin(comps: Path, tail: string)
    requires comps != [] && AllNormal(comps) && (tail == "" || tail == "/")
    ensures CleanName(Slashed(comps) + tail) == Some(comps)
  {
    SplitSlashed(comps, tail);
    assert comps + [] == comps;
    CleanNormal(comps, [], if tail == "" then [] else [""]);
    var none: Path := [];
    assert none + comps == comps;
    assert Normal(comps[0]);
    assert Slashed(comps) + tail != "" && (Slashed(comps) + tail)[0] == comps[0][0];
    assert comps[0][0] != '/';
  }

  /** Every header of a tree's archive is kept, is no hard link, and names a path
      at or below the tree's own; no two name the same. */
  ghost predicate Tidy(hs: seq<Header>, comps: Path) {
    && (forall i :: 0 <= i < |hs| ==>
          Kept(hs[i]) && !hs[i].flag.HardLink? && CleanName(hs[i].name).Some? && comps <= CleanName(hs[i].name).value)
    && NamedOnce(hs)
  }

  lemma {:induction false} ArchiveTidy(comps: Path, t: Tree)
    requires comps != [] && AllNormal(comps) && ValidTree(t) && ArchiveTree(comps, t).Some?
    ensures Tidy(ArchiveTree(comps, t).value, comps)
    decreases t
  {
    hide CleanName;
    CleanJoin(comps, "");
    CleanJoin(comps, "/");
    assert Slashed(comps) + "" == Slashed(comps);
    if t.DirTree? {
      KidsTidy(comps, t.kids);
      var more, hs := ArchiveKids(comps, t.kids).value, ArchiveTree(comps, t).value;
      assert NamedOnce(hs) by {
        forall i, j | 0 <= i < j < |hs| ensures CleanName(hs[i].name) != CleanName(hs[j].name) {
          assert hs[j] == more[j - 1];
          assert i > 0 ==> hs[i] == more[i - 1];
        }
      }
    }
  }

  lemma {:induction false} KidsTidy(comps: Path, ks: Kids)
    requires comps != [] && AllNormal(comps) && ValidKids(ks) && ArchiveKids(comps, ks).Some?
    ensures var hs := ArchiveKids(comps, ks).value;
            && Tidy(hs, comps)
            && forall i :: 0 <= i < |hs| ==>
                 |CleanName(hs[i].name).value| > |comps| && HasKid(ks, CleanName(hs[i].name).value[|comps|])
    decreases ks
  {
    hide CleanName;
    if ks.Kid? {
      var below := comps + [ks.name];
      ArchiveTidy(below, ks.tree);
      KidsTidy(comps, ks.rest);
      var first, more, hs := ArchiveTree(below, ks.tree).value, ArchiveKids(comps, ks.rest).value, ArchiveKids(comps, ks).value;
      forall i | 0 <= i < |first| ensures CleanName(first[i].name).value[|comps|] == ks.name {
        assert below <= CleanName(first[i].name).value;
      }
      assert forall i :: 0 <= i < |hs| ==> hs[i] == if i < |first| then first[i] else more[i - |first|];
      assert NamedOnce(hs) by {
        forall i, j | 0 <= i < j < |hs| ensures CleanName(hs[i].name) != CleanName(hs[j].name) {
          if i < |first| <= j {
            assert HasKid(ks.rest, CleanName(hs[j].name).value[|comps|]);
          }
        }
      }
    }
  }

  lemma ArchiveAcceptable(base: Name, t: Tree)
    requires Normal(base) && ValidTree(t) && ArchiveTree([base], t).Some?
    ensures Acceptable(ArchiveTree([base], t).value)
  {
    hide CleanName;
    ArchiveTidy([base], t);
  }

  // ---------------------------------------------------------------------
  // What extraction builds
  // ---------------------------------------------------------------------

  /** The tree `t` stands at `p`, and nothing else below it. While `loose`,
      directories still have the mode they were made with. */
  ghost predicate Holds(fs: Fs, p: Path, t: Tree, loose: bool)
    decreases t
  {
    match t
    case FileTree(content, mode) =>
      p in fs.nodes && fs.nodes[p].File? && fs.nodes[p].ino in fs.inodes
      && fs.inodes[fs.nodes[p].ino].content == content && fs.inodes[fs.nodes[p].ino].mode == mode
    case LinkTree(target) => p in fs.nodes && fs.nodes[p] == Link(target)
    case DirTree(mode, kids) =>
      && p in fs.nodes
      && fs.nodes[p] == Dir(if loose then mode + OWNER_ALL - fs.umask else mode)
      && (forall q :: q in fs.nodes && p < q ==> HasKid(kids, q[|p|]))
      && KidsHold(fs, p, kids, loose)
    case Special => forall q :: p <= q ==> q !in fs.nodes
  }

  ghost predicate KidsHold(fs: Fs, p: Path, ks: Kids, loose: bool)
    decreases ks
  {
    ks.Kid? ==> Holds(fs, p + [ks.name], ks.tree, loose) && KidsHold(fs, p, ks.rest, loose)
  }

  /** Nothing at or below `p` differs, and old files are as they were. */
  ghost predicate SameBelow(p: Path, a: Fs, b: Fs) {
    (forall q :: p <= q ==> SameAt(q, a, b)) && OldInodes(a, b) && a.umask == b.umask
  }

  /** The same for what lies under the names `ks`. */
  ghost predicate SameUnder(p: Path, ks: Kids, a: Fs, b: Fs) {
    && (forall q :: p < q && HasKid(ks, q[|p|]) ==> SameAt(q, a, b))
    && OldInodes(a, b) && a.umask == b.umask
  }

  lemma {:induction false} HoldsFrame(a: Fs, b: Fs, p: Path, t: Tree, loose: bool)
    requires Holds(a, p, t, loose) && SameBelow(p, a, b)
    ensures Holds(b, p, t, loose)
    decreases t
  {
    assert SameAt(p, a, b);
    if t.DirTree? {
      KidsFrame(a, b, p, t.kids, loose);
      forall q | q in b.nodes && p < q ensures HasKid(t.kids, q[|p|]) {
        assert SameAt(q, a, b);
      }
    } else if t.Special? {
      forall q | p <= q ensures q !in b.nodes {
        assert SameAt(q, a, b);
      }
    }
  }

  lemma {:induction false} KidsFrame(a: Fs, b: Fs, p: Path, ks: Kids, loose: bool)
    requires KidsHold(a, p, ks, loose) && SameUnder(p, ks, a, b)
    ensures KidsHold(b, p, ks, loose)
    decreases ks
  {
    if ks.Kid? {
      var below := p + [ks.name];
      forall q | below <= q ensures SameAt(q, a, b) {
        assert q[|p|] == below[|p|] == ks.name;
      }
      HoldsFrame(a, b, below, ks.tree, loose);
      KidsFrame(a, b, p, ks.rest, loose);
    }
  }

  /** The directories of a tree in the order they are made. */
  function DirsOf(dst: Path, t: Tree): seq<DirMode>
    decreases t
  {
    if t.DirTree? then [DirMode(dst, t.mode)] + DirsOfKids(dst, t.kids) else []
  }

  function DirsOfKids(dst: Path, ks: Kids): seq<DirMode>
    decreases ks
  {
    match ks
    case NoKids => []
    case Kid(n, t, rest) => DirsOf(dst + [n], t) + DirsOfKids(dst, rest)
  }

  /** A quiet disk on which every directory down to `dst`'s parent is open, and
      nothing stands at `dst`. */
  ghost predicate Ready(fs: Fs, d: Path, dst: Path) {
    && fs.WellFormed() && fs.NoFaults() && fs.umask !! OWNER_ALL
    && dst != [] && AllNormal(dst)
    && AllSearchable(fs, d, dst[..|dst| - 1]) && fs.Writable(Parent(d + dst))
  }

  /** The disk grew below `q` only. */
  ghost predicate GrewBelow(q: Path, a: Fs, b: Fs) {
    && b.WellFormed() && b.NoFaults() && b.umask == a.umask
    && (forall p :: !(q <= p) ==> SameAt(p, a, b))
    && OldInodes(a, b)
  }

  lemma GrewTransitive(q: Path, a: Fs, b: Fs, c: Fs)
    requires GrewBelow(q, a, b) && GrewBelow(q, b, c)
    ensures GrewBelow(q, a, c)
  {
    forall p | !(q <= p) ensures SameAt(p, a, c) {
      assert SameAt(p, a, b) && SameAt(p, b, c);
    }
  }

  lemma GrewWider(wide: Path, q: Path, a: Fs, b: Fs)
    requires GrewBelow(q, a, b) && wide <= q
    ensures GrewBelow(wide, a, b)
  {
  }

  lemma NothingBelow(fs: Fs, q: Path, p: Path)
    requires fs.WellFormed() && q !in fs.nodes && q <= p
    ensures p !in fs.nodes
  {
    assert p[..|q|] == q && p[..|p|] == p;
    if p in fs.nodes && |q| < |p| {
      AncestorsAreDirs(fs, p, |q|);
    }
  }

  lemma ReadyIsPlain(fs: Fs, d: Path, dst: Path)
    requires Ready(fs, d, dst)
    ensures Plain(fs, d, dst) && !fs.Faulty()
    ensures Lookup(fs, d, dst) == if d + dst in fs.nodes then Some(fs.nodes[d + dst]) else None
    ensures Slot(fs, d, dst) == Some(d + dst)
    ensures Locate(fs, d, dst) == Some(d + dst)
  {
    hide Lookup, Slot, Walk, Locate, AllSearchable, NoLinks, Fs.WellFormed;
    OpenHasNoLinks(fs, d, dst[..|dst| - 1]);
    LookupPlain(fs, d, dst);
    LocatePlain(fs, d, dst);
  }

  /** On the way down to a ready place every parent passes the check. */
  lemma {:induction false} ParentsPass(fs: Fs, safe: set<Path>, d: Path, dst: Path, k: nat)
    requires Ready(fs, d, dst) && 1 <= k
    ensures var (fs', safe', ok) := CheckParents(fs, safe, d, dst, k);
            ok && Ready(fs', d, dst) && SameStore(fs, fs') && fs'.umask == fs.umask
    decreases |dst| - k
  {
    hide Lookup, Walk, Locate, Ready, AllSearchable, Plain;
    if k < |dst| {
      if dst[..k] in safe {
        ParentsPass(fs, safe, d, dst, k + 1);
      } else {
        PrefixReady(fs, d, dst, k);
        LookupPlain(fs, d, dst[..k]);
        Ticked(fs, d, dst);
        ParentsPass(fs.Tick(), safe + {dst[..k]}, d, dst, k + 1);
      }
    }
  }

  lemma Ticked(fs: Fs, d: Path, dst: Path)
    requires Ready(fs, d, dst)
    ensures Ready(fs.Tick(), d, dst) && !fs.Faulty()
  {
    ReadyTick(fs, fs.Tick(), d, dst);
  }

  lemma ReadyTick(fs: Fs, fs': Fs, d: Path, dst: Path)
    requires Ready(fs, d, dst) && SameStore(fs, fs') && fs'.umask == fs.umask && fs'.NoFaults()
    ensures Ready(fs', d, dst)
  {
    var up := dst[..|dst| - 1];
    forall k | 0 <= k <= |up| ensures fs'.Searchable(d + up[..k]) {
      assert fs.Searchable(d + up[..k]);
    }
  }

  lemma PrefixReady(fs: Fs, d: Path, dst: Path, k: nat)
    requires Ready(fs, d, dst) && 1 <= k < |dst|
    ensures Plain(fs, d, dst[..k]) && AllSearchable(fs, d, dst[..k][..k - 1]) && fs.IsDir(d + dst[..k])
  {
    hide Fs.WellFormed, Fs.NoFaults;
    var up := dst[..|dst| - 1];
    assert dst[..k] == up[..k] && dst[..k][..k - 1] == up[..k - 1];
    assert fs.Searchable(d + up[..k]);
    hide AllSearchable, NoLinks, Fs.Writable;
    SearchablePrefix(fs, d, up, k - 1);
    assert AllNormal(dst[..k]);
    hide Normal, AllNormal;
  }

  lemma {:induction false} StepsConcat(r: Run, d: Path, top: Name, root: Name, a: seq<Header>, b: seq<Header>, force: bool)
    ensures Steps(r, d, top, root, a + b, force) == Steps(Steps(r, d, top, root, a, force), d, top, root, b, force)
    decreases |a|
  {
    hide Step;
    if a == [] {
      assert a + b == b;
    } else if !r.failed {
      assert (a + b)[1..] == a[1..] + b;
      StepsConcat(Step(r, d, top, root, a[0], force), d, top, root, a[1..], b, force);
    }
  }

  lemma ClearedReady(r: Run, d: Path, dst: Path, force: bool)
    requires Ready(r.fs, d, dst) && d + dst !in r.fs.nodes
    ensures var r' := Cleared(r, d, dst, force);
            && Ready(r'.fs, d, dst) && SameStore(r.fs, r'.fs) && r'.fs.umask == r.fs.umask
            && r'.dirs == r.dirs && r'.failed == r.failed
  {
    hide Slot;
    ReadyIsPlain(r.fs, d, dst);
    ReadyTick(r.fs, r.fs.Tick(), d, dst);
  }

  /** A call that adds a leaf where nothing stood. */
  lemma Grown(d: Path, dst: Path, a: Fs, b: Fs)
    requires Ready(a, d, dst) && d + dst !in a.nodes && OnlyAt(d + dst, d + dst, a, b)
    requires b.NoFaults() && b.umask == a.umask
    ensures GrewBelow(d + dst, a, b)
    ensures forall q :: d + dst < q ==> q !in b.nodes
  {
    assert a.IsDir(Parent(d + dst));
    TreeKept(a, b, d + dst, d + dst);
    forall q | d + dst < q ensures q !in b.nodes {
      NothingBelow(a, d + dst, q);
      assert SameAt(q, a, b);
    }
  }

  lemma DirBuilt(r: Run, d: Path, dst: Path, mode: Perm)
    requires Ready(r.fs, d, dst) && d + dst !in r.fs.nodes && !r.failed
    ensures var r' := ExtractDir(r, d, dst, mode);
            && !r'.failed && r'.dirs == r.dirs + [DirMode(dst, mode)] && GrewBelow(d + dst, r.fs, r'.fs)
            && d + dst in r'.fs.nodes && r'.fs.nodes[d + dst] == Dir(mode + OWNER_ALL - r.fs.umask)
            && forall q :: d + dst < q ==> q !in r'.fs.nodes
  {
    ReadyIsPlain(r.fs, d, dst);
    hide Lookup, Slot, Walk, Locate, OnlyAt;
    var fs := r.fs.Tick();
    ReadyTick(r.fs, fs, d, dst);
    ReadyIsPlain(fs, d, dst);
    MkdirPlain(fs, d, dst, mode + OWNER_ALL, d + dst);
    var fs' := Mkdir(fs, d, dst, mode + OWNER_ALL).0;
    Grown(d, dst, fs, fs');
    forall p | !(d + dst <= p) ensures SameAt(p, r.fs, fs') {
      assert SameAt(p, fs, fs');
    }
  }

  lemma LinkBuilt(r: Run, d: Path, dst: Path, target: string)
    requires Ready(r.fs, d, dst) && d + dst !in r.fs.nodes && !r.failed
    ensures var r' := ExtractSymlink(r, d, dst, target);
            && !r'.failed && r'.dirs == r.dirs && GrewBelow(d + dst, r.fs, r'.fs)
            && Holds(r'.fs, d + dst, LinkTree(target), true)
  {
    ReadyIsPlain(r.fs, d, dst);
    hide Lookup, Slot, Walk, Locate, OnlyAt;
    SymlinkPlain(r.fs, d, dst, target, d + dst);
    Grown(d, dst, r.fs, Symlink(r.fs, d, dst, target).0);
  }

  /** A new file is there with its content and exactly the recorded mode, whatever
      the umask. */
  lemma FileBuilt(r: Run, d: Path, dst: Path, mode: Perm, content: Bytes)
    requires dst != [] && Ready(r.fs, d, dst) && d + dst !in r.fs.nodes && !r.failed
    ensures var r' := ExtractReg(r, d, dst, mode, content);
            && !r'.failed && r'.dirs == r.dirs && GrewBelow(d + dst, r.fs, r'.fs)
            && Holds(r'.fs, d + dst, FileTree(content, mode), true)
  {
    hide OpenTrunc, WriteAll, Chmod, Walk, Ready, GrewBelow, Fs.NoFaults;
    var q, fs := d + dst, r.fs;
    FileOpened(fs, d, dst, mode);
    var (fs1, ino) := OpenTrunc(fs, d, dst, mode);
    WrittenQuietly(fs1, ino.value, content);
    var fs2 := WriteAll(fs1, ino.value, content).0;
    FileReached(fs, fs2, d, dst, ino.value);
    ModeSetQuietly(fs2, d, dst, ino.value, mode);
    var fs3 := Chmod(fs2, d, dst, mode).0;
    TimesSetQuietly(fs3, d, dst);
    var fs4 := Chtimes(fs3, d, dst).0;
    FileGrew(fs, fs1, fs4, q, ino.value);
  }

  lemma WrittenQuietly(fs: Fs, i: nat, content: Bytes)
    requires fs.NoFaults() && i in fs.inodes
    ensures var (fs', ok) := WriteAll(fs, i, content);
            && ok && fs'.NoFaults() && fs'.nodes == fs.nodes && fs'.umask == fs.umask
            && fs'.inodes == fs.inodes[i := fs.inodes[i].(content := content)]
  {
    assert content[..|content|] == content;
  }

  lemma ModeSetQuietly(fs: Fs, d: Path, dst: Path, i: nat, mode: Perm)
    requires fs.NoFaults() && Walk(fs, d, dst, MAX_LINKS) == Some(d + dst)
    requires d + dst in fs.nodes && fs.nodes[d + dst] == File(i) && i in fs.inodes
    ensures var (fs', ok) := Chmod(fs, d, dst, mode);
            && ok && fs'.NoFaults() && fs'.nodes == fs.nodes && fs'.umask == fs.umask
            && fs'.inodes == fs.inodes[i := fs.inodes[i].(mode := mode)]
            && Walk(fs', d, dst, MAX_LINKS) == Some(d + dst)
  {
    hide Walk;
    WalkSame(fs, Chmod(fs, d, dst, mode).0, d, dst, MAX_LINKS);
  }

  lemma TimesSetQuietly(fs: Fs, d: Path, dst: Path)
    requires fs.NoFaults() && Walk(fs, d, dst, MAX_LINKS).Some?
    ensures var (fs', ok) := Chtimes(fs, d, dst);
            ok && fs'.NoFaults() && SameStore(fs, fs') && fs'.umask == fs.umask
  {
    hide Walk;
  }

  lemma FileOpened(fs: Fs, d: Path, dst: Path, mode: Perm)
    requires Ready(fs, d, dst) && d + dst !in fs.nodes
    ensures var (fs1, ino) := OpenTrunc(fs, d, dst, mode);
            && ino.Some? && ino.value !in fs.inodes && ino.value in fs1.inodes && fs1.NoFaults()
            && fs1.nodes == fs.nodes[d + dst := File(ino.value)] && GrewBelow(d + dst, fs, fs1)
  {
    ReadyIsPlain(fs, d, dst);
    hide Lookup, Slot, Walk, Locate, OnlyAt, FreshIno;
    OpenTruncPlain(fs, d, dst, mode, d + dst);
    Grown(d, dst, fs, OpenTrunc(fs, d, dst, mode).0);
  }

  lemma FileReached(fs: Fs, fs': Fs, d: Path, dst: Path, i: nat)
    requires Ready(fs, d, dst) && d + dst !in fs.nodes && fs'.nodes == fs.nodes[d + dst := File(i)]
    ensures Walk(fs', d, dst, MAX_LINKS) == Some(d + dst)
  {
    hide Walk, Lookup, Slot, Locate;
    ReadyIsPlain(fs, d, dst);
    var up := dst[..|dst| - 1];
    forall k | 0 <= k <= |up| ensures fs'.Searchable(d + up[..k]) {
      assert fs.Searchable(d + up[..k]);
    }
    PlainFinal(fs', d, dst);
  }

  lemma FileGrew(a: Fs, b: Fs, c: Fs, q: Path, i: nat)
    requires GrewBelow(q, a, b) && i in b.inodes && i !in a.inodes
    requires c.nodes == b.nodes && i in c.inodes && c.inodes == b.inodes[i := c.inodes[i]]
    requires c.umask == b.umask && c.NoFaults()
    ensures GrewBelow(q, a, c)
  {
    forall p | !(q <= p) ensures SameAt(p, a, c) {
      assert SameAt(p, a, b);
    }
  }

  /** A header whose place is ready reaches its own call. */
  lemma StepReady(r: Run, d: Path, top: Name, root: Name, comps: Path, dst: Path, h: Header, force: bool) returns (c: Run)
    requires PlaceFor(r, d, top, root, comps, dst) && Kept(h) && CleanName(h.name) == Some(comps)
    ensures !c.failed && c.dirs == r.dirs && SameStore(r.fs, c.fs) && c.fs.umask == r.fs.umask
    ensures Ready(c.fs, d, dst) && dst != []
    ensures Step(r, d, top, root, h, force) ==
            match h.flag
            case Directory => ExtractDir(c, d, dst, h.mode)
            case Reg => ExtractReg(c, d, dst, h.mode, h.content)
            case SymLink => ExtractSymlink(c, d, dst, h.linkname)
            case _ => Step(r, d, top, root, h, force)
  {
    hide CleanName, CheckParents, Cleared, Ready, ExtractDir, ExtractReg, ExtractSymlink, ExtractHardLink;
    ParentsPass(r.fs, r.safe, d, dst, 1);
    var (fs, safe, ok) := CheckParents(r.fs, r.safe, d, dst, 1);
    c := r.(fs := fs, safe := safe);
    if !h.flag.Directory? {
      ClearedReady(c, d, dst, force);
      c := Cleared(c, d, dst, force);
    }
  }

  /** What extracting the archive of a tree at a ready, free place builds. */
  ghost predicate Built(r: Run, r': Run, d: Path, dst: Path, t: Tree) {
    && !r'.failed && r'.dirs == r.dirs + DirsOf(dst, t)
    && GrewBelow(d + dst, r.fs, r'.fs)
    && Holds(r'.fs, d + dst, t, true)
  }

  lemma SameThenGrew(q: Path, a: Fs, b: Fs, c: Fs)
    requires SameStore(a, b) && b.umask == a.umask && GrewBelow(q, b, c)
    ensures GrewBelow(q, a, c)
  {
    forall p | !(q <= p) ensures SameAt(p, a, c) {
      assert SameAt(p, b, c);
    }
  }

  /** A place for the archive path `comps`: the root's name for the first
      component, the rest as it is. */
  ghost predicate PlaceFor(r: Run, d: Path, top: Name, root: Name, comps: Path, dst: Path) {
    && comps != [] && comps[0] == top && AllNormal(comps) && dst == [root] + comps[1..]
    && Ready(r.fs, d, dst) && d + dst !in r.fs.nodes && !r.failed
  }

  lemma {:induction false} TreeBuilt(r: Run, d: Path, top: Name, root: Name, comps: Path, dst: Path, t: Tree, force: bool)
    requires PlaceFor(r, d, top, root, comps, dst) && ValidTree(t) && ArchiveTree(comps, t).Some?
    ensures Built(r, Steps(r, d, top, root, ArchiveTree(comps, t).value, force), d, dst, t)
    decreases t, 1
  {
    hide CleanName, Ready, Step, GrewBelow, Holds;
    if t.Special? {
      NothingBuilt(r, d, dst);
    } else if t.DirTree? {
      DirTreeBuilt(r, d, top, root, comps, dst, t, force);
    } else {
      LeafTreeBuilt(r, d, top, root, comps, dst, t, force);
    }
  }

  lemma LeafTreeBuilt(r: Run, d: Path, top: Name, root: Name, comps: Path, dst: Path, t: Tree, force: bool)
    requires PlaceFor(r, d, top, root, comps, dst) && ArchiveTree(comps, t).Some? && (t.FileTree? || t.LinkTree?)
    ensures Built(r, Steps(r, d, top, root, ArchiveTree(comps, t).value, force), d, dst, t)
  {
    NamedRight(comps, t);
    hide CleanName, Ready, Step, GrewBelow, Holds, ExtractReg, ExtractSymlink, Slashed, AllNormal, CleanComps;
    var hs := ArchiveTree(comps, t).value;
    assert hs == [hs[0]] && r.dirs + [] == r.dirs;
    OneStep(r, d, top, root, hs[0], force);
    var c := StepReady(r, d, top, root, comps, dst, hs[0], force);
    hide Steps;
    LeafBuilt(c, d, dst, t);
    SameThenGrew(d + dst, r.fs, c.fs, Step(r, d, top, root, hs[0], force).fs);
  }

  lemma OneStep(r: Run, d: Path, top: Name, root: Name, h: Header, force: bool)
    requires !r.failed
    ensures Steps(r, d, top, root, [h], force) == Step(r, d, top, root, h, force)
  {
    hide Step;
    assert [h][1..] == [];
  }

  lemma {:induction false} DirTreeBuilt(r: Run, d: Path, top: Name, root: Name, comps: Path, dst: Path, t: Tree, force: bool)
    requires PlaceFor(r, d, top, root, comps, dst) && ValidTree(t) && ArchiveTree(comps, t).Some? && t.DirTree?
    ensures Built(r, Steps(r, d, top, root, ArchiveTree(comps, t).value, force), d, dst, t)
    decreases t, 0
  {
    DirMade(r, d, top, root, comps, dst, t, force);
    ArchiveShape(comps, t);
    hide CleanName, Step, GrewBelow, Holds, Inside, ArchiveTree, ArchiveKids, KidsDone, Ready;
    var hs := ArchiveTree(comps, t).value;
    var r1 := Step(r, d, top, root, hs[0], force);
    KidsBuilt(r1, d, top, root, comps, dst, t.kids, force);
    DirFinished(r, r1, Steps(r1, d, top, root, hs[1..], force), d, dst, t.mode, t.kids);
  }

  lemma ArchiveShape(comps: Path, t: Tree)
    requires comps != [] && ArchiveTree(comps, t).Some? && t.DirTree?
    ensures ArchiveKids(comps, t.kids).Some?
    ensures var hs := ArchiveTree(comps, t).value; hs != [] && hs[1..] == ArchiveKids(comps, t.kids).value
  {
  }

  lemma KidsShape(comps: Path, ks: Kids)
    requires comps != [] && ArchiveKids(comps, ks).Some? && ks.Kid?
    ensures ArchiveTree(comps + [ks.name], ks.tree).Some? && ArchiveKids(comps, ks.rest).Some?
    ensures ArchiveKids(comps, ks).value == ArchiveTree(comps + [ks.name], ks.tree).value + ArchiveKids(comps, ks.rest).value
  {
  }

  /** What extracting the archives of a directory's kids builds. */
  ghost predicate KidsDone(r: Run, r': Run, d: Path, dst: Path, ks: Kids) {
    && !r'.failed && r'.dirs == r.dirs + DirsOfKids(dst, ks)
    && GrewBelow(d + dst, r.fs, r'.fs)
    && OnlyKids(d + dst, ks, r.fs, r'.fs)
    && KidsHold(r'.fs, d + dst, ks, true)
  }

  /** The directory itself, before its kids. */
  lemma DirMade(r: Run, d: Path, top: Name, root: Name, comps: Path, dst: Path, t: Tree, force: bool)
    requires PlaceFor(r, d, top, root, comps, dst) && ArchiveTree(comps, t).Some? && t.DirTree?
    ensures var r1 := Step(r, d, top, root, ArchiveTree(comps, t).value[0], force);
            && !r1.failed && r1.dirs == r.dirs + [DirMode(dst, t.mode)]
            && GrewBelow(d + dst, r.fs, r1.fs) && Inside(r1.fs, d, dst)
            && d + dst in r1.fs.nodes && r1.fs.nodes[d + dst] == Dir(t.mode + OWNER_ALL - r.fs.umask)
            && forall q :: d + dst < q ==> q !in r1.fs.nodes
  {
    NamedRight(comps, t);
    hide CleanName, Ready, Step, GrewBelow, Inside, ExtractDir, Fs.Writable;
    var h := ArchiveTree(comps, t).value[0];
    var c := StepReady(r, d, top, root, comps, dst, h, force);
    DirBuilt(c, d, dst, t.mode);
    var r1 := Step(r, d, top, root, h, force);
    SameThenGrew(d + dst, r.fs, c.fs, r1.fs);
    OpenMade(r.fs, r1.fs, d, dst, t.mode);
    InsideReady(r.fs, r1.fs, d, dst);
  }

  lemma NothingBuilt(r: Run, d: Path, dst: Path)
    requires Ready(r.fs, d, dst) && d + dst !in r.fs.nodes && !r.failed
    ensures Built(r, r, d, dst, Special)
  {
    forall p | d + dst <= p ensures p !in r.fs.nodes {
      NothingBelow(r.fs, d + dst, p);
    }
    assert r.dirs + [] == r.dirs;
  }

  lemma NamedRight(comps: Path, t: Tree)
    requires comps != [] && AllNormal(comps) && ArchiveTree(comps, t).Some? && !t.Special?
    ensures var hs := ArchiveTree(comps, t).value; hs != [] && Kept(hs[0]) && CleanName(hs[0].name) == Some(comps)
  {
    hide CleanName;
    CleanJoin(comps, "");
    CleanJoin(comps, "/");
    assert Slashed(comps) + "" == Slashed(comps);
  }

  lemma OpenMade(a: Fs, b: Fs, d: Path, dst: Path, mode: Perm)
    requires Ready(a, d, dst) && d + dst in b.nodes && b.nodes[d + dst] == Dir(mode + OWNER_ALL - a.umask)
    ensures b.Writable(d + dst)
  {
  }

  lemma LeafBuilt(r: Run, d: Path, dst: Path, t: Tree)
    requires dst != [] && Ready(r.fs, d, dst) && d + dst !in r.fs.nodes && !r.failed
    ensures t.FileTree? ==>
              var r' := ExtractReg(r, d, dst, t.mode, t.content);
              !r'.failed && r'.dirs == r.dirs && GrewBelow(d + dst, r.fs, r'.fs) && Holds(r'.fs, d + dst, t, true)
    ensures t.LinkTree? ==>
              var r' := ExtractSymlink(r, d, dst, t.target);
              !r'.failed && r'.dirs == r.dirs && GrewBelow(d + dst, r.fs, r'.fs) && Holds(r'.fs, d + dst, t, true)
  {
    hide Ready, GrewBelow, Holds, ExtractReg, ExtractSymlink;
    if t.FileTree? {
      FileBuilt(r, d, dst, t.mode, t.content);
    } else if t.LinkTree? {
      LinkBuilt(r, d, dst, t.target);
    }
  }

  /** A directory just made is open, and so is the way to it. */
  ghost predicate Inside(fs: Fs, d: Path, dst: Path) {
    && fs.WellFormed() && fs.NoFaults() && fs.umask !! OWNER_ALL
    && dst != [] && AllNormal(dst)
    && AllSearchable(fs, d, dst) && fs.Writable(d + dst)
  }

  lemma InsideReady(a: Fs, b: Fs, d: Path, dst: Path)
    requires Ready(a, d, dst) && GrewBelow(d + dst, a, b) && b.Writable(d + dst)
    ensures Inside(b, d, dst)
  {
    var up := dst[..|dst| - 1];
    forall k | 0 <= k <= |dst| ensures b.Searchable(d + dst[..k]) {
      if k < |dst| {
        assert up[..k] == dst[..k];
        assert a.Searchable(d + up[..k]);
        assert SameAt(d + dst[..k], a, b);
      } else {
        assert dst[..k] == dst;
      }
    }
  }

  lemma KidReady(fs: Fs, d: Path, dst: Path, n: Name)
    requires Inside(fs, d, dst) && Normal(n)
    ensures Ready(fs, d, dst + [n])
  {
    assert (dst + [n])[..|dst + [n]| - 1] == dst;
    assert d + (dst + [n]) == (d + dst) + [n];
  }

  lemma StillInside(a: Fs, b: Fs, d: Path, dst: Path, n: Name)
    requires Inside(a, d, dst) && GrewBelow(d + (dst + [n]), a, b)
    ensures Inside(b, d, dst)
  {
    forall k | 0 <= k <= |dst| ensures b.Searchable(d + dst[..k]) {
      assert a.Searchable(d + dst[..k]);
      assert SameAt(d + dst[..k], a, b);
    }
    assert SameAt(d + dst, a, b);
  }

  /** At and below `p`, only what lies under the names `ks` may differ. */
  ghost predicate OnlyKids(p: Path, ks: Kids, a: Fs, b: Fs) {
    forall q :: p <= q && (q == p || !HasKid(ks, q[|p|])) ==> SameAt(q, a, b)
  }

  /** Kids about to be extracted into the open directory `dst`. */
  ghost predicate KidsPlace(r: Run, d: Path, top: Name, root: Name, comps: Path, dst: Path, ks: Kids) {
    && comps != [] && comps[0] == top && AllNormal(comps) && dst == [root] + comps[1..]
    && Inside(r.fs, d, dst) && !r.failed && ValidKids(ks)
    && forall n :: HasKid(ks, n) ==> d + dst + [n] !in r.fs.nodes
  }

  lemma KidPlace(r: Run, d: Path, top: Name, root: Name, comps: Path, dst: Path, ks: Kids)
    requires KidsPlace(r, d, top, root, comps, dst, ks) && ks.Kid?
    ensures PlaceFor(r, d, top, root, comps + [ks.name], dst + [ks.name])
    ensures d + (dst + [ks.name]) == d + dst + [ks.name]
  {
    KidReady(r.fs, d, dst, ks.name);
    assert HasKid(ks, ks.name);
    assert (comps + [ks.name])[1..] == comps[1..] + [ks.name];
    assert d + (dst + [ks.name]) == d + dst + [ks.name];
  }

  lemma NextKidsPlace(r: Run, r1: Run, d: Path, top: Name, root: Name, comps: Path, dst: Path, ks: Kids)
    requires KidsPlace(r, d, top, root, comps, dst, ks) && ks.Kid? && !r1.failed
    requires Built(r, r1, d, dst + [ks.name], ks.tree)
    ensures KidsPlace(r1, d, top, root, comps, dst, ks.rest)
  {
    assert d + (dst + [ks.name]) == d + dst + [ks.name];
    hide Inside, GrewBelow;
    StillInside(r.fs, r1.fs, d, dst, ks.name);
    KidsFree(r.fs, r1.fs, d + dst, ks);
  }

  lemma {:induction false} KidsBuilt(r: Run, d: Path, top: Name, root: Name, comps: Path, dst: Path, ks: Kids, force: bool)
    requires KidsPlace(r, d, top, root, comps, dst, ks) && ArchiveKids(comps, ks).Some?
    ensures KidsDone(r, Steps(r, d, top, root, ArchiveKids(comps, ks).value, force), d, dst, ks)
    decreases ks, 0
  {
    if ks == NoKids {
      NoKidsDone(r, d, dst);
    } else {
      KidPlace(r, d, top, root, comps, dst, ks);
      KidsShape(comps, ks);
      hide CleanName, KidsPlace, PlaceFor, ArchiveTree, ArchiveKids, Built, KidsDone, Steps;
      var below := comps + [ks.name];
      var first, more := ArchiveTree(below, ks.tree).value, ArchiveKids(comps, ks.rest).value;
      ValidKid(r, d, top, root, comps, dst, ks);
      TreeBuilt(r, d, top, root, below, dst + [ks.name], ks.tree, force);
      var r1 := Steps(r, d, top, root, first, force);
      NextKidsPlace(r, r1, d, top, root, comps, dst, ks);
      KidsBuilt(r1, d, top, root, comps, dst, ks.rest, force);
      StepsConcat(r, d, top, root, first, more, force);
      KidsDoneJoined(r, r1, Steps(r1, d, top, root, more, force), d, dst, ks);
    }
  }

  lemma ValidKid(r: Run, d: Path, top: Name, root: Name, comps: Path, dst: Path, ks: Kids)
    requires KidsPlace(r, d, top, root, comps, dst, ks) && ks.Kid?
    ensures ValidTree(ks.tree) && ValidKids(ks)
  {
  }

  lemma NoKidsDone(r: Run, d: Path, dst: Path)
    requires Inside(r.fs, d, dst) && !r.failed
    ensures KidsDone(r, r, d, dst, NoKids)
  {
    assert r.dirs + [] == r.dirs;
  }

  lemma KidsDoneJoined(r: Run, r1: Run, r2: Run, d: Path, dst: Path, ks: Kids)
    requires ks.Kid? && ValidKids(ks)
    requires Built(r, r1, d, dst + [ks.name], ks.tree) && KidsDone(r1, r2, d, dst, ks.rest)
    ensures KidsDone(r, r2, d, dst, ks)
  {
    hide GrewBelow, Holds, OnlyKids;
    assert d + (dst + [ks.name]) == d + dst + [ks.name];
    KidsJoined(r.fs, r1.fs, r2.fs, d + dst, ks);
    assert r.dirs + DirsOf(dst + [ks.name], ks.tree) + DirsOfKids(dst, ks.rest) == r.dirs + DirsOfKids(dst, ks);
  }

  lemma KidsFree(a: Fs, b: Fs, p: Path, ks: Kids)
    requires ks.Kid? && ValidKids(ks) && GrewBelow(p + [ks.name], a, b)
    requires forall n :: HasKid(ks, n) ==> p + [n] !in a.nodes
    ensures forall n :: HasKid(ks.rest, n) ==> p + [n] !in b.nodes
  {
    forall n | HasKid(ks.rest, n) ensures p + [n] !in b.nodes {
      assert HasKid(ks, n) && n != ks.name;
      assert (p + [n])[|p|] == n && (p + [ks.name])[|p|] == ks.name;
      assert SameAt(p + [n], a, b);
    }
  }

  /** One kid's tree, then the other kids'. */
  lemma KidsJoined(a: Fs, b: Fs, c: Fs, p: Path, ks: Kids)
    requires ks.Kid? && ValidKids(ks)
    requires GrewBelow(p + [ks.name], a, b) && Holds(b, p + [ks.name], ks.tree, true)
    requires GrewBelow(p, b, c) && OnlyKids(p, ks.rest, b, c) && KidsHold(c, p, ks.rest, true)
    ensures GrewBelow(p, a, c) && OnlyKids(p, ks, a, c) && KidsHold(c, p, ks, true)
  {
    var q := p + [ks.name];
    GrewWider(p, q, a, b);
    GrewTransitive(p, a, b, c);
    assert SameBelow(q, b, c) by {
      forall x | q <= x ensures SameAt(x, b, c) {
        assert x[|p|] == q[|p|] == ks.name;
      }
    }
    HoldsFrame(b, c, q, ks.tree, true);
    hide Holds;
    forall x | p <= x && (x == p || !HasKid(ks, x[|p|])) ensures SameAt(x, a, c) {
      assert SameAt(x, b, c);
      assert q[|p|] == ks.name;
      assert SameAt(x, a, b);
    }
  }

  lemma DirFinished(r: Run, r1: Run, r2: Run, d: Path, dst: Path, mode: Perm, ks: Kids)
    requires GrewBelow(d + dst, r.fs, r1.fs) && r1.dirs == r.dirs + [DirMode(dst, mode)]
    requires d + dst in r1.fs.nodes && r1.fs.nodes[d + dst] == Dir(mode + OWNER_ALL - r.fs.umask)
    requires forall q :: d + dst < q ==> q !in r1.fs.nodes
    requires KidsDone(r1, r2, d, dst, ks)
    ensures Built(r, r2, d, dst, DirTree(mode, ks))
  {
    hide GrewBelow, Holds, KidsHold, OnlyKids, DirsOfKids;
    DirHolds(r.fs, r1.fs, r2.fs, d + dst, mode, ks);
    assert r.dirs + [DirMode(dst, mode)] + DirsOfKids(dst, ks) == r.dirs + DirsOf(dst, DirTree(mode, ks));
  }

  lemma DirHolds(a: Fs, b: Fs, c: Fs, p: Path, mode: Perm, ks: Kids)
    requires GrewBelow(p, a, b) && GrewBelow(p, b, c)
    requires p in b.nodes && b.nodes[p] == Dir(mode + OWNER_ALL - a.umask)
    requires forall q :: p < q ==> q !in b.nodes
    requires OnlyKids(p, ks, b, c) && KidsHold(c, p, ks, true)
    ensures GrewBelow(p, a, c) && Holds(c, p, DirTree(mode, ks), true)
  {
    GrewTransitive(p, a, b, c);
    assert SameAt(p, b, c);
    forall q | q in c.nodes && p < q ensures HasKid(ks, q[|p|]) {
      assert !SameAt(q, b, c);
    }
  }

  // ---------------------------------------------------------------------
  // The closing pass
  // ---------------------------------------------------------------------

  /** Between `a` and `b` only directory modes at or below `q` differ. */
  ghost predicate ModesBelow(q: Path, a: Fs, b: Fs) {
    && b.WellFormed() && b.NoFaults() && b.umask == a.umask && b.inodes == a.inodes && b.nodes.Keys == a.nodes.Keys
    && forall p :: !(q <= p) ==> SameAt(p, a, b)
  }

  /** The way to `dst` is open and nothing fails. */
  ghost predicate WayOpen(fs: Fs, d: Path, dst: Path) {
    && fs.WellFormed() && fs.NoFaults() && fs.umask !! OWNER_ALL
    && dst != [] && AllNormal(dst) && AllSearchable(fs, d, dst[..|dst| - 1])
  }

  /** The mode of one directory whose parents are open. */
  lemma ModeSet(fs: Fs, d: Path, dst: Path, mode: Perm)
    requires WayOpen(fs, d, dst) && fs.IsDir(d + dst)
    ensures var (fs', ok) := Chmod(fs, d, dst, mode);
            && ok && fs'.nodes == fs.nodes[d + dst := Dir(mode)] && ModesBelow(d + dst, fs, fs')
  {
    ExistingIsPlain(fs, d, dst);
    PlainFinal(fs, d, dst);
    hide Walk;
    ChmodPlain(fs, d, dst, mode, d + dst);
    TreeKept(fs, Chmod(fs, d, dst, mode).0, d + dst, d + dst);
  }

  lemma ModesTransitive(q: Path, a: Fs, b: Fs, c: Fs)
    requires ModesBelow(q, a, b) && ModesBelow(q, b, c)
    ensures ModesBelow(q, a, c)
  {
    forall p | !(q <= p) ensures SameAt(p, a, c) {
      assert SameAt(p, a, b) && SameAt(p, b, c);
    }
  }

  lemma ModesWider(wide: Path, q: Path, a: Fs, b: Fs)
    requires ModesBelow(q, a, b) && wide <= q
    ensures ModesBelow(wide, a, b)
  {
  }

  lemma StillOpen(a: Fs, b: Fs, d: Path, dst: Path, q: Path)
    requires WayOpen(a, d, dst) && ModesBelow(q, a, b) && |q| >= |d + dst|
    ensures WayOpen(b, d, dst)
  {
    var up := dst[..|dst| - 1];
    forall k | 0 <= k <= |up| ensures b.Searchable(d + up[..k]) {
      assert a.Searchable(d + up[..k]);
      assert SameAt(d + up[..k], a, b);
    }
  }

  lemma KidOpen(fs: Fs, d: Path, dst: Path, n: Name)
    requires WayOpen(fs, d, dst) && Normal(n) && fs.Searchable(d + dst)
    ensures WayOpen(fs, d, dst + [n])
  {
    var up := (dst + [n])[..|dst + [n]| - 1];
    assert up == dst;
    forall k | 0 <= k <= |up| ensures fs.Searchable(d + up[..k]) {
      if k < |dst| {
        assert dst[..|dst| - 1][..k] == up[..k];
        assert fs.Searchable(d + dst[..|dst| - 1][..k]);
      } else {
        assert up[..k] == dst;
      }
    }
  }

  /** Going through a tree's directories from the last gives every one its mode;
      what is closed by then is never on the way. */
  lemma {:induction false} ModesOfTree(fs: Fs, d: Path, dst: Path, t: Tree, before: seq<DirMode>) returns (fs': Fs)
    requires WayOpen(fs, d, dst) && ValidTree(t) && Holds(fs, d + dst, t, true)
    ensures ChmodDirs(fs, d, before + DirsOf(dst, t)) == ChmodDirs(fs', d, before)
    ensures ModesBelow(d + dst, fs, fs') && Holds(fs', d + dst, t, false)
    decreases t, 1
  {
    hide Chmod, ChmodDirs, WayOpen, KidsHold, Holds, ModesBelow, KidsModesSet;
    if !t.DirTree? {
      NoModes(fs, d, dst, t);
      assert before + [] == before;
      fs' := fs;
    } else {
      var e := DirMode(dst, t.mode);
      OpenLoose(fs, d, dst, t);
      var fs1 := ModesOfKids(fs, d, dst, t.kids, before + [e]);
      assert before + [e] + DirsOfKids(dst, t.kids) == before + DirsOf(dst, t);
      fs' := Chmod(fs1, d, dst, t.mode).0;
      LastMode(fs, fs1, d, dst, t);
      ModesPop(fs1, d, before, e);
    }
  }

  lemma NoModes(fs: Fs, d: Path, dst: Path, t: Tree)
    requires WayOpen(fs, d, dst) && Holds(fs, d + dst, t, true) && !t.DirTree?
    ensures ModesBelow(d + dst, fs, fs) && Holds(fs, d + dst, t, false)
  {
  }

  lemma ModesPop(fs: Fs, d: Path, before: seq<DirMode>, e: DirMode)
    requires Chmod(fs, d, e.path, e.mode).1
    ensures ChmodDirs(fs, d, before + [e]) == ChmodDirs(Chmod(fs, d, e.path, e.mode).0, d, before)
  {
    hide Chmod;
    assert (before + [e])[..|before + [e]| - 1] == before;
  }

  /** Once its kids have their modes, a directory gets its own. */
  lemma LastMode(fs: Fs, fs1: Fs, d: Path, dst: Path, t: Tree)
    requires t.DirTree? && WayOpen(fs, d, dst) && Holds(fs, d + dst, t, true)
    requires KidsModesSet(d + dst, t.kids, fs, fs1)
    ensures var (fs', ok) := Chmod(fs1, d, dst, t.mode);
            ok && ModesBelow(d + dst, fs, fs') && Holds(fs', d + dst, t, false)
  {
    hide Chmod, KidsHold, WayOpen;
    var p, fs' := d + dst, Chmod(fs1, d, dst, t.mode).0;
    assert SameAt(p, fs, fs1);
    StillOpen(fs, fs1, d, dst, p);
    ModeSet(fs1, d, dst, t.mode);
    ModesTransitive(p, fs, fs1, fs');
    KidsFrame(fs1, fs', p, t.kids, false);
    forall q | q in fs'.nodes && p < q ensures HasKid(t.kids, q[|p|]) {
      assert q in fs.nodes.Keys;
    }
  }

  lemma OpenLoose(fs: Fs, d: Path, dst: Path, t: Tree)
    requires t.DirTree? && Holds(fs, d + dst, t, true) && WayOpen(fs, d, dst)
    ensures fs.Searchable(d + dst) && KidsHold(fs, d + dst, t.kids, true)
  {
  }

  ghost predicate KidsModesSet(p: Path, ks: Kids, a: Fs, b: Fs) {
    ModesBelow(p, a, b) && OnlyKids(p, ks, a, b) && KidsHold(b, p, ks, false)
  }

  lemma NoKidsModes(fs: Fs, d: Path, dst: Path)
    requires WayOpen(fs, d, dst)
    ensures KidsModesSet(d + dst, NoKids, fs, fs)
  {
  }

  lemma {:induction false} ModesOfKids(fs: Fs, d: Path, dst: Path, ks: Kids, before: seq<DirMode>) returns (fs': Fs)
    requires WayOpen(fs, d, dst) && fs.Searchable(d + dst) && ValidKids(ks) && KidsHold(fs, d + dst, ks, true)
    ensures ChmodDirs(fs, d, before + DirsOfKids(dst, ks)) == ChmodDirs(fs', d, before)
    ensures KidsModesSet(d + dst, ks, fs, fs')
    decreases ks, 0
  {
    hide Chmod, ChmodDirs, WayOpen, Holds, KidsModesSet, Fs.Searchable;
    if ks == NoKids {
      assert before + [] == before;
      fs' := fs;
      NoKidsModes(fs, d, dst);
    } else {
      var p, below, first := d + dst, dst + [ks.name], DirsOf(dst + [ks.name], ks.tree);
      assert d + below == p + [ks.name];
      var fs1 := ModesOfKids(fs, d, dst, ks.rest, before + first);
      NextKidOpen(fs, fs1, d, dst, ks);
      fs' := ModesOfTree(fs1, d, below, ks.tree, before);
      KidsModesJoined(fs, fs1, fs', p, ks);
      assert before + first + DirsOfKids(dst, ks.rest) == before + DirsOfKids(dst, ks);
    }
  }

  lemma NextKidOpen(a: Fs, b: Fs, d: Path, dst: Path, ks: Kids)
    requires ks.Kid? && ValidKids(ks) && WayOpen(a, d, dst) && a.Searchable(d + dst) && KidsHold(a, d + dst, ks, true)
    requires KidsModesSet(d + dst, ks.rest, a, b)
    ensures WayOpen(b, d, dst + [ks.name]) && Holds(b, d + (dst + [ks.name]), ks.tree, true)
  {
    hide WayOpen;
    assert d + (dst + [ks.name]) == d + dst + [ks.name];
    assert SameAt(d + dst, a, b);
    StillOpen(a, b, d, dst, d + dst);
    KidOpen(b, d, dst, ks.name);
    KidUntouched(a, b, d + dst, ks);
  }

  /** Work on the later kids leaves the first kid's tree alone. */
  lemma KidUntouched(a: Fs, b: Fs, p: Path, ks: Kids)
    requires ks.Kid? && ValidKids(ks) && Holds(a, p + [ks.name], ks.tree, true)
    requires ModesBelow(p, a, b) && OnlyKids(p, ks.rest, a, b)
    ensures Holds(b, p + [ks.name], ks.tree, true)
  {
    var q := p + [ks.name];
    forall x | q <= x ensures SameAt(x, a, b) {
      assert x[|p|] == q[|p|] == ks.name;
    }
    HoldsFrame(a, b, q, ks.tree, true);
  }

  lemma KidsModesJoined(a: Fs, b: Fs, c: Fs, p: Path, ks: Kids)
    requires ks.Kid? && ValidKids(ks)
    requires KidsModesSet(p, ks.rest, a, b)
    requires ModesBelow(p + [ks.name], b, c) && Holds(c, p + [ks.name], ks.tree, false)
    ensures KidsModesSet(p, ks, a, c)
  {
    var q := p + [ks.name];
    assert q[|p|] == ks.name;
    ModesWider(p, q, b, c);
    ModesTransitive(p, a, b, c);
    forall x | p < x && HasKid(ks.rest, x[|p|]) ensures SameAt(x, b, c) {
      assert x[|p|] != ks.name;
    }
    KidsFrame(b, c, p, ks.rest, false);
    hide Holds, KidsHold;
    forall x | p <= x && (x == p || !HasKid(ks, x[|p|])) ensures SameAt(x, a, c) {
      assert SameAt(x, a, b);
      assert SameAt(x, b, c);
    }
  }

  /** Main result: the archive of any tree of directories, files and links, when
      its names fit one line, is accepted, and extracting it where nothing stands,
      with or without force, succeeds and rebuilds the tree: kinds, contents, link
      targets and modes, read-only and unsearchable directories included, and
      nothing beside it. */
  lemma ArchiveRoundTrip(fs: Fs, d: Path, root: Name, base: Name, t: Tree, force: bool)
    requires fs.WellFormed() && fs.NoFaults() && fs.umask !! OWNER_ALL
    requires fs.Writable(d) && d + [root] !in fs.nodes
    requires Normal(root) && Normal(base) && ValidTree(t) && ArchiveTree([base], t).Some?
    ensures var hs := ArchiveTree([base], t).value;
            var (fs', ok) := Extraction(fs, d, base, root, Tar(hs, false), force);
            && Acceptable(hs) && ok
            && Holds(fs', d + [root], t, false)
            && forall p :: !(d + [root] <= p) ==> SameAt(p, fs, fs')
  {
    hide CleanName, Steps, ChmodDirs, ArchiveTree, Holds, Acceptable;
    var hs := ArchiveTree([base], t).value;
    ArchiveAcceptable(base, t);
    var r0 := Run(fs, {}, [], false);
    RootPlace(r0, d, base, root);
    hide PlaceFor, Fs.WellFormed, WayOpen;
    TreeBuilt(r0, d, base, root, [base], [root], t, force);
    var r := Steps(r0, d, base, root, hs, force);
    RootOpen(fs, r.fs, d, root);
    var none: seq<DirMode> := [];
    assert none + DirsOf([root], t) == r.dirs;
    var fs' := ModesOfTree(r.fs, d, [root], t, none);
    NoDirsLeft(fs', d);
    forall p | !(d + [root] <= p) ensures SameAt(p, fs, fs') {
      assert SameAt(p, fs, r.fs) && SameAt(p, r.fs, fs');
    }
  }

  lemma RootPlace(r: Run, d: Path, base: Name, root: Name)
    requires r.fs.WellFormed() && r.fs.NoFaults() && r.fs.umask !! OWNER_ALL && !r.failed && r.fs.Writable(d)
    requires d + [root] !in r.fs.nodes && Normal(root) && Normal(base)
    ensures PlaceFor(r, d, base, root, [base], [root])
  {
    assert [root][..0] == [] && d + [] == d;
    assert Parent(d + [root]) == d;
  }

  lemma RootOpen(a: Fs, b: Fs, d: Path, root: Name)
    requires GrewBelow(d + [root], a, b) && a.umask !! OWNER_ALL && a.Writable(d) && Normal(root)
    ensures WayOpen(b, d, [root])
  {
    assert [root][..0] == [] && d + [] == d;
    assert SameAt(d, a, b);
  }

  lemma NoDirsLeft(fs: Fs, d: Path)
    ensures ChmodDirs(fs, d, []) == (fs, true)
  {
  }

  /** No entry of the tree that would be archived has a line break in its name. */
  predicate PlainNames(t: Tree) { t.DirTree? ==> PlainKids(t.kids) }

  predicate PlainKids(ks: Kids) {
    ks.Kid? ==> (ks.tree.Special? || (OneLine(ks.name) && PlainNames(ks.tree))) && PlainKids(ks.rest)
  }

  lemma {:induction false} JoinOneLine(comps: Path, n: Name)
    requires comps != []
    ensures OneLine(Slashed(comps + [n])) <==> OneLine(Slashed(comps)) && OneLine(n)
    decreases |comps|
  {
    assert (comps + [n])[1..] == comps[1..] + [n];
    if |comps| > 1 {
      JoinOneLine(comps[1..], n);
    }
  }

  /** An archive is refused exactly when an entry's own name has a line break: a
      special file's name does not matter. */
  lemma {:induction false} ArchiveRefused(comps: Path, t: Tree)
    requires comps != []
    ensures ArchiveTree(comps, t).Some? <==> t.Special? || (OneLine(Slashed(comps)) && PlainNames(t))
    decreases t
  {
    if t.DirTree? && OneLine(Slashed(comps)) {
      KidsRefused(comps, t.kids);
    }
  }

  lemma {:induction false} KidsRefused(comps: Path, ks: Kids)
    requires comps != [] && OneLine(Slashed(comps))
    ensures ArchiveKids(comps, ks).Some? <==> PlainKids(ks)
    decreases ks
  {
    if ks.Kid? {
      JoinOneLine(comps, ks.name);
      ArchiveRefused(comps + [ks.name], ks.tree);
      KidsRefused(comps, ks.rest);
    }
  }
}
