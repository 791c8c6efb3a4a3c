/** The part of a POSIX file system the copy commands use: a tree of physical
    paths, inodes shared by hard links, symbolic links followed in every
    non-final component, owner permission bits, a umask, and system calls that
    may fail at any point. Every call is a function from one state to the next,
    so that "for every fault schedule" is an ordinary universal statement. */
module FileSystem {
  import opened Wrappers
  import Lines

  type Name = string
  type Path = seq<Name>
  newtype Byte = b: int | 0 <= b < 256
  type Bytes = seq<Byte>

  datatype PermBit =
    | OwnerRead | OwnerWrite | OwnerExec
    | GroupRead | GroupWrite | GroupExec
    | OtherRead | OtherWrite | OtherExec
  type Perm = set<PermBit>

  const OWNER_ALL: Perm := {OwnerRead, OwnerWrite, OwnerExec}

  datatype Node = Dir(mode: Perm) | File(ino: nat) | Link(target: string)

  /** `opens` counts how often the file was opened to be written anew, so that one
      emptied and filled with its own bytes does not pass for untouched. */
  datatype Inode = Inode(content: Bytes, mode: Perm, opens: nat)

  /** What the next system call meets: nothing unusual, or an error after which
      (for a write) `partial` bytes had already reached the file. */
  datatype Fault = Quiet | Fail(partial: nat)

  /** `faults` is the schedule still to come; past its end nothing fails. */
  datatype Fs = Fs(nodes: map<Path, Node>, inodes: map<nat, Inode>, umask: Perm, faults: seq<Fault>)
  {
    predicate Faulty() { faults != [] && faults[0].Fail? }

    function Tick(): Fs { if faults == [] then this else this.(faults := faults[1..]) }

    predicate NoFaults() { forall k :: 0 <= k < |faults| ==> faults[k] == Quiet }

    predicate IsDir(p: Path) { p in nodes && nodes[p].Dir? }

    predicate Searchable(p: Path) { IsDir(p) && OwnerExec in nodes[p].mode }

    predicate Writable(p: Path) { Searchable(p) && OwnerWrite in nodes[p].mode }

    /** A tree: every node's parent is a directory, every file has an inode. */
    ghost predicate WellFormed() {
      && IsDir([])
      && (forall p: Path :: p in nodes && p != [] ==> IsDir(Parent(p)))
      && (forall p: Path :: p in nodes && nodes[p].File? ==> nodes[p].ino in inodes)
    }
  }

  /** The limit on links followed in one lookup (ELOOP). */
  const MAX_LINKS: nat := 40

  function Parent(p: Path): Path { if p == [] then [] else p[..|p| - 1] }

  /** Path resolution from `cur`, following every symbolic link met. */
  function Walk(fs: Fs, cur: Path, comps: seq<string>, links: nat): Option<Path>
    decreases links, |comps|
  {
    if comps == [] then Some(cur)
    else if !fs.Searchable(cur) then None
    else if comps[0] == "" || comps[0] == "." then Walk(fs, cur, comps[1..], links)
    else if comps[0] == ".." then Walk(fs, Parent(cur), comps[1..], links)
    else
      var p := cur + [comps[0]];
      if p !in fs.nodes then None
      else if !fs.nodes[p].Link? then Walk(fs, p, comps[1..], links)
      else if links == 0 then None
      else
        var target := fs.nodes[p].target;
        var start := if target != "" && target[0] == '/' then [] else cur;
        Walk(fs, start, Lines.Split(target, '/') + comps[1..], links - 1)
  }

  /** Where `comps`, taken from directory `d`, names an entry: every component
      but the last is resolved, the last one is not followed. */
  function Locate(fs: Fs, d: Path, comps: Path): Option<Path>
    requires comps != []
  {
    match Walk(fs, d, comps[..|comps| - 1], MAX_LINKS)
    case None => None
    case Some(q) => if fs.Searchable(q) then Some(q + [comps[|comps| - 1]]) else None
  }

  function Lookup(fs: Fs, d: Path, comps: Path): Option<Node>
    requires comps != []
  {
    match Locate(fs, d, comps)
    case None => None
    case Some(q) => if q in fs.nodes then Some(fs.nodes[q]) else None
  }

  function Lstat(fs: Fs, d: Path, comps: Path): (Fs, Option<Node>)
    requires comps != []
  {
    (fs.Tick(), if fs.Faulty() then None else Lookup(fs, d, comps))
  }

  /** Where a new entry would be made, if the directory allows one. */
  function Slot(fs: Fs, d: Path, comps: Path): Option<Path>
    requires comps != []
  {
    match Locate(fs, d, comps)
    case None => None
    case Some(q) =>
      if fs.Faulty() || !fs.Writable(Parent(q)) then None else Some(q)
  }

  function Mkdir(fs: Fs, d: Path, comps: Path, mode: Perm): (Fs, bool)
    requires comps != []
  {
    match Slot(fs, d, comps)
    case Some(q) =>
      if q in fs.nodes then (fs.Tick(), false)
      else (fs.Tick().(nodes := fs.nodes[q := Dir(mode - fs.umask)]), true)
    case None => (fs.Tick(), false)
  }

  function Symlink(fs: Fs, d: Path, comps: Path, target: string): (Fs, bool)
    requires comps != []
  {
    match Slot(fs, d, comps)
    case Some(q) =>
      if q in fs.nodes then (fs.Tick(), false)
      else (fs.Tick().(nodes := fs.nodes[q := Link(target)]), true)
    case None => (fs.Tick(), false)
  }

  /** link(2): never follows `src` itself, and refuses a directory. */
  function HardLink(fs: Fs, d: Path, src: Path, comps: Path): (Fs, bool)
    requires src != [] && comps != []
  {
    match (Slot(fs, d, comps), Lookup(fs, d, src))
    case (Some(q), Some(n)) =>
      if q in fs.nodes || n.Dir? then (fs.Tick(), false)
      else (fs.Tick().(nodes := fs.nodes[q := n]), true)
    case _ => (fs.Tick(), false)
  }

  predicate HasChild(fs: Fs, q: Path) {
    exists p | p in fs.nodes.Keys :: p != [] && Parent(p) == q && p != q
  }

  /** os.Remove: an entry that is not a directory, or an empty directory. */
  function Remove(fs: Fs, d: Path, comps: Path): Fs
    requires comps != []
  {
    match Slot(fs, d, comps)
    case Some(q) =>
      if q in fs.nodes && !(fs.nodes[q].Dir? && HasChild(fs, q))
      then fs.Tick().(nodes := fs.nodes - {q})
      else fs.Tick()
    case None => fs.Tick()
  }

  /** An inode number no file uses. */
  function FreshIno(fs: Fs): (i: nat)
    ensures i !in fs.inodes
  {
    Above(fs.inodes.Keys)
  }

  function Above(s: set<nat>): (n: nat)
    ensures forall i :: i in s ==> i < n
  {
    if s == {} then 0
    else
      var m := MaxOf(s);
      m + 1
  }

  function MaxOf(s: set<nat>): (m: nat)
    requires s != {}
    ensures m in s && forall i :: i in s ==> i <= m
  {
    MaxExists(s);
    var m :| m in s && forall i :: i in s ==> i <= m;
    m
  }

  lemma MaxExists(s: set<nat>)
    requires s != {}
    ensures exists m :: m in s && forall i :: i in s ==> i <= m
  {
    var x :| x in s;
    if s != {x} {
      MaxExists(s - {x});
      var y :| y in s - {x} && forall i :: i in s - {x} ==> i <= y;
      var m := if x < y then y else x;
      forall i | i in s ensures i <= m {
        assert i == x || i in s - {x};
      }
      assert m in s;
    }
  }

  /** open(2) with O_WRONLY|O_CREAT|O_TRUNC|O_NOFOLLOW: the inode, emptied. */
  function OpenTrunc(fs: Fs, d: Path, comps: Path, mode: Perm): (Fs, Option<nat>)
    requires comps != []
  {
    var t := fs.Tick();
    match Locate(fs, d, comps)
    case Some(q) =>
      if fs.Faulty() then (t, None)
      else if q !in fs.nodes then
        if !fs.Writable(Parent(q)) then (t, None)
        else
          var i := FreshIno(fs);
          (t.(nodes := fs.nodes[q := File(i)], inodes := fs.inodes[i := Inode([], mode - fs.umask, 0)]), Some(i))
      else if fs.nodes[q].File? && fs.nodes[q].ino in fs.inodes && OwnerWrite in fs.inodes[fs.nodes[q].ino].mode then
        var i := fs.nodes[q].ino;
        (t.(inodes := fs.inodes[i := fs.inodes[i].(content := [], opens := fs.inodes[i].opens + 1)]), Some(i))
      else (t, None)
    case None => (t, None)
  }

  /** Writing the whole content to an open, emptied file; a failure leaves a
      prefix of it. */
  function WriteAll(fs: Fs, i: nat, content: Bytes): (Fs, bool)
    requires i in fs.inodes
  {
    var n := if fs.Faulty() && fs.faults[0].partial < |content| then fs.faults[0].partial else |content|;
    (fs.Tick().(inodes := fs.inodes[i := fs.inodes[i].(content := content[..n])]), !fs.Faulty())
  }

  /** open(2) with O_RDONLY|O_NOFOLLOW: the inode to read from. */
  function OpenRead(fs: Fs, d: Path, comps: Path): (Fs, Option<nat>)
    requires comps != []
  {
    match Lookup(fs, d, comps)
    case Some(File(i)) =>
      if !fs.Faulty() && i in fs.inodes && OwnerRead in fs.inodes[i].mode then (fs.Tick(), Some(i)) else (fs.Tick(), None)
    case _ => (fs.Tick(), None)
  }

  /** chmod(2), which follows a link in the final component too. */
  function Chmod(fs: Fs, d: Path, comps: Path, mode: Perm): (Fs, bool)
  {
    match Walk(fs, d, comps, MAX_LINKS)
    case Some(q) =>
      if fs.Faulty() || q !in fs.nodes then (fs.Tick(), false)
      else (match fs.nodes[q]
            case Dir(_) => (fs.Tick().(nodes := fs.nodes[q := Dir(mode)]), true)
            case File(i) =>
              if i in fs.inodes then (fs.Tick().(inodes := fs.inodes[i := fs.inodes[i].(mode := mode)]), true)
              else (fs.Tick(), false)
            case Link(_) => (fs.Tick(), false))
    case None => (fs.Tick(), false)
  }

  /** Setting times: modelled only as a call that can fail. */
  function Chtimes(fs: Fs, d: Path, comps: Path): (Fs, bool)
  {
    (fs.Tick(), !fs.Faulty() && Walk(fs, d, comps, MAX_LINKS).Some?)
  }

  // ---------------------------------------------------------------------
  // Lookups that meet no symbolic link
  // ---------------------------------------------------------------------

  predicate Normal(c: Name) { c != "" && c != "." && c != ".." && '/' !in c }

  predicate AllNormal(comps: Path) { forall k :: 0 <= k < |comps| ==> Normal(comps[k]) }

  /** No prefix of `comps` below `d` is a symbolic link. */
  ghost predicate NoLinks(fs: Fs, d: Path, comps: Path) {
    forall k :: 1 <= k <= |comps| && d + comps[..k] in fs.nodes ==> !fs.nodes[d + comps[..k]].Link?
  }

  ghost predicate AllSearchable(fs: Fs, d: Path, comps: Path) {
    forall k :: 0 <= k <= |comps| ==> fs.Searchable(d + comps[..k])
  }

  /** Taking the first component off a path relative to `d`. */
  lemma {:induction false} StepInto(d: Path, comps: Path)
    requires comps != []
    ensures d + comps == d + [comps[0]] + comps[1..]
    ensures forall k {:trigger comps[1..][..k]} :: 0 <= k < |comps| ==>
              d + [comps[0]] + comps[1..][..k] == d + comps[..k + 1]
  {
    forall k | 0 <= k < |comps|
      ensures d + [comps[0]] + comps[1..][..k] == d + comps[..k + 1]
    {
      assert comps[..k + 1] == [comps[0]] + comps[1..][..k];
    }
  }

  /** Without links on the way a lookup lands at the spelled path, or nowhere. */
  lemma {:induction false} WalkPlain(fs: Fs, d: Path, comps: Path, links: nat)
    requires AllNormal(comps) && NoLinks(fs, d, comps)
    ensures Walk(fs, d, comps, links) == None || Walk(fs, d, comps, links) == Some(d + comps)
    ensures Walk(fs, d, comps, links).Some? && comps != [] ==> d + comps in fs.nodes
    ensures Walk(fs, d, comps, links).Some? ==> forall k :: 0 <= k < |comps| ==> fs.Searchable(d + comps[..k])
    decreases |comps|
  {
    if comps == [] {
      assert d + comps == d;
    } else {
      StepInto(d, comps);
      assert d + comps[..1] == d + [comps[0]];
      if d + [comps[0]] in fs.nodes {
        WalkPlain(fs, d + [comps[0]], comps[1..], links);
        if Walk(fs, d, comps, links).Some? {
          forall k | 0 <= k < |comps| ensures fs.Searchable(d + comps[..k]) {
            if k == 0 {
              assert d + comps[..0] == d;
            } else {
              assert d + comps[..k] == d + [comps[0]] + comps[1..][..k - 1];
            }
          }
        }
      }
    }
  }

  /** ... and it does land there when every directory on the way lets it. */
  lemma {:induction false} WalkReaches(fs: Fs, d: Path, comps: Path, links: nat)
    requires AllNormal(comps) && NoLinks(fs, d, comps) && d + comps in fs.nodes
    requires forall k :: 0 <= k < |comps| ==> fs.Searchable(d + comps[..k])
    ensures Walk(fs, d, comps, links) == Some(d + comps)
    decreases |comps|
  {
    if comps == [] {
      assert d + comps == d;
    } else {
      StepInto(d, comps);
      var p := d + [comps[0]];
      assert d + comps[..0] == d;
      assert d + comps[..1] == p;
      assert p in fs.nodes by {
        if |comps| > 1 {
          assert fs.Searchable(d + comps[..1]);
        } else {
          assert comps[..1] == comps;
        }
      }
      forall k | 0 <= k < |comps[1..]| ensures fs.Searchable(p + comps[1..][..k]) {
        assert fs.Searchable(d + comps[..k + 1]);
      }
      WalkReaches(fs, p, comps[1..], links);
    }
  }

  lemma {:induction false} LocatePlain(fs: Fs, d: Path, comps: Path)
    requires comps != [] && AllNormal(comps) && NoLinks(fs, d, comps[..|comps| - 1])
    ensures Locate(fs, d, comps) == None || Locate(fs, d, comps) == Some(d + comps)
    ensures AllSearchable(fs, d, comps[..|comps| - 1]) <==> Locate(fs, d, comps) == Some(d + comps)
    ensures Parent(d + comps) == d + comps[..|comps| - 1]
    ensures Locate(fs, d, comps).Some? ==> fs.Searchable(Parent(d + comps))
  {
    var up := comps[..|comps| - 1];
    WalkPlain(fs, d, up, MAX_LINKS);
    assert up + [comps[|comps| - 1]] == comps;
    assert up[..|up|] == up;
    assert d + up + [comps[|comps| - 1]] == d + comps;
    if AllSearchable(fs, d, up) {
      assert fs.Searchable(d + up[..|up|]);
      WalkReaches(fs, d, up, MAX_LINKS);
    }
  }

  /** Lookups depend on the nodes alone. */
  lemma {:induction false} WalkSame(a: Fs, b: Fs, cur: Path, comps: seq<string>, links: nat)
    requires a.nodes == b.nodes
    ensures Walk(a, cur, comps, links) == Walk(b, cur, comps, links)
    decreases links, |comps|
  {
    if comps != [] && a.Searchable(cur) {
      if comps[0] == "" || comps[0] == "." {
        WalkSame(a, b, cur, comps[1..], links);
      } else if comps[0] == ".." {
        WalkSame(a, b, Parent(cur), comps[1..], links);
      } else if cur + [comps[0]] in a.nodes {
        var p := cur + [comps[0]];
        if !a.nodes[p].Link? {
          WalkSame(a, b, p, comps[1..], links);
        } else if links != 0 {
          var target := a.nodes[p].target;
          var start := if target != "" && target[0] == '/' then [] else cur;
          WalkSame(a, b, start, Lines.Split(target, '/') + comps[1..], links - 1);
        }
      }
    }
  }

  /** In a tree, everything on the way to an existing node is a directory. */
  lemma {:induction false} AncestorsAreDirs(fs: Fs, p: Path, k: nat)
    requires fs.WellFormed() && p in fs.nodes && k < |p|
    ensures fs.IsDir(p[..k])
    decreases |p| - k
  {
    assert fs.IsDir(Parent(p));
    if k < |p| - 1 {
      AncestorsAreDirs(fs, Parent(p), k);
      assert Parent(p)[..k] == p[..k];
    }
  }
}
