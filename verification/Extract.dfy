/** extractArchive: unpacking one validated archive below `d`/`root`, with the
    cache of directories known to be no symbolic links, and the directory modes
    that are set only at the end. */
module Extract {
  import opened Wrappers
  import opened FileSystem
  import opened Archive

  datatype DirMode = DirMode(path: Path, mode: Perm)

  /** The source's locals: the file system, safeDirs, dirs, and whether it has
      already returned an error. Paths are relative to `d` and start with the
      root's own name. */
  datatype Run = Run(fs: Fs, safe: set<Path>, dirs: seq<DirMode>, failed: bool)

  // ---------------------------------------------------------------------
  // The specification
  // ---------------------------------------------------------------------

  /** The cache without `p` and everything under it. */
  function Forget(safe: set<Path>, p: Path): set<Path> {
    set q | q in safe && !(p <= q)
  }

  /** safeParent: every proper prefix of `comps`, from length `k` on, is in the
      cache or is looked at, and put there unless it is missing or a link. */
  function CheckParents(fs: Fs, safe: set<Path>, d: Path, comps: Path, k: nat): (Fs, set<Path>, bool)
    requires 1 <= k
    decreases |comps| - k
  {
    if k >= |comps| then (fs, safe, true)
    else if comps[..k] in safe then CheckParents(fs, safe, d, comps, k + 1)
    else
      var (fs', node) := Lstat(fs, d, comps[..k]);
      if node.None? || node.value.Link? then (fs', safe, false)
      else CheckParents(fs', safe + {comps[..k]}, d, comps, k + 1)
  }

  function Cleared(r: Run, d: Path, dst: Path, force: bool): Run
    requires dst != []
  {
    if force then r.(fs := Remove(r.fs, d, dst), safe := Forget(r.safe, dst)) else r
  }

  function ExtractDir(r: Run, d: Path, dst: Path, mode: Perm): Run
    requires dst != []
  {
    var (fs, node) := Lstat(r.fs, d, dst);
    if node.Some? then r.(fs := fs, failed := node.value.Link?)
    else
      var (fs', ok) := Mkdir(fs, d, dst, mode + OWNER_ALL);
      if ok then r.(fs := fs', dirs := r.dirs + [DirMode(dst, mode)]) else r.(fs := fs', failed := true)
  }

  function ExtractReg(r: Run, d: Path, dst: Path, mode: Perm, content: Bytes): Run
    requires dst != []
  {
    var (fs1, ino) := OpenTrunc(r.fs, d, dst, mode);
    if ino.None? || ino.value !in fs1.inodes then r.(fs := fs1, failed := true)
    else
      var (fs2, written) := WriteAll(fs1, ino.value, content);
      if !written then r.(fs := fs2, failed := true)
      else
        var (fs3, moded) := Chmod(fs2, d, dst, mode);
        if !moded then r.(fs := fs3, failed := true)
        else
          var (fs4, timed) := Chtimes(fs3, d, dst);
          r.(fs := fs4, failed := !timed)
  }

  function ExtractSymlink(r: Run, d: Path, dst: Path, target: string): Run
    requires dst != []
  {
    var (fs, ok) := Symlink(r.fs, d, dst, target);
    r.(fs := fs, failed := !ok)
  }

  /** copyFile, the fallback where hard links are refused. What it copies is read
      only after the target was emptied: nothing, if both are one file. */
  function CopyFile(fs: Fs, d: Path, src: Path, dst: Path, mode: Perm): (Fs, bool)
    requires src != [] && dst != []
  {
    var (fs1, node) := Lstat(fs, d, src);
    match node
    case None => (fs1, false)
    case Some(Link(target)) => Symlink(fs1, d, dst, target)
    case Some(_) =>
      var (fs2, from) := OpenRead(fs1, d, src);
      if from.None? then (fs2, false)
      else
        var (fs3, ino) := OpenTrunc(fs2, d, dst, mode);
        if ino.None? || ino.value !in fs3.inodes || from.value !in fs3.inodes then (fs3, false)
        else WriteAll(fs3, ino.value, fs3.inodes[from.value].content)
  }

  function ExtractHardLink(r: Run, d: Path, src: Path, dst: Path, mode: Perm): Run
    requires src != [] && dst != []
  {
    var (fs1, linked) := FileSystem.HardLink(r.fs, d, src, dst);
    if linked then r.(fs := fs1)
    else
      var (fs2, copied) := CopyFile(fs1, d, src, dst, mode);
      r.(fs := fs2, failed := !copied)
  }

  /** Where a hard link's target lies: an unreadable target name reads as the
      root, as the source's discarded error makes it. */
  function LinkSource(root: Name, linkname: string): Path {
    match CleanName(linkname)
    case Some(t) => [root] + t[1..]
    case None => [root]
  }

  /** Where header `h` is extracted to. */
  function Target(root: Name, h: Header): Path
    requires CleanName(h.name).Some?
  {
    [root] + CleanName(h.name).value[1..]
  }

  function Step(r: Run, d: Path, top: Name, root: Name, h: Header, force: bool): Run {
    if h.flag.GlobalHeader? then r
    else if CleanName(h.name).None? || CleanName(h.name).value[0] != top then r.(failed := true)
    else if !Kept(h) then r
    else
      var dst := Target(root, h);
      var (fs, safe, ok) := CheckParents(r.fs, r.safe, d, dst, 1);
      if !ok then r.(fs := fs, safe := safe, failed := true)
      else Place(r.(fs := fs, safe := safe), d, root, dst, h, force)
  }

  function Place(r: Run, d: Path, root: Name, dst: Path, h: Header, force: bool): Run
    requires dst != [] && Kept(h)
  {
    match h.flag
    case Directory => ExtractDir(r, d, dst, h.mode)
    case Reg => ExtractReg(Cleared(r, d, dst, force), d, dst, h.mode, h.content)
    case SymLink => ExtractSymlink(Cleared(r, d, dst, force), d, dst, h.linkname)
    case HardLink => ExtractHardLink(Cleared(r, d, dst, force), d, LinkSource(root, h.linkname), dst, h.mode)
  }

  function Steps(r: Run, d: Path, top: Name, root: Name, hs: seq<Header>, force: bool): Run
    decreases |hs|
  {
    if r.failed || hs == [] then r
    else Steps(Step(r, d, top, root, hs[0], force), d, top, root, hs[1..], force)
  }

  /** The recorded modes, last directory first; false at the first failure. */
  function ChmodDirs(fs: Fs, d: Path, dirs: seq<DirMode>): (Fs, bool)
    decreases |dirs|
  {
    if dirs == [] then (fs, true)
    else
      var last := dirs[|dirs| - 1];
      var (fs', ok) := Chmod(fs, d, last.path, last.mode);
      if !ok then (fs', false) else ChmodDirs(fs', d, dirs[..|dirs| - 1])
  }

  function Extraction(fs: Fs, d: Path, top: Name, root: Name, tar: Tar, force: bool): (Fs, bool) {
    var r := Steps(Run(fs, {}, [], false), d, top, root, tar.headers, force);
    if r.failed || tar.broken then (r.fs, false) else ChmodDirs(r.fs, d, r.dirs)
  }

  // ---------------------------------------------------------------------
  // The method
  // ---------------------------------------------------------------------

  class Disk {
    var fs: Fs
  }

  method SafeParent(disk: Disk, safe: set<Path>, d: Path, comps: Path) returns (safe': set<Path>, ok: bool)
    modifies disk
    ensures (disk.fs, safe', ok) == CheckParents(old(disk.fs), safe, d, comps, 1)
  {
    safe' := safe;
    var k := 1;
    while k < |comps|
      invariant 1 <= k
      invariant CheckParents(disk.fs, safe', d, comps, k) == CheckParents(old(disk.fs), safe, d, comps, 1)
    {
      if comps[..k] !in safe' {
        var (fs, node) := Lstat(disk.fs, d, comps[..k]);
        disk.fs := fs;
        if node.None? || node.value.Link? {
          return safe', false;
        }
        safe' := safe' + {comps[..k]};
      }
      k := k + 1;
    }
    return safe', true;
  }

  method ForgetUnder(safe: set<Path>, p: Path) returns (kept: set<Path>)
    ensures kept == Forget(safe, p)
  {
    kept := safe;
    var todo := safe;
    while todo != {}
      invariant todo <= kept <= safe
      invariant forall q :: q in safe && q !in todo ==> (q in kept <==> !(p <= q))
      decreases todo
    {
      var q :| q in todo;
      if p <= q {
        kept := kept - {q};
      }
      todo := todo - {q};
    }
  }

  method ExtractArchive(disk: Disk, d: Path, top: Name, root: Name, tar: Tar, force: bool) returns (ok: bool)
    modifies disk
    ensures (disk.fs, ok) == Extraction(old(disk.fs), d, top, root, tar, force)
  {
    hide CleanName, Lstat, Mkdir, OpenTrunc, Symlink, FileSystem.HardLink, Chmod, FileSystem.Remove, WriteAll;
    var hs := tar.headers;
    var dirs: seq<DirMode> := [];
    var safe: set<Path> := {};
    ghost var goal := Steps(Run(disk.fs, {}, [], false), d, top, root, hs, force);
    var i := 0;
    while i < |hs|
      invariant 0 <= i <= |hs|
      invariant Steps(Run(disk.fs, safe, dirs, false), d, top, root, hs[i..], force) == goal
    {
      var h := hs[i];
      i := i + 1;
      if h.flag.GlobalHeader? {
        continue;
      }
      var clean := CleanName(h.name);
      if clean.None? || clean.value[0] != top {
        return false;
      }
      var dst := [root] + clean.value[1..];
      if !Kept(h) {
        continue;
      }
      var checked;
      safe, checked := SafeParent(disk, safe, d, dst);
      if !checked {
        return false;
      }
      match h.flag {
        case Directory =>
          var (fs, node) := Lstat(disk.fs, d, dst);
          disk.fs := fs;
          if node.Some? {
            if node.value.Link? {
              return false;
            }
            continue;
          }
          var (made, okay) := Mkdir(disk.fs, d, dst, h.mode + OWNER_ALL);
          disk.fs := made;
          if !okay {
            return false;
          }
          dirs := dirs + [DirMode(dst, h.mode)];
        case Reg =>
          if force {
            disk.fs := FileSystem.Remove(disk.fs, d, dst);
            safe := ForgetUnder(safe, dst);
          }
          var (fs1, ino) := OpenTrunc(disk.fs, d, dst, h.mode);
          disk.fs := fs1;
          if ino.None? || ino.value !in fs1.inodes {
            return false;
          }
          var (fs2, written) := WriteAll(fs1, ino.value, h.content);
          disk.fs := fs2;
          if !written {
            return false;
          }
          var (fs3, moded) := Chmod(fs2, d, dst, h.mode);
          disk.fs := fs3;
          if !moded {
            return false;
          }
          var (fs4, timed) := Chtimes(fs3, d, dst);
          disk.fs := fs4;
          if !timed {
            return false;
          }
        case SymLink =>
          if force {
            disk.fs := FileSystem.Remove(disk.fs, d, dst);
            safe := ForgetUnder(safe, dst);
          }
          var (fs, okay) := Symlink(disk.fs, d, dst, h.linkname);
          disk.fs := fs;
          if !okay {
            return false;
          }
        case HardLink =>
          var src := LinkSource(root, h.linkname);
          if force {
            disk.fs := FileSystem.Remove(disk.fs, d, dst);
            safe := ForgetUnder(safe, dst);
          }
          var (fs1, linked) := FileSystem.HardLink(disk.fs, d, src, dst);
          disk.fs := fs1;
          if !linked {
            var (fs2, copied) := CopyFile(fs1, d, src, dst, h.mode);
            disk.fs := fs2;
            if !copied {
              return false;
            }
          }
      }
    }
    if tar.broken {
      return false;
    }
    ghost var modes := ChmodDirs(disk.fs, d, dirs);
    var left := dirs;
    while left != []
      invariant ChmodDirs(disk.fs, d, left) == modes
    {
      var last := left[|left| - 1];
      left := left[..|left| - 1];
      var (fs, okay) := Chmod(disk.fs, d, last.path, last.mode);
      disk.fs := fs;
      if !okay {
        return false;
      }
    }
    return true;
  }
}
