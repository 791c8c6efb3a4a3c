/** What extracting any accepted archive keeps, whatever fails on the way: the
    cache of checked directories tells the truth, nothing outside the root
    changes, and the modes set at the end go to directories this run made. */
module ExtractSafety {
  import opened Wrappers
  import opened FileSystem
  import opened Archive
  import opened Extract

  /** Some path at or below `base` is a name of inode `i`. */
  ghost predicate Named(base: Path, fs: Fs, i: nat) {
    exists p :: p in fs.nodes && base <= p && fs.nodes[p] == File(i)
  }

  ghost predicate SameAt(p: Path, a: Fs, b: Fs) {
    (p in a.nodes <==> p in b.nodes) && (p in a.nodes ==> a.nodes[p] == b.nodes[p])
  }

  /** Between `a` and `b` every node outside `base` is as it was, and so is every
      file that had no name at or below `base`. */
  ghost predicate Confined(base: Path, a: Fs, b: Fs) {
    && (forall p :: !(base <= p) ==> SameAt(p, a, b))
    && (forall i :: i in a.inodes && !Named(base, a, i) ==>
          i in b.inodes && b.inodes[i] == a.inodes[i] && !Named(base, b, i))
  }

  /** A path spelled from `d` whose parents are no symbolic links. */
  ghost predicate Plain(fs: Fs, d: Path, comps: Path) {
    comps != [] && AllNormal(comps) && NoLinks(fs, d, comps[..|comps| - 1])
  }

  // ---------------------------------------------------------------------
  // One system call at a plain path touches that path only
  // ---------------------------------------------------------------------

  /** Only node `q` may differ, and of the old inodes only the one `q` names. A
      file that appears at `q` is new or was named below `base`. */
  ghost predicate OnlyAt(base: Path, q: Path, a: Fs, b: Fs) {
    && base <= q
    && (forall p :: p != q ==> SameAt(p, a, b))
    && (forall i :: i in a.inodes ==>
          i in b.inodes && (b.inodes[i] == a.inodes[i] || (q in a.nodes && a.nodes[q] == File(i))))
    && (q in b.nodes && b.nodes[q].File? ==>
          b.nodes[q].ino in b.inodes
          && (SameAt(q, a, b) || b.nodes[q].ino !in a.inodes || Named(base, a, b.nodes[q].ino)))
  }

  lemma OnlyAtConfined(base: Path, q: Path, a: Fs, b: Fs)
    requires OnlyAt(base, q, a, b)
    ensures Confined(base, a, b)
  {
    forall i | i in a.inodes && !Named(base, a, i)
      ensures i in b.inodes && b.inodes[i] == a.inodes[i] && !Named(base, b, i)
    {
      forall p | base <= p ensures !(p in b.nodes && b.nodes[p] == File(i)) {
        assert p != q ==> SameAt(p, a, b);
      }
    }
  }

  lemma ConfinedTransitive(base: Path, a: Fs, b: Fs, c: Fs)
    requires Confined(base, a, b) && Confined(base, b, c)
    ensures Confined(base, a, c)
  {
    forall p | !(base <= p) ensures SameAt(p, a, c) {
      assert SameAt(p, a, b) && SameAt(p, b, c);
    }
  }

  /** What a plain path looks up, and where it lets an entry be made. */
  lemma LookupPlain(fs: Fs, d: Path, comps: Path)
    requires Plain(fs, d, comps)
    ensures Lookup(fs, d, comps).Some? ==> d + comps in fs.nodes && Lookup(fs, d, comps).value == fs.nodes[d + comps]
    ensures Slot(fs, d, comps).Some? ==> Slot(fs, d, comps).value == d + comps && fs.Writable(Parent(d + comps))
    ensures AllSearchable(fs, d, comps[..|comps| - 1]) ==>
              Lookup(fs, d, comps) == if d + comps in fs.nodes then Some(fs.nodes[d + comps]) else None
    ensures AllSearchable(fs, d, comps[..|comps| - 1]) && !fs.Faulty() && fs.Writable(Parent(d + comps)) ==>
              Slot(fs, d, comps) == Some(d + comps)
  {
    hide Walk, Locate;
    LocatePlain(fs, d, comps);
  }

  lemma NothingTouched(base: Path, q: Path, a: Fs, b: Fs)
    requires a.WellFormed() && base <= q && b.nodes == a.nodes && b.inodes == a.inodes
    ensures OnlyAt(base, q, a, b)
  {
  }

  lemma AddedOnly(base: Path, q: Path, a: Fs, b: Fs, n: Node)
    requires a.WellFormed() && base <= q && b.inodes == a.inodes && b.nodes == a.nodes[q := n]
    requires n.File? ==> Named(base, a, n.ino)
    ensures OnlyAt(base, q, a, b)
  {
  }

  lemma MkdirPlain(fs: Fs, d: Path, comps: Path, mode: Perm, base: Path)
    requires Plain(fs, d, comps) && base <= d + comps && fs.WellFormed()
    ensures var (fs', ok) := Mkdir(fs, d, comps, mode);
            && OnlyAt(base, d + comps, fs, fs') && fs'.inodes == fs.inodes
            && (ok ==> d + comps !in fs.nodes && fs.IsDir(Parent(d + comps)))
            && fs'.nodes == if ok then fs.nodes[d + comps := Dir(mode - fs.umask)] else fs.nodes
  {
    LookupPlain(fs, d, comps);
    hide Lookup, Slot, OnlyAt, Fs.WellFormed, Named, Plain;
    var (fs', ok) := Mkdir(fs, d, comps, mode);
    if ok {
      AddedOnly(base, d + comps, fs, fs', Dir(mode - fs.umask));
    } else {
      NothingTouched(base, d + comps, fs, fs');
    }
  }

  lemma SymlinkPlain(fs: Fs, d: Path, comps: Path, target: string, base: Path)
    requires Plain(fs, d, comps) && base <= d + comps && fs.WellFormed()
    ensures var (fs', ok) := Symlink(fs, d, comps, target);
            && OnlyAt(base, d + comps, fs, fs') && fs'.inodes == fs.inodes
            && (ok ==> d + comps !in fs.nodes && fs.IsDir(Parent(d + comps)))
            && fs'.nodes == if ok then fs.nodes[d + comps := Link(target)] else fs.nodes
  {
    LookupPlain(fs, d, comps);
    hide Lookup, Slot, OnlyAt, Fs.WellFormed, Named, Plain;
    var (fs', ok) := Symlink(fs, d, comps, target);
    if ok {
      AddedOnly(base, d + comps, fs, fs', Link(target));
    } else {
      NothingTouched(base, d + comps, fs, fs');
    }
  }

  lemma HardLinkPlain(fs: Fs, d: Path, src: Path, comps: Path, base: Path)
    requires Plain(fs, d, comps) && base <= d + comps && fs.WellFormed()
    requires Plain(fs, d, src) && base <= d + src
    ensures var (fs', ok) := FileSystem.HardLink(fs, d, src, comps);
            && OnlyAt(base, d + comps, fs, fs') && fs'.inodes == fs.inodes
            && (ok ==> d + comps !in fs.nodes && fs.IsDir(Parent(d + comps)))
            && (ok ==> d + src in fs.nodes && !fs.nodes[d + src].Dir?)
            && fs'.nodes == if ok then fs.nodes[d + comps := fs.nodes[d + src]] else fs.nodes
  {
    LookupPlain(fs, d, comps);
    LookupPlain(fs, d, src);
    hide Lookup, Slot, OnlyAt, Fs.WellFormed, Plain;
    var (fs', ok) := FileSystem.HardLink(fs, d, src, comps);
    if ok {
      AddedOnly(base, d + comps, fs, fs', fs.nodes[d + src]);
    } else {
      NothingTouched(base, d + comps, fs, fs');
    }
  }

  lemma RemovePlain(fs: Fs, d: Path, comps: Path, base: Path)
    requires Plain(fs, d, comps) && base <= d + comps && fs.WellFormed()
    ensures var fs' := FileSystem.Remove(fs, d, comps);
            && OnlyAt(base, d + comps, fs, fs') && fs'.inodes == fs.inodes
            && (fs'.nodes == fs.nodes
                || (fs'.nodes == fs.nodes - {d + comps} && d + comps in fs.nodes && !HasChild(fs, d + comps)))
  {
    LookupPlain(fs, d, comps);
    hide Lookup, Slot, Plain, OnlyAt, HasChild;
    var fs', q := FileSystem.Remove(fs, d, comps), d + comps;
    if fs'.nodes == fs.nodes {
      NothingTouched(base, q, fs, fs');
    } else {
      NodeRemoved(base, q, fs, fs');
      if HasChild(fs, q) {
        ChildOfDir(fs, q);
      }
    }
  }

  lemma NodeRemoved(base: Path, q: Path, a: Fs, b: Fs)
    requires a.WellFormed() && base <= q && b.inodes == a.inodes && b.nodes == a.nodes - {q}
    ensures OnlyAt(base, q, a, b)
  {
  }

  lemma ChildOfDir(fs: Fs, q: Path)
    requires fs.WellFormed() && HasChild(fs, q)
    ensures fs.IsDir(q)
  {
  }

  lemma OpenTruncPlain(fs: Fs, d: Path, comps: Path, mode: Perm, base: Path)
    requires Plain(fs, d, comps) && base <= d + comps && fs.WellFormed()
    ensures var (fs', ino) := OpenTrunc(fs, d, comps, mode);
            && OnlyAt(base, d + comps, fs, fs')
            && (ino.None? ==> fs'.nodes == fs.nodes && fs'.inodes == fs.inodes)
            && (ino.Some? ==> fs'.nodes == fs.nodes[d + comps := File(ino.value)] && ino.value in fs'.inodes)
            && (ino.Some? ==> fs.IsDir(Parent(d + comps)) && fs.Searchable(Parent(d + comps)))
            && (ino.Some? && d + comps !in fs.nodes ==> ino.value !in fs.inodes)
            && (ino.Some? && d + comps in fs.nodes ==>
                  fs.nodes[d + comps] == File(ino.value) && ino.value in fs.inodes
                  && OwnerWrite in fs.inodes[ino.value].mode)
            && (ino.Some? ==> AllSearchable(fs, d, comps[..|comps| - 1]))
  {
    hide Walk, Locate, FreshIno;
    LocatePlain(fs, d, comps);
    hide Plain, NoLinks, AllNormal, AllSearchable, OnlyAt, Named, Fs.WellFormed, Parent;
    var (fs', ino) := OpenTrunc(fs, d, comps, mode);
    if ino.None? {
      NothingTouched(base, d + comps, fs, fs');
    } else if d + comps in fs.nodes {
      InodeOnly(base, d + comps, fs, fs', ino.value);
    } else {
      FileAdded(base, d + comps, fs, fs', ino.value);
    }
  }

  lemma FileAdded(base: Path, q: Path, a: Fs, b: Fs, i: nat)
    requires a.WellFormed() && base <= q && q !in a.nodes && i !in a.inodes && i in b.inodes
    requires b.nodes == a.nodes[q := File(i)] && b.inodes == a.inodes[i := b.inodes[i]]
    ensures OnlyAt(base, q, a, b)
  {
  }

  lemma WriteAllPlain(fs: Fs, i: nat, content: Bytes, q: Path, base: Path)
    requires i in fs.inodes && q in fs.nodes && fs.nodes[q] == File(i) && base <= q
    ensures OnlyAt(base, q, fs, WriteAll(fs, i, content).0)
    ensures WriteAll(fs, i, content).0.nodes == fs.nodes
    ensures WriteAll(fs, i, content).0.inodes.Keys == fs.inodes.Keys
  {
  }

  /** chmod where the final component is no link either. */
  lemma ChmodPlain(fs: Fs, d: Path, comps: Path, mode: Perm, base: Path)
    requires Plain(fs, d, comps) && base <= d + comps && fs.WellFormed()
    requires d + comps in fs.nodes && !fs.nodes[d + comps].Link?
    ensures var (fs', ok) := Chmod(fs, d, comps, mode);
            && OnlyAt(base, d + comps, fs, fs') && fs'.inodes.Keys == fs.inodes.Keys
            && (fs.nodes[d + comps].Dir? ==> fs'.inodes == fs.inodes)
            && (fs.nodes[d + comps].Dir? ==>
                  fs'.nodes == if ok then fs.nodes[d + comps := Dir(mode)] else fs.nodes)
            && (fs.nodes[d + comps].File? ==> fs'.nodes == fs.nodes)
  {
    hide Walk;
    PlainFinal(fs, d, comps);
    hide Plain, Fs.WellFormed, OnlyAt;
    var q, fs' := d + comps, Chmod(fs, d, comps, mode).0;
    if !Chmod(fs, d, comps, mode).1 {
      NothingTouched(base, q, fs, fs');
    } else if fs.nodes[q].Dir? {
      AddedOnly(base, q, fs, fs', Dir(mode));
    } else {
      InodeOnly(base, q, fs, fs', fs.nodes[q].ino);
    }
  }

  lemma InodeOnly(base: Path, q: Path, a: Fs, b: Fs, i: nat)
    requires a.WellFormed() && base <= q && q in a.nodes && a.nodes[q] == File(i)
    requires b.nodes == a.nodes && i in b.inodes && b.inodes == a.inodes[i := b.inodes[i]]
    ensures OnlyAt(base, q, a, b)
  {
  }

  lemma PlainFinal(fs: Fs, d: Path, comps: Path)
    requires Plain(fs, d, comps) && d + comps in fs.nodes && !fs.nodes[d + comps].Link?
    ensures Walk(fs, d, comps, MAX_LINKS) in {None, Some(d + comps)}
    ensures AllSearchable(fs, d, comps[..|comps| - 1]) ==> Walk(fs, d, comps, MAX_LINKS) == Some(d + comps)
  {
    hide Walk;
    var up := comps[..|comps| - 1];
    assert NoLinks(fs, d, comps) by {
      forall k | 1 <= k <= |comps| && d + comps[..k] in fs.nodes ensures !fs.nodes[d + comps[..k]].Link? {
        if k < |comps| {
          assert up[..k] == comps[..k];
        } else {
          assert comps[..k] == comps;
        }
      }
    }
    WalkPlain(fs, d, comps, MAX_LINKS);
    if AllSearchable(fs, d, up) {
      forall k | 0 <= k < |comps| ensures fs.Searchable(d + comps[..k]) {
        assert up[..k] == comps[..k];
      }
      WalkReaches(fs, d, comps, MAX_LINKS);
    }
  }

  lemma SearchablePrefix(fs: Fs, d: Path, comps: Path, n: nat)
    requires AllSearchable(fs, d, comps) && n <= |comps|
    ensures AllSearchable(fs, d, comps[..n]) && NoLinks(fs, d, comps[..n])
  {
    forall k | 0 <= k <= n ensures fs.Searchable(d + comps[..n][..k]) {
      assert comps[..n][..k] == comps[..k];
    }
    OpenHasNoLinks(fs, d, comps[..n]);
  }

  lemma OpenHasNoLinks(fs: Fs, d: Path, comps: Path)
    requires AllSearchable(fs, d, comps)
    ensures NoLinks(fs, d, comps)
  {
    forall k | 1 <= k <= |comps| && d + comps[..k] in fs.nodes ensures !fs.nodes[d + comps[..k]].Link? {
      assert fs.Searchable(d + comps[..k]);
    }
  }

  /** Adding a leaf below a directory, removing a leaf, or changing a mode or a
      file keeps the tree a tree. */
  lemma TreeKept(fs: Fs, fs': Fs, base: Path, q: Path)
    requires fs.WellFormed() && OnlyAt(base, q, fs, fs') && q != []
    requires q in fs'.nodes ==> fs.IsDir(Parent(q))
    requires q in fs'.nodes && q in fs.nodes ==> (fs.nodes[q].Dir? ==> fs'.nodes[q].Dir?)
    requires q !in fs'.nodes && q in fs.nodes ==> !HasChild(fs, q)
    ensures fs'.WellFormed()
  {
    assert SameAt([], fs, fs');
    forall p: Path | p in fs'.nodes && p != [] ensures fs'.IsDir(Parent(p)) {
      assert p != q ==> SameAt(p, fs, fs');
      assert fs.IsDir(Parent(p));
      assert Parent(p) != q ==> SameAt(Parent(p), fs, fs');
      assert |Parent(p)| < |p|;
    }
    forall p: Path | p in fs'.nodes && fs'.nodes[p].File? ensures fs'.nodes[p].ino in fs'.inodes {
      assert p != q ==> SameAt(p, fs, fs');
    }
  }

  // ---------------------------------------------------------------------
  // The invariant of a run
  // ---------------------------------------------------------------------

  /** Every cached path exists, is no symbolic link, and has all its ancestors
      down to the root in the cache as well. */
  ghost predicate CacheOk(fs: Fs, d: Path, root: Name, safe: set<Path>) {
    forall p :: p in safe ==>
      && p != [] && p[0] == root
      && d + p in fs.nodes && !fs.nodes[d + p].Link?
      && forall k :: 1 <= k < |p| ==> p[..k] in safe
  }

  /** One of the first `n` headers was extracted to `p`. */
  ghost predicate Done(root: Name, hs: seq<Header>, n: nat, p: Path) {
    exists k :: 0 <= k < n <= |hs| && Kept(hs[k]) && CleanName(hs[k].name).Some? && Target(root, hs[k]) == p
  }

  /** Every directory waiting for its mode is one, at a path some header named. */
  ghost predicate DirsOk(fs: Fs, d: Path, root: Name, hs: seq<Header>, n: nat, dirs: seq<DirMode>) {
    forall e :: e in dirs ==>
      && e.path != [] && e.path[0] == root && AllNormal(e.path)
      && fs.IsDir(d + e.path) && Done(root, hs, n, e.path)
  }

  /** Only node `q` may differ, and not by becoming a directory or by a change of
      a directory's mode. */
  ghost predicate Touches(q: Path, a: Fs, b: Fs) {
    (forall p :: p != q ==> SameAt(p, a, b)) && (b.IsDir(q) ==> SameAt(q, a, b))
  }

  lemma TouchesTransitive(q: Path, a: Fs, b: Fs, c: Fs)
    requires Touches(q, a, b) && Touches(q, b, c)
    ensures Touches(q, a, c)
  {
    forall p | p != q ensures SameAt(p, a, c) {
      assert SameAt(p, a, b) && SameAt(p, b, c);
    }
  }

  lemma TouchesAdd(q: Path, a: Fs, b: Fs, n: Node)
    requires b.nodes == a.nodes[q := n] && !n.Dir?
    ensures Touches(q, a, b)
  {
  }

  lemma TouchesExtend(q: Path, a: Fs, b: Fs, c: Fs)
    requires (Touches(q, a, b) || a.nodes == b.nodes) && c.nodes == b.nodes
    ensures Touches(q, a, c)
  {
    if a.nodes != b.nodes {
      forall p | p != q ensures SameAt(p, a, c) {
        assert SameAt(p, a, b);
      }
    }
  }

  lemma TouchesFrom(q: Path, a: Fs, b: Fs, c: Fs)
    requires a.nodes == b.nodes && Touches(q, b, c)
    ensures Touches(q, a, c)
  {
    forall p | p != q ensures SameAt(p, a, c) {
      assert SameAt(p, b, c);
    }
  }

  /** What the first `n` headers named is still there. */
  ghost predicate Placed(fs: Fs, d: Path, root: Name, hs: seq<Header>, n: nat) {
    forall k :: 0 <= k < n <= |hs| && Kept(hs[k]) && CleanName(hs[k].name).Some? ==> d + Target(root, hs[k]) in fs.nodes
  }

  /** What one extraction started from: the file system then, and its job. */
  datatype Job = Job(fs0: Fs, d: Path, root: Name, hs: seq<Header>) {
    ghost function Base(): Path { d + [root] }
  }

  /** The invariant after `n` headers. */
  ghost predicate Good(j: Job, n: nat, fs: Fs, safe: set<Path>, dirs: seq<DirMode>) {
    && fs.WellFormed() && fs.IsDir(j.d)
    && Confined(j.Base(), j.fs0, fs)
    && CacheOk(fs, j.d, j.root, safe)
    && DirsOk(fs, j.d, j.root, j.hs, n, dirs)
    && Placed(fs, j.d, j.root, j.hs, n)
  }

  lemma {:induction false} CheckParentsSound(fs: Fs, safe: set<Path>, d: Path, comps: Path, root: Name, k: nat)
    requires comps != [] && comps[0] == root && AllNormal(comps) && 1 <= k
    requires CacheOk(fs, d, root, safe)
    requires forall j :: 1 <= j < k && j < |comps| ==> comps[..j] in safe
    ensures var (fs', safe', ok) := CheckParents(fs, safe, d, comps, k);
            && fs'.nodes == fs.nodes && fs'.inodes == fs.inodes && fs'.umask == fs.umask
            && CacheOk(fs', d, root, safe')
            && (ok ==> Plain(fs', d, comps) && forall j :: 1 <= j < |comps| ==> comps[..j] in safe')
    decreases |comps| - k
  {
    hide Walk, Locate, Lookup;
    if k >= |comps| {
      var up := comps[..|comps| - 1];
      forall j | 1 <= j <= |up| ensures up[..j] == comps[..j] {
      }
    } else if comps[..k] in safe {
      CheckParentsSound(fs, safe, d, comps, root, k + 1);
    } else {
      var here := comps[..k];
      assert Plain(fs, d, here) by {
        var up := here[..k - 1];
        forall j | 1 <= j <= k - 1 && d + up[..j] in fs.nodes ensures !fs.nodes[d + up[..j]].Link? {
          assert up[..j] == comps[..j];
          assert comps[..j] in safe;
        }
      }
      LookupPlain(fs, d, here);
      var (fs', node) := Lstat(fs, d, here);
      if node.Some? && !node.value.Link? {
        assert CacheOk(fs', d, root, safe + {here}) by {
          forall j | 1 <= j < k ensures here[..j] == comps[..j] {
          }
        }
        CheckParentsSound(fs', safe + {here}, d, comps, root, k + 1);
      }
    }
  }

  ghost predicate SameKind(q: Path, a: Fs, b: Fs) {
    q in a.nodes ==> q in b.nodes && (a.nodes[q].Dir? <==> b.nodes[q].Dir?) && (a.nodes[q].Link? <==> b.nodes[q].Link?)
  }

  /** A place a header may be extracted to. */
  ghost predicate PlaceOk(j: Job, fs: Fs, dst: Path) {
    Plain(fs, j.d, dst) && dst[0] == j.root && j.Base() <= j.d + dst
  }

  lemma SameNodesKeep(j: Job, n: nat, fs: Fs, fs': Fs, safe: set<Path>, dirs: seq<DirMode>)
    requires Good(j, n, fs, safe, dirs) && fs'.nodes == fs.nodes && fs'.inodes == fs.inodes
    ensures Good(j, n, fs', safe, dirs)
  {
    assert forall i :: Named(j.Base(), fs', i) <==> Named(j.Base(), fs, i);
    forall p | !(j.Base() <= p) ensures SameAt(p, j.fs0, fs') {
      assert SameAt(p, j.fs0, fs);
    }
  }

  /** A call that removes nothing and changes no node's kind keeps everything. */
  lemma CallKeeps(j: Job, n: nat, fs: Fs, fs': Fs, safe: set<Path>, dirs: seq<DirMode>, q: Path)
    requires Good(j, n, fs, safe, dirs)
    requires OnlyAt(j.Base(), q, fs, fs') && SameKind(q, fs, fs')
    requires q in fs'.nodes ==> fs.IsDir(Parent(q))
    ensures Good(j, n, fs', safe, dirs)
  {
    TreeKept(fs, fs', j.Base(), q);
    OnlyAtConfined(j.Base(), q, fs, fs');
    ConfinedTransitive(j.Base(), j.fs0, fs, fs');
    assert SameAt(j.d, fs, fs');
    forall p | p in safe ensures j.d + p in fs'.nodes && !fs'.nodes[j.d + p].Link? {
      assert j.d + p != q ==> SameAt(j.d + p, fs, fs');
    }
    forall e | e in dirs ensures fs'.IsDir(j.d + e.path) {
      assert j.d + e.path != q ==> SameAt(j.d + e.path, fs, fs');
    }
    forall p | p in fs.nodes ensures p in fs'.nodes {
      assert p != q ==> SameAt(p, fs, fs');
    }
  }

  lemma ForgetKeeps(fs: Fs, fs': Fs, d: Path, root: Name, safe: set<Path>, dst: Path)
    requires CacheOk(fs, d, root, safe)
    requires forall p :: p != d + dst ==> SameAt(p, fs, fs')
    ensures CacheOk(fs', d, root, Forget(safe, dst))
  {
    forall p | p in Forget(safe, dst)
      ensures d + p in fs'.nodes && !fs'.nodes[d + p].Link?
      ensures forall k :: 1 <= k < |p| ==> p[..k] in Forget(safe, dst)
    {
      assert p != dst;
      assert d + p != d + dst by {
        assert (d + p)[|d|..] == p && (d + dst)[|d|..] == dst;
      }
      assert SameAt(d + p, fs, fs');
      forall k | 1 <= k < |p| ensures !(dst <= p[..k]) {
        assert dst <= p[..k] ==> dst <= p;
      }
    }
  }

  /** Removing what stands at a path that no earlier header named, and dropping
      everything there from the cache. */
  lemma ClearedKeeps(j: Job, n: nat, r: Run, dst: Path, force: bool)
    requires Good(j, n, r.fs, r.safe, r.dirs) && PlaceOk(j, r.fs, dst)
    requires !Done(j.root, j.hs, n, dst)
    ensures var r' := Cleared(r, j.d, dst, force);
            Good(j, n, r'.fs, r'.safe, r'.dirs) && PlaceOk(j, r'.fs, dst) && Touches(j.d + dst, r.fs, r'.fs)
  {
    if force {
      var d, fs, fs', q := j.d, r.fs, FileSystem.Remove(r.fs, j.d, dst), j.d + dst;
      RemovePlain(fs, d, dst, j.Base());
      TreeKept(fs, fs', j.Base(), q);
      OnlyAtConfined(j.Base(), q, fs, fs');
      ConfinedTransitive(j.Base(), j.fs0, fs, fs');
      ForgetKeeps(fs, fs', d, j.root, r.safe, dst);
      assert SameAt(d, fs, fs');
      forall e | e in r.dirs ensures fs'.IsDir(d + e.path) {
        assert e.path != dst;
        assert (d + e.path)[|d|..] == e.path && q[|d|..] == dst;
        assert SameAt(d + e.path, fs, fs');
      }
      forall k | 0 <= k < n <= |j.hs| && Kept(j.hs[k]) && CleanName(j.hs[k].name).Some?
        ensures d + Target(j.root, j.hs[k]) in fs'.nodes
      {
        var p := Target(j.root, j.hs[k]);
        assert (d + p)[|d|..] == p && q[|d|..] == dst;
        assert SameAt(d + p, fs, fs');
      }
      PlainStays(fs, fs', d, dst);
    }
  }

  lemma PlainStays(fs: Fs, fs': Fs, d: Path, dst: Path)
    requires Plain(fs, d, dst) && forall p :: p != d + dst ==> SameAt(p, fs, fs')
    ensures Plain(fs', d, dst)
  {
    var up := dst[..|dst| - 1];
    forall k | 1 <= k <= |up| && d + up[..k] in fs'.nodes ensures !fs'.nodes[d + up[..k]].Link? {
      assert SameAt(d + up[..k], fs, fs');
    }
  }

  lemma NextHeader(j: Job, n: nat, fs: Fs, safe: set<Path>, dirs: seq<DirMode>)
    requires Good(j, n, fs, safe, dirs) && n < |j.hs|
    requires Kept(j.hs[n]) ==> CleanName(j.hs[n].name).Some? && j.d + Target(j.root, j.hs[n]) in fs.nodes
    ensures Good(j, n + 1, fs, safe, dirs)
  {
    forall p | Done(j.root, j.hs, n, p) ensures Done(j.root, j.hs, n + 1, p) {
      var k :| 0 <= k < n <= |j.hs| && Kept(j.hs[k]) && CleanName(j.hs[k].name).Some? && Target(j.root, j.hs[k]) == p;
    }
  }

  lemma AddDir(j: Job, n: nat, fs: Fs, safe: set<Path>, dirs: seq<DirMode>, e: DirMode)
    requires Good(j, n, fs, safe, dirs)
    requires e.path != [] && e.path[0] == j.root && AllNormal(e.path)
    requires fs.IsDir(j.d + e.path) && Done(j.root, j.hs, n, e.path)
    ensures Good(j, n, fs, safe, dirs + [e])
  {
  }

  /** Header `n` is a kept one and `dst` is where it goes. */
  ghost predicate Next(j: Job, n: nat, dst: Path) {
    n < |j.hs| && Kept(j.hs[n]) && CleanName(j.hs[n].name).Some? && Target(j.root, j.hs[n]) == dst
  }

  ghost function Count(n: nat, failed: bool): nat { if failed then n else n + 1 }

  /** Placing an entry changes its own path only, and directories wait for their
      mode only if they were made just now. */
  ghost predicate Placement(j: Job, dst: Path, mode: Perm, r: Run, r': Run) {
    || (Touches(j.d + dst, r.fs, r'.fs) && r'.dirs == r.dirs)
    || (&& j.d + dst !in r.fs.nodes && (forall p :: p != j.d + dst ==> SameAt(p, r.fs, r'.fs))
        && r'.dirs == r.dirs + [DirMode(dst, mode)])
  }

  lemma MkdirKeeps(j: Job, n: nat, fs: Fs, safe: set<Path>, dirs: seq<DirMode>, dst: Path, mode: Perm)
    requires Good(j, n, fs, safe, dirs) && PlaceOk(j, fs, dst)
    ensures var (fs', ok) := Mkdir(fs, j.d, dst, mode);
            && Good(j, n, fs', safe, dirs)
            && (ok ==> j.d + dst !in fs.nodes && fs'.IsDir(j.d + dst))
            && (ok ==> forall p :: p != j.d + dst ==> SameAt(p, fs, fs'))
            && (!ok ==> fs'.nodes == fs.nodes)
  {
    hide OnlyAt, Mkdir;
    var (fs', ok) := Mkdir(fs, j.d, dst, mode);
    MkdirPlain(fs, j.d, dst, mode, j.Base());
    hide Good;
    if ok {
      CallKeeps(j, n, fs, fs', safe, dirs, j.d + dst);
    } else {
      SameNodesKeep(j, n, fs, fs', safe, dirs);
    }
  }

  lemma NewDirKeeps(j: Job, n: nat, r: Run, dst: Path, mode: Perm)
    requires Good(j, n, r.fs, r.safe, r.dirs) && PlaceOk(j, r.fs, dst) && Next(j, n, dst)
    ensures var (fs', ok) := Mkdir(r.fs, j.d, dst, mode + OWNER_ALL);
            && Good(j, if ok then n + 1 else n, fs', r.safe, if ok then r.dirs + [DirMode(dst, mode)] else r.dirs)
            && Placement(j, dst, mode, r, r.(fs := fs', dirs := if ok then r.dirs + [DirMode(dst, mode)] else r.dirs))
  {
    hide Mkdir, CleanName, Good, Touches, NoLinks, Done;
    MkdirKeeps(j, n, r.fs, r.safe, r.dirs, dst, mode + OWNER_ALL);
    var (fs', ok) := Mkdir(r.fs, j.d, dst, mode + OWNER_ALL);
    if ok {
      NextHeader(j, n, fs', r.safe, r.dirs);
      NextDone(j, n, dst);
      AddDir(j, n + 1, fs', r.safe, r.dirs, DirMode(dst, mode));
    } else {
      TouchesExtend(j.d + dst, r.fs, r.fs, fs');
    }
  }

  lemma ExtractDirKeeps(j: Job, n: nat, r: Run, dst: Path, mode: Perm)
    requires Good(j, n, r.fs, r.safe, r.dirs) && PlaceOk(j, r.fs, dst) && Next(j, n, dst) && !r.failed
    ensures var r' := ExtractDir(r, j.d, dst, mode);
            Good(j, Count(n, r'.failed), r'.fs, r'.safe, r'.dirs) && Placement(j, dst, mode, r, r')
  {
    LookupPlain(r.fs, j.d, dst);
    hide Lookup, Mkdir, CleanName, Good, Touches, NoLinks, AllNormal, Done;
    var (fs, node) := Lstat(r.fs, j.d, dst);
    SameNodesKeep(j, n, r.fs, fs, r.safe, r.dirs);
    SamePlace(j, r.fs, fs, dst);
    if node.None? {
      NewDirKeeps(j, n, r.(fs := fs), dst, mode);
      PlacementFrom(j, dst, mode, r, r.(fs := fs), ExtractDir(r, j.d, dst, mode));
    } else {
      TouchesExtend(j.d + dst, r.fs, r.fs, fs);
      if !node.value.Link? {
        NextHeader(j, n, fs, r.safe, r.dirs);
      }
    }
    hide PlaceOk, Placement, Next;
  }

  lemma NextDone(j: Job, n: nat, dst: Path)
    requires Next(j, n, dst)
    ensures Done(j.root, j.hs, n + 1, dst)
  {
  }

  lemma SymlinkKeeps(j: Job, n: nat, fs: Fs, safe: set<Path>, dirs: seq<DirMode>, dst: Path, target: string)
    requires Good(j, n, fs, safe, dirs) && PlaceOk(j, fs, dst)
    ensures var (fs', ok) := Symlink(fs, j.d, dst, target);
            Good(j, n, fs', safe, dirs) && (ok ==> j.d + dst in fs'.nodes) && Touches(j.d + dst, fs, fs')
  {
    hide OnlyAt, Symlink;
    var (fs', ok) := Symlink(fs, j.d, dst, target);
    SymlinkPlain(fs, j.d, dst, target, j.Base());
    hide Good, Touches;
    if ok {
      CallKeeps(j, n, fs, fs', safe, dirs, j.d + dst);
      TouchesAdd(j.d + dst, fs, fs', Link(target));
    } else {
      SameNodesKeep(j, n, fs, fs', safe, dirs);
      TouchesExtend(j.d + dst, fs, fs, fs');
    }
  }

  lemma ExtractSymlinkKeeps(j: Job, n: nat, r: Run, dst: Path, target: string)
    requires Good(j, n, r.fs, r.safe, r.dirs) && PlaceOk(j, r.fs, dst) && Next(j, n, dst) && !r.failed
    ensures var r' := ExtractSymlink(r, j.d, dst, target);
            Good(j, Count(n, r'.failed), r'.fs, r'.safe, r'.dirs) && Touches(j.d + dst, r.fs, r'.fs)
  {
    hide Symlink, CleanName, Good, Touches;
    SymlinkKeeps(j, n, r.fs, r.safe, r.dirs, dst, target);
    var (fs', ok) := Symlink(r.fs, j.d, dst, target);
    if ok {
      NextHeader(j, n, fs', r.safe, r.dirs);
    }
  }

  /** Opening for writing: the invariant holds, and on success the path names the
      opened inode. */
  lemma OpenTruncKeeps(j: Job, n: nat, fs: Fs, safe: set<Path>, dirs: seq<DirMode>, dst: Path, mode: Perm)
    requires Good(j, n, fs, safe, dirs) && PlaceOk(j, fs, dst)
    ensures var (fs', ino) := OpenTrunc(fs, j.d, dst, mode);
            && Good(j, n, fs', safe, dirs) && PlaceOk(j, fs', dst) && Touches(j.d + dst, fs, fs')
            && (ino.Some? ==> ino.value in fs'.inodes)
            && (ino.Some? ==> j.d + dst in fs'.nodes && fs'.nodes[j.d + dst] == File(ino.value))
  {
    hide OpenTrunc, CleanName;
    var (fs', ino) := OpenTrunc(fs, j.d, dst, mode);
    OpenTruncPlain(fs, j.d, dst, mode, j.Base());
    PlainStays(fs, fs', j.d, dst);
    hide Good, OnlyAt, Touches;
    if ino.Some? {
      CallKeeps(j, n, fs, fs', safe, dirs, j.d + dst);
      TouchesAdd(j.d + dst, fs, fs', File(ino.value));
    } else {
      SameNodesKeep(j, n, fs, fs', safe, dirs);
      TouchesExtend(j.d + dst, fs, fs, fs');
    }
  }

  lemma WriteAllKeeps(j: Job, n: nat, fs: Fs, safe: set<Path>, dirs: seq<DirMode>, dst: Path, i: nat, content: Bytes)
    requires Good(j, n, fs, safe, dirs) && PlaceOk(j, fs, dst)
    requires i in fs.inodes && j.d + dst in fs.nodes && fs.nodes[j.d + dst] == File(i)
    ensures var fs' := WriteAll(fs, i, content).0;
            Good(j, n, fs', safe, dirs) && PlaceOk(j, fs', dst) && fs'.nodes == fs.nodes
  {
    hide WriteAll, CleanName, OnlyAt;
    var fs' := WriteAll(fs, i, content).0;
    WriteAllPlain(fs, i, content, j.d + dst, j.Base());
    assert fs.IsDir(Parent(j.d + dst));
    hide Good;
    CallKeeps(j, n, fs, fs', safe, dirs, j.d + dst);
  }

  lemma ChmodKeeps(j: Job, n: nat, fs: Fs, safe: set<Path>, dirs: seq<DirMode>, dst: Path, mode: Perm)
    requires Good(j, n, fs, safe, dirs) && PlaceOk(j, fs, dst)
    requires j.d + dst in fs.nodes && !fs.nodes[j.d + dst].Link?
    ensures var fs' := Chmod(fs, j.d, dst, mode).0;
            && Good(j, n, fs', safe, dirs) && j.d + dst in fs'.nodes
            && (forall p :: p != j.d + dst ==> SameAt(p, fs, fs'))
            && (fs.nodes[j.d + dst].File? ==> fs'.nodes == fs.nodes)
  {
    hide Chmod, CleanName;
    var fs' := Chmod(fs, j.d, dst, mode).0;
    ChmodPlain(fs, j.d, dst, mode, j.Base());
    assert fs.IsDir(Parent(j.d + dst));
    hide Good, OnlyAt;
    CallKeeps(j, n, fs, fs', safe, dirs, j.d + dst);
  }

  lemma ExtractRegKeeps(j: Job, n: nat, r: Run, dst: Path, mode: Perm, content: Bytes)
    requires Good(j, n, r.fs, r.safe, r.dirs) && PlaceOk(j, r.fs, dst) && Next(j, n, dst) && !r.failed
    ensures var r' := ExtractReg(r, j.d, dst, mode, content);
            Good(j, Count(n, r'.failed), r'.fs, r'.safe, r'.dirs) && Touches(j.d + dst, r.fs, r'.fs)
  {
    hide OpenTrunc, WriteAll, Chmod, Walk, Good, PlaceOk, CleanName, Touches;
    OpenTruncKeeps(j, n, r.fs, r.safe, r.dirs, dst, mode);
    var (fs1, ino) := OpenTrunc(r.fs, j.d, dst, mode);
    if ino.Some? {
      WriteAllKeeps(j, n, fs1, r.safe, r.dirs, dst, ino.value, content);
      var (fs2, written) := WriteAll(fs1, ino.value, content);
      TouchesExtend(j.d + dst, r.fs, fs1, fs2);
      if written {
        ChmodKeeps(j, n, fs2, r.safe, r.dirs, dst, mode);
        var (fs3, moded) := Chmod(fs2, j.d, dst, mode);
        TouchesExtend(j.d + dst, r.fs, fs2, fs3);
        if moded {
          var (fs4, timed) := Chtimes(fs3, j.d, dst);
          TouchesExtend(j.d + dst, r.fs, fs3, fs4);
          SameNodesKeep(j, n, fs3, fs4, r.safe, r.dirs);
          if timed {
            NextHeader(j, n, fs4, r.safe, r.dirs);
          }
        }
      }
    }
  }

  lemma CopyFileKeeps(j: Job, n: nat, fs: Fs, safe: set<Path>, dirs: seq<DirMode>, src: Path, dst: Path, mode: Perm)
    requires Good(j, n, fs, safe, dirs) && PlaceOk(j, fs, dst) && src != [] && dst != []
    ensures var (fs', ok) := CopyFile(fs, j.d, src, dst, mode);
            Good(j, n, fs', safe, dirs) && (ok ==> j.d + dst in fs'.nodes) && Touches(j.d + dst, fs, fs')
  {
    hide OpenTrunc, WriteAll, Symlink, Lookup, Good, PlaceOk, Touches;
    var (fs1, node) := Lstat(fs, j.d, src);
    SameNodesKeep(j, n, fs, fs1, safe, dirs);
    SamePlace(j, fs, fs1, dst);
    TouchesExtend(j.d + dst, fs, fs, fs1);
    if node.Some? && node.value.Link? {
      SymlinkKeeps(j, n, fs1, safe, dirs, dst, node.value.target);
      TouchesFrom(j.d + dst, fs, fs1, Symlink(fs1, j.d, dst, node.value.target).0);
    } else if node.Some? {
      var (fs2, from) := OpenRead(fs1, j.d, src);
      SameNodesKeep(j, n, fs1, fs2, safe, dirs);
      SamePlace(j, fs1, fs2, dst);
      TouchesExtend(j.d + dst, fs, fs1, fs2);
      if from.Some? {
        OpenTruncKeeps(j, n, fs2, safe, dirs, dst, mode);
        var (fs3, ino) := OpenTrunc(fs2, j.d, dst, mode);
        TouchesFrom(j.d + dst, fs, fs2, fs3);
        if ino.Some? && from.value in fs3.inodes {
          var content := fs3.inodes[from.value].content;
          WriteAllKeeps(j, n, fs3, safe, dirs, dst, ino.value, content);
          TouchesExtend(j.d + dst, fs, fs3, WriteAll(fs3, ino.value, content).0);
        }
      }
    }
  }

  lemma SamePlace(j: Job, fs: Fs, fs': Fs, dst: Path)
    requires PlaceOk(j, fs, dst) && fs'.nodes == fs.nodes
    ensures PlaceOk(j, fs', dst)
  {
  }

  lemma ExtractHardLinkKeeps(j: Job, n: nat, r: Run, src: Path, dst: Path, mode: Perm)
    requires Good(j, n, r.fs, r.safe, r.dirs) && PlaceOk(j, r.fs, dst) && Next(j, n, dst) && !r.failed
    requires PlaceOk(j, r.fs, src)
    ensures var r' := ExtractHardLink(r, j.d, src, dst, mode);
            Good(j, Count(n, r'.failed), r'.fs, r'.safe, r'.dirs) && Touches(j.d + dst, r.fs, r'.fs)
  {
    hide FileSystem.HardLink, CopyFile, OnlyAt, CleanName;
    HardLinkPlain(r.fs, j.d, src, dst, j.Base());
    var (fs1, linked) := FileSystem.HardLink(r.fs, j.d, src, dst);
    hide Good, Touches;
    if linked {
      CallKeeps(j, n, r.fs, fs1, r.safe, r.dirs, j.d + dst);
      NextHeader(j, n, fs1, r.safe, r.dirs);
      TouchesAdd(j.d + dst, r.fs, fs1, r.fs.nodes[j.d + src]);
    } else {
      SameNodesKeep(j, n, r.fs, fs1, r.safe, r.dirs);
      SamePlace(j, r.fs, fs1, dst);
      CopyFileKeeps(j, n, fs1, r.safe, r.dirs, src, dst, mode);
      TouchesFrom(j.d + dst, r.fs, fs1, CopyFile(fs1, j.d, src, dst, mode).0);
      if CopyFile(fs1, j.d, src, dst, mode).1 {
        NextHeader(j, n, CopyFile(fs1, j.d, src, dst, mode).0, r.safe, r.dirs);
      }
    }
  }

  // ---------------------------------------------------------------------
  // One header, all headers, and the closing pass
  // ---------------------------------------------------------------------

  lemma AboveIsDir(fs: Fs, d: Path, comps: Path, k: nat)
    requires fs.WellFormed() && d + comps in fs.nodes && k < |comps|
    ensures fs.IsDir(d + comps[..k])
  {
    AncestorsAreDirs(fs, d + comps, |d| + k);
    assert (d + comps)[..|d| + k] == d + comps[..k];
  }

  /** What stands at or above a node is a directory, so the path is plain. */
  lemma ExistingIsPlain(fs: Fs, d: Path, comps: Path)
    requires fs.WellFormed() && comps != [] && AllNormal(comps) && d + comps in fs.nodes
    ensures Plain(fs, d, comps)
  {
    var up := comps[..|comps| - 1];
    forall k | 1 <= k <= |up| && d + up[..k] in fs.nodes ensures !fs.nodes[d + up[..k]].Link? {
      AboveIsDir(fs, d, comps, k);
      assert up[..k] == comps[..k];
    }
  }

  lemma TargetPlace(j: Job, h: Header)
    requires CleanName(h.name).Some? && Normal(j.root)
    ensures var p := Target(j.root, h); p != [] && p[0] == j.root && AllNormal(p) && j.Base() <= j.d + p
  {
    hide CleanName;
    CleanNameIsNormal(h.name);
  }

  /** An accepted hard link's target is a place that has been filled. */
  lemma LinkSourcePlaced(j: Job, n: nat, fs: Fs, safe: set<Path>, dirs: seq<DirMode>)
    requires Good(j, n, fs, safe, dirs) && n < |j.hs| && Acceptable(j.hs) && j.hs[n].flag.HardLink? && Normal(j.root)
    ensures PlaceOk(j, fs, LinkSource(j.root, j.hs[n].linkname))
  {
    hide CleanName, Plain;
    assert LinkInside(j.hs, n);
    var t := CleanName(j.hs[n].linkname).value;
    var k :| 0 <= k < n && Names(j.hs[..n][k], t) && j.hs[..n][k].flag in {Reg, HardLink};
    assert j.hs[k] == j.hs[..n][k];
    TargetPlace(j, j.hs[k]);
    ExistingIsPlain(fs, j.d, Target(j.root, j.hs[k]));
  }

  /** No earlier header went where header `n` goes. */
  lemma NotDone(j: Job, top: Name, n: nat)
    requires n < |j.hs| && NamedOnce(j.hs) && Kept(j.hs[n])
    requires forall k :: 0 <= k <= n && Kept(j.hs[k]) ==>
               CleanName(j.hs[k].name).Some? && CleanName(j.hs[k].name).value[0] == top
    ensures !Done(j.root, j.hs, n, Target(j.root, j.hs[n]))
  {
    hide CleanName;
    var p := CleanName(j.hs[n].name).value;
    forall k | 0 <= k < n && Kept(j.hs[k]) ensures Target(j.root, j.hs[k]) != Target(j.root, j.hs[n]) {
      var q := CleanName(j.hs[k].name).value;
      assert Considered(j.hs[k]) && Considered(j.hs[n]);
      assert q != p;
      assert p == [top] + p[1..] && q == [top] + q[1..];
      assert Target(j.root, j.hs[k])[1..] == q[1..] && Target(j.root, j.hs[n])[1..] == p[1..];
    }
  }

  lemma NotDoneHere(j: Job, top: Name, n: nat)
    requires n < |j.hs| && Acceptable(j.hs) && Kept(j.hs[n]) && BelowTop(j.hs, top, n)
    requires CleanName(j.hs[n].name).Some? && CleanName(j.hs[n].name).value[0] == top
    ensures !Done(j.root, j.hs, n, Target(j.root, j.hs[n]))
  {
    hide CleanName;
    NotDone(j, top, n);
  }

  /** So far every kept header named something below `top`. */
  ghost predicate BelowTop(hs: seq<Header>, top: Name, n: nat) {
    forall k :: 0 <= k < n <= |hs| && Kept(hs[k]) ==>
      CleanName(hs[k].name).Some? && CleanName(hs[k].name).value[0] == top
  }

  lemma ParentsKeep(j: Job, n: nat, r: Run, dst: Path)
    requires Good(j, n, r.fs, r.safe, r.dirs)
    requires dst != [] && dst[0] == j.root && AllNormal(dst) && j.Base() <= j.d + dst
    ensures var (fs, safe, ok) := CheckParents(r.fs, r.safe, j.d, dst, 1);
            && Good(j, n, fs, safe, r.dirs) && (ok ==> PlaceOk(j, fs, dst))
            && fs.nodes == r.fs.nodes && fs.inodes == r.fs.inodes
  {
    hide CheckParents;
    CheckParentsSound(r.fs, r.safe, j.d, dst, j.root, 1);
    SameNodesKeep(j, n, r.fs, CheckParents(r.fs, r.safe, j.d, dst, 1).0, r.safe, r.dirs);
  }

  /** A header changes no node, or places one entry where it names it. */
  ghost predicate StepShape(j: Job, n: nat, r: Run, r': Run)
    requires n < |j.hs|
  {
    || (r'.fs.nodes == r.fs.nodes && r'.dirs == r.dirs)
    || (&& Kept(j.hs[n]) && CleanName(j.hs[n].name).Some?
        && Placement(j, Target(j.root, j.hs[n]), j.hs[n].mode, r, r'))
  }

  lemma PlacementFrom(j: Job, dst: Path, mode: Perm, r: Run, r1: Run, r': Run)
    requires r1.fs.nodes == r.fs.nodes && r1.dirs == r.dirs && Placement(j, dst, mode, r1, r')
    ensures Placement(j, dst, mode, r, r')
  {
    if Touches(j.d + dst, r1.fs, r'.fs) {
      TouchesFrom(j.d + dst, r.fs, r1.fs, r'.fs);
    } else {
      forall p | p != j.d + dst ensures SameAt(p, r.fs, r'.fs) {
        assert SameAt(p, r1.fs, r'.fs);
      }
    }
  }

  lemma StepKeeps(j: Job, n: nat, r: Run, top: Name, force: bool)
    requires Good(j, n, r.fs, r.safe, r.dirs) && BelowTop(j.hs, top, n) && !r.failed
    requires n < |j.hs| && Acceptable(j.hs) && Normal(j.root)
    ensures var r' := Step(r, j.d, top, j.root, j.hs[n], force);
            && Good(j, Count(n, r'.failed), r'.fs, r'.safe, r'.dirs)
            && (!r'.failed ==> BelowTop(j.hs, top, n + 1))
            && StepShape(j, n, r, r')
  {
    hide CleanName, CheckParents, Place, Good, PlaceOk, Acceptable, Touches;
    var h := j.hs[n];
    if !Kept(h) {
      NextHeader(j, n, r.fs, r.safe, r.dirs);
    } else if CleanName(h.name).Some? && CleanName(h.name).value[0] == top {
      TargetPlace(j, h);
      var dst := Target(j.root, h);
      ParentsKeep(j, n, r, dst);
      var (fs, safe, ok) := CheckParents(r.fs, r.safe, j.d, dst, 1);
      if ok {
        NotDoneHere(j, top, n);
        var r1 := r.(fs := fs, safe := safe);
        PlaceKeeps(j, n, r1, dst, force);
        PlacementFrom(j, dst, h.mode, r, r1, Place(r1, j.d, j.root, dst, h, force));
      }
    }
  }

  lemma PlaceKeeps(j: Job, n: nat, r: Run, dst: Path, force: bool)
    requires Good(j, n, r.fs, r.safe, r.dirs) && PlaceOk(j, r.fs, dst) && Next(j, n, dst) && !r.failed
    requires !Done(j.root, j.hs, n, dst) && Acceptable(j.hs) && Normal(j.root)
    ensures var r' := Place(r, j.d, j.root, dst, j.hs[n], force);
            Good(j, Count(n, r'.failed), r'.fs, r'.safe, r'.dirs) && Placement(j, dst, j.hs[n].mode, r, r')
  {
    hide Good, PlaceOk, ExtractDir, CleanName, Touches, OpenTrunc, WriteAll, Chmod, Symlink, CopyFile, FileSystem.HardLink;
    ClearedKeeps(j, n, r, dst, force);
    var h, c := j.hs[n], Cleared(r, j.d, dst, force);
    match h.flag {
      case Directory => ExtractDirKeeps(j, n, r, dst, h.mode);
      case Reg => ExtractRegKeeps(j, n, c, dst, h.mode, h.content);
      case SymLink => ExtractSymlinkKeeps(j, n, c, dst, h.linkname);
      case HardLink =>
        LinkSourcePlaced(j, n, c.fs, c.safe, c.dirs);
        ExtractHardLinkKeeps(j, n, c, LinkSource(j.root, h.linkname), dst, h.mode);
    }
    if !h.flag.Directory? {
      TouchesTransitive(j.d + dst, r.fs, c.fs, Place(r, j.d, j.root, dst, h, force).fs);
    }
  }

  /** The invariant at the end of the header loop, after `m` headers. */
  lemma {:induction false} StepsKeep(j: Job, n: nat, r: Run, top: Name, force: bool) returns (m: nat)
    requires Good(j, n, r.fs, r.safe, r.dirs) && BelowTop(j.hs, top, n) && !r.failed
    requires n <= |j.hs| && Acceptable(j.hs) && Normal(j.root)
    ensures var r' := Steps(r, j.d, top, j.root, j.hs[n..], force);
            && n <= m <= |j.hs| && Good(j, m, r'.fs, r'.safe, r'.dirs)
            && (!r'.failed ==> m == |j.hs|)
    decreases |j.hs| - n
  {
    hide Good, Step, BelowTop;
    m := n;
    if n < |j.hs| {
      StepKeeps(j, n, r, top, force);
      var r' := Step(r, j.d, top, j.root, j.hs[n], force);
      assert j.hs[n..][1..] == j.hs[n + 1..];
      if !r'.failed {
        m := StepsKeep(j, n + 1, r', top, force);
      }
    }
  }

  lemma {:induction false} ChmodDirsKeep(j: Job, n: nat, fs: Fs, safe: set<Path>, dirs: seq<DirMode>)
    requires Good(j, n, fs, safe, dirs)
    ensures Good(j, n, ChmodDirs(fs, j.d, dirs).0, safe, [])
    decreases |dirs|
  {
    hide Chmod;
    if dirs != [] {
      var last, rest := dirs[|dirs| - 1], dirs[..|dirs| - 1];
      assert last in dirs;
      assert j.Base() <= j.d + last.path;
      ExistingIsPlain(fs, j.d, last.path);
      assert forall e :: e in rest ==> e in dirs;
      assert Good(j, n, fs, safe, rest) && Good(j, n, fs, safe, []);
      ChmodKeeps(j, n, fs, safe, rest, last.path, last.mode);
      ChmodKeeps(j, n, fs, safe, [], last.path, last.mode);
      if Chmod(fs, j.d, last.path, last.mode).1 {
        ChmodDirsKeep(j, n, Chmod(fs, j.d, last.path, last.mode).0, safe, rest);
      }
    }
  }

  lemma StartsGood(j: Job)
    requires j.fs0.WellFormed() && j.fs0.IsDir(j.d)
    ensures Good(j, 0, j.fs0, {}, [])
  {
  }

  /** Main result: extracting an accepted archive, with or without force, under
      any faults, changes nothing outside the root, changes no file that had no
      name in there, and leaves a tree. */
  lemma ExtractionConfined(fs: Fs, d: Path, top: Name, root: Name, tar: Tar, force: bool)
    requires fs.WellFormed() && fs.IsDir(d) && Normal(root) && Acceptable(tar.headers)
    ensures var fs' := Extraction(fs, d, top, root, tar, force).0;
            fs'.WellFormed() && Confined(d + [root], fs, fs')
  {
    hide Steps, ChmodDirs;
    var j := Job(fs, d, root, tar.headers);
    StartsGood(j);
    assert j.hs[0..] == j.hs;
    var m := StepsKeep(j, 0, Run(fs, {}, [], false), top, force);
    var r := Steps(Run(fs, {}, [], false), d, top, root, tar.headers, force);
    ChmodDirsKeep(j, m, r.fs, r.safe, r.dirs);
  }

  /** Main result: at every point of such a run the cache of checked directories
      is right: what it holds exists and is no link, with directories above it. */
  lemma CacheRight(fs: Fs, d: Path, top: Name, root: Name, tar: Tar, force: bool, n: nat)
    requires fs.WellFormed() && fs.IsDir(d) && Normal(root) && Acceptable(tar.headers) && n <= |tar.headers|
    ensures var r := Steps(Run(fs, {}, [], false), d, top, root, tar.headers[..n], force);
            && CacheOk(r.fs, d, root, r.safe)
            && (forall p, k :: p in r.safe && 1 <= k < |p| ==> r.fs.IsDir(d + p[..k]))
            && forall e :: e in r.dirs ==> r.fs.IsDir(d + e.path) && Done(root, tar.headers, n, e.path)
  {
    hide Steps, CleanName;
    var hs := tar.headers[..n];
    AcceptablePrefix(tar.headers, n);
    var j := Job(fs, d, root, hs);
    StartsGood(j);
    assert hs[0..] == hs;
    var m := StepsKeep(j, 0, Run(fs, {}, [], false), top, force);
    var r := Steps(Run(fs, {}, [], false), d, top, root, hs, force);
    forall p, k | p in r.safe && 1 <= k < |p| ensures r.fs.IsDir(d + p[..k]) {
      AboveIsDir(r.fs, d, p, k);
    }
    forall e | e in r.dirs ensures Done(root, tar.headers, n, e.path) {
      var k :| 0 <= k < m <= |hs| && Kept(hs[k]) && CleanName(hs[k].name).Some? && Target(root, hs[k]) == e.path;
      assert hs[k] == tar.headers[k];
    }
  }
}
