/** copyOutWith after the downloads: read every archive, find where they go,
    look for conflicts, and only then extract. */
module CopyOut {
  import opened Wrappers
  import opened FileSystem
  import opened Archive
  import opened Extract

  // ---------------------------------------------------------------------
  // The specification
  // ---------------------------------------------------------------------

  function Read(tar: Tar): Option<seq<ArchiveEntry>> {
    if tar.broken || !Accepts(tar.headers) then None else Some(Listing(tar.headers))
  }

  predicate HasName(entries: seq<ArchiveEntry>, name: Name) {
    exists k :: 0 <= k < |entries| && entries[k].name == name
  }

  /** One entry for each download, all of different names; a download that
      failed is None. */
  function Gather(srcs: seq<Option<Tar>>): Option<seq<ArchiveEntry>> {
    if srcs == [] then Some([])
    else
      var last := srcs[|srcs| - 1];
      match Gather(srcs[..|srcs| - 1])
      case None => None
      case Some(entries) =>
        if last.None? then None
        else match Read(last.value)
             case None => None
             case Some(got) =>
               if |got| != 1 || HasName(entries, got[0].name) then None else Some(entries + [got[0]])
  }

  /** stat(2), which follows links. */
  function Stat(fs: Fs, d: Path, comps: Path): (Fs, Option<Path>) {
    (fs.Tick(), if fs.Faulty() then None
                else match Walk(fs, d, comps, MAX_LINKS)
                     case Some(q) => if q in fs.nodes then Some(q) else None
                     case None => None)
  }

  /** What the roots lie in, and whether entries keep their own names
      there (the destination is a directory) or take the destination's. */
  datatype Place = Place(dir: Path, into: bool)

  const DIR_MODE: Perm := OWNER_ALL + {GroupRead, GroupExec, OtherRead, OtherExec}

  /** os.MkdirAll: the directory and whatever is missing above it. A path that
      turns out to be there after all, when making it fails, will do if it is a
      directory itself. */
  function MkdirAll(fs: Fs, at: Path): (Fs, bool)
    requires at != []
    decreases |at|
  {
    var (fs1, there) := Stat(fs, [], at);
    if there.Some? then (fs1, fs1.IsDir(there.value))
    else
      var up := at[..|at| - 1];
      var (fs2, above) := if up == [] then (fs1, true) else MkdirAll(fs1, up);
      if !above then (fs2, false)
      else
        var (fs3, made) := Mkdir(fs2, [], at, DIR_MODE);
        if made then (fs3, true)
        else
          var (fs4, node) := Lstat(fs3, [], at);
          (fs4, node.Some? && node.value.Dir?)
  }

  /** With a trailing slash or -t the destination is made. */
  function EnsureDir(fs: Fs, at: Path, asDir: bool): (Fs, bool)
    requires at != []
  {
    if asDir then MkdirAll(fs, at) else (fs, true)
  }

  /** Into the destination if it is a directory; else under its name, if there is
      something at its parent's. */
  function Choose(fs: Fs, at: Path): (Fs, Option<Place>)
    requires at != []
  {
    var (fs1, dst) := Stat(fs, [], at);
    if dst.Some? && fs1.IsDir(dst.value) then (fs1, Some(Place(dst.value, true)))
    else
      var (fs2, up) := Stat(fs1, [], at[..|at| - 1]);
      (fs2, if up.None? then None else Some(Place(up.value, false)))
  }

  function Destination(fs: Fs, at: Path, asDir: bool): (Fs, Option<Place>)
    requires at != []
  {
    var (fs', made) := EnsureDir(fs, at, asDir);
    if made then Choose(fs', at) else (fs', None)
  }

  function RootOf(e: ArchiveEntry, base: Name, into: bool): Name { if into then e.name else base }

  /** The paths of one entry that are there already, two directories excepted,
      after the `found` ones. A path the lookup fails on counts as free. */
  function Conflicts(fs: Fs, d: Path, root: Name, paths: seq<ArchivePath>, found: seq<Path>): (Fs, seq<Path>)
    decreases |paths|
  {
    if paths == [] then (fs, found)
    else
      var t := [root] + paths[0].rel;
      var (fs', node) := Lstat(fs, d, t);
      var taken := node.Some? && (!paths[0].isDir || !node.value.Dir?);
      Conflicts(fs', d, root, paths[1..], if taken then found + [t] else found)
  }

  function AllConflicts(fs: Fs, p: Place, base: Name, entries: seq<ArchiveEntry>, found: seq<Path>): (Fs, seq<Path>)
    decreases |entries|
  {
    if entries == [] then (fs, found)
    else
      var (fs', more) := Conflicts(fs, p.dir, RootOf(entries[0], base, p.into), entries[0].paths, found);
      AllConflicts(fs', p, base, entries[1..], more)
  }

  function ExtractAll(fs: Fs, p: Place, base: Name, entries: seq<ArchiveEntry>, tars: seq<Tar>, force: bool): (Fs, bool)
    requires |entries| == |tars|
    decreases |entries|
  {
    if entries == [] then (fs, true)
    else
      var (fs1, ok) := Extraction(fs, p.dir, entries[0].name, RootOf(entries[0], base, p.into), tars[0], force);
      if !ok then (fs1, false) else ExtractAll(fs1, p, base, entries[1..], tars[1..], force)
  }

  function Tars(srcs: seq<Option<Tar>>): seq<Tar>
    requires forall k :: 0 <= k < |srcs| ==> srcs[k].Some?
  {
    seq(|srcs|, k requires 0 <= k < |srcs| => srcs[k].value)
  }

  /** From the conflict pass on. */
  function Finish(fs: Fs, p: Place, base: Name, entries: seq<ArchiveEntry>, tars: seq<Tar>, force: bool): (Fs, bool)
    requires |entries| == |tars|
  {
    var (fs', conflicts) := AllConflicts(fs, p, base, entries, []);
    if conflicts != [] && !force then (fs', false) else ExtractAll(fs', p, base, entries, tars, force)
  }

  function Last(at: Path): Name
    requires at != []
  {
    at[|at| - 1]
  }

  /** The copy to `at`, an absolute path. */
  function CopyOut(fs: Fs, srcs: seq<Option<Tar>>, at: Path, asDir: bool, force: bool): (Fs, bool)
    requires at != []
  {
    if srcs == [] || (|srcs| > 1 && !asDir) || Gather(srcs).None? then (fs, false)
    else
      GatherSome(srcs);
      var (fs', place) := Destination(fs, at, asDir);
      if place.None? then (fs', false)
      else Finish(fs', place.value, Last(at), Gather(srcs).value, Tars(srcs), force)
  }

  /** What Gather let through. */
  lemma {:induction false} GatherSome(srcs: seq<Option<Tar>>)
    requires Gather(srcs).Some?
    ensures |Gather(srcs).value| == |srcs|
    ensures DistinctTops(Gather(srcs).value)
    ensures forall k :: 0 <= k < |srcs| ==>
              srcs[k].Some? && !srcs[k].value.broken && Accepts(srcs[k].value.headers)
              && Listing(srcs[k].value.headers) == [Gather(srcs).value[k]]
  {
    if srcs != [] {
      var n := |srcs| - 1;
      GatherSome(srcs[..n]);
      var before, entries := Gather(srcs[..n]).value, Gather(srcs).value;
      var got := Read(srcs[n].value).value;
      assert got == [got[0]];
      assert forall k :: 0 <= k < n ==> srcs[..n][k] == srcs[k] && entries[k] == before[k];
    }
  }

  /** A download that can be copied: readable to its end, acceptable, and with
      `top` as its only top-level entry. */
  ghost predicate OneEntry(src: Option<Tar>, top: Name) {
    && src.Some? && !src.value.broken && Acceptable(src.value.headers)
    && (exists k :: 0 <= k < |src.value.headers| && Kept(src.value.headers[k]))
    && forall k :: 0 <= k < |src.value.headers| && Kept(src.value.headers[k]) ==> Top(src.value.headers[k]) == Some(top)
  }

  function Top(h: Header): Option<Name> {
    match CleanName(h.name) case Some(p) => Some(p[0]) case None => None
  }

  lemma {:induction false} ListedNonEmpty(hs: seq<Header>)
    ensures forall i :: 0 <= i < |Listing(hs)| ==> Listing(hs)[i].paths != []
  {
    hide CleanName, Kept;
    if hs != [] {
      ListedNonEmpty(hs[..|hs| - 1]);
    }
  }

  ghost predicate HasTop(hs: seq<Header>, top: Name) {
    exists k :: 0 <= k < |hs| && Kept(hs[k]) && Top(hs[k]) == Some(top)
  }

  /** Every entry listed is the top of a kept header, and the other way round. */
  lemma ListedTops(hs: seq<Header>, top: Name)
    ensures DistinctTops(Listing(hs))
    ensures HasName(Listing(hs), top) <==> HasTop(hs, top)
  {
    hide CleanName, Kept, Listing;
    ListingExact(hs);
    ListedNonEmpty(hs);
    var es := Listing(hs);
    if i :| 0 <= i < |es| && es[i].name == top {
      assert Lists(es, top, es[i].paths[0]);
      assert ListedFrom(hs, top, es[i].paths[0]);
    }
    if k :| 0 <= k < |hs| && Kept(hs[k]) && Top(hs[k]) == Some(top) {
      var p := CleanName(hs[k].name).value;
      var path := ArchivePath(p[1..], hs[k].flag.Directory?);
      assert p == [top] + path.rel;
      KeptConsidered(hs[k]);
      assert ListedFrom(hs, top, path);
      assert Lists(es, top, path);
    }
  }

  lemma KeptConsidered(h: Header)
    ensures Kept(h) ==> Considered(h)
  {
  }

  /** One entry, of name `top`. */
  predicate OnlyOne(es: seq<ArchiveEntry>, top: Name) { |es| == 1 && es[0].name == top }

  lemma OnlyOneNames(es: seq<ArchiveEntry>, top: Name)
    requires DistinctTops(es)
    ensures OnlyOne(es, top) <==> HasName(es, top) && forall name :: HasName(es, name) ==> name == top
  {
    assert |es| > 1 ==> es[0].name != es[1].name;
    if HasName(es, top) && forall name :: HasName(es, name) ==> name == top {
      forall i | 0 <= i < |es| ensures es[i].name == top {
        assert HasName(es, es[i].name);
      }
    }
  }

  lemma OneTop(hs: seq<Header>, top: Name)
    requires NamesClean(hs)
    ensures HasTop(hs, top) && (forall name :: HasTop(hs, name) ==> name == top)
            <==> (exists k :: 0 <= k < |hs| && Kept(hs[k]))
                 && forall k :: 0 <= k < |hs| && Kept(hs[k]) ==> Top(hs[k]) == Some(top)
  {
    hide Kept, Top;
    forall k | 0 <= k < |hs| && Kept(hs[k]) ensures Top(hs[k]).Some? && HasTop(hs, Top(hs[k]).value) {
      TopKept(hs, k);
    }
  }

  lemma OneListed(hs: seq<Header>, top: Name)
    requires NamesClean(hs)
    ensures OnlyOne(Listing(hs), top)
            <==> (exists k :: 0 <= k < |hs| && Kept(hs[k]))
                 && forall k :: 0 <= k < |hs| && Kept(hs[k]) ==> Top(hs[k]) == Some(top)
  {
    OneTop(hs, top);
    forall name ensures HasName(Listing(hs), name) <==> HasTop(hs, name) {
      ListedTops(hs, name);
    }
    ListedTops(hs, top);
    hide *;
    OnlyOneNames(Listing(hs), top);
  }

  lemma TopKept(hs: seq<Header>, k: nat)
    requires NamesClean(hs) && k < |hs| && Kept(hs[k])
    ensures Top(hs[k]).Some?
  {
  }

  ghost predicate Admitted(srcs: seq<Option<Tar>>, tops: seq<Name>) {
    && |tops| == |srcs|
    && (forall k :: 0 <= k < |srcs| ==> OneEntry(srcs[k], tops[k]))
    && forall i, j :: 0 <= i < j < |tops| ==> tops[i] != tops[j]
  }

  lemma ReadExact(tar: Tar, top: Name)
    ensures Read(tar).Some? && |Read(tar).value| == 1 && Read(tar).value[0].name == top <==> OneEntry(Some(tar), top)
  {
    hide Kept, Listing, Top, Accepts, CleanName;
    AcceptsExact(tar.headers);
    if NamesClean(tar.headers) {
      OneListed(tar.headers, top);
    }
  }

  lemma {:induction false} GatherAdmits(srcs: seq<Option<Tar>>, tops: seq<Name>)
    requires Admitted(srcs, tops)
    ensures Gather(srcs).Some? && |Gather(srcs).value| == |srcs|
    ensures forall k :: 0 <= k < |srcs| ==> Gather(srcs).value[k].name == tops[k]
  {
    hide OneEntry, Read;
    if srcs != [] {
      var n := |srcs| - 1;
      GatherAdmits(srcs[..n], tops[..n]);
      ReadExact(srcs[n].value, tops[n]) by { assert srcs[n].Some? by { SomeSource(srcs[n], tops[n]); } }
      assert srcs[n].Some? && Some(srcs[n].value) == srcs[n] by { SomeSource(srcs[n], tops[n]); }
      assert !HasName(Gather(srcs[..n]).value, tops[n]);
    }
  }

  lemma SomeSource(src: Option<Tar>, top: Name)
    requires OneEntry(src, top)
    ensures src.Some?
  {
  }

  /** Downloads are let through exactly if each has one entry and all are of
      different names. */
  lemma GatherExact(srcs: seq<Option<Tar>>)
    ensures Gather(srcs).Some? <==> exists tops :: Admitted(srcs, tops)
    ensures Gather(srcs).Some? ==>
              Admitted(srcs, seq(|Gather(srcs).value|, k requires 0 <= k < |Gather(srcs).value| => Gather(srcs).value[k].name))
  {
    hide OneEntry, Gather, Accepts, Listing;
    if Gather(srcs).Some? {
      GatherSome(srcs);
      var es := Gather(srcs).value;
      var tops := seq(|es|, k requires 0 <= k < |es| => es[k].name);
      forall k | 0 <= k < |srcs| ensures OneEntry(srcs[k], tops[k]) {
        ReadExact(srcs[k].value, tops[k]);
        assert Read(srcs[k].value) == Some([es[k]]);
        assert srcs[k] == Some(srcs[k].value);
      }
      assert Admitted(srcs, tops);
    }
    if tops :| Admitted(srcs, tops) {
      GatherAdmits(srcs, tops);
    }
  }

  // ---------------------------------------------------------------------
  // The method
  // ---------------------------------------------------------------------

  /** The download loop: one entry for each source, or a refusal. */
  method ReadAll(srcs: seq<Option<Tar>>) returns (r: Option<seq<ArchiveEntry>>, tars: seq<Tar>)
    ensures r == Gather(srcs)
    ensures r.Some? ==> (forall k :: 0 <= k < |srcs| ==> srcs[k].Some?) && tars == Tars(srcs)
  {
    hide Accepts, Listing;
    tars := [];
    var entries: seq<ArchiveEntry> := [];
    var seen: set<Name> := {};
    var i := 0;
    while i < |srcs|
      invariant 0 <= i <= |srcs|
      invariant forall k :: 0 <= k < i ==> srcs[k].Some?
      invariant Gather(srcs[..i]) == Some(entries)
      invariant tars == Tars(srcs[..i])
      invariant forall n :: n in seen <==> HasName(entries, n)
    {
      assert srcs[..i + 1][..i] == srcs[..i];
      if srcs[i].None? {
        GatherStops(srcs, i + 1);
        return None, [];
      }
      var got := ReadArchive(srcs[i].value);
      AcceptsExact(srcs[i].value.headers);
      if got.None? || |got.value| != 1 || got.value[0].name in seen {
        GatherStops(srcs, i + 1);
        return None, [];
      }
      HasNameAppend(entries, got.value[0]);
      seen := seen + {got.value[0].name};
      tars := tars + [srcs[i].value];
      entries := entries + [got.value[0]];
      i := i + 1;
    }
    assert srcs[..i] == srcs;
    return Some(entries), tars;
  }

  method MakeAll(disk: Disk, at: Path) returns (ok: bool)
    requires at != []
    modifies disk
    ensures (disk.fs, ok) == MkdirAll(old(disk.fs), at)
    decreases |at|
  {
    hide Stat, Mkdir, Lstat;
    var (fs1, there) := Stat(disk.fs, [], at);
    disk.fs := fs1;
    if there.Some? {
      return fs1.IsDir(there.value);
    }
    var up := at[..|at| - 1];
    if up != [] {
      var above := MakeAll(disk, up);
      if !above {
        return false;
      }
    }
    var (fs3, made) := Mkdir(disk.fs, [], at, DIR_MODE);
    disk.fs := fs3;
    if made {
      return true;
    }
    var (fs4, node) := Lstat(fs3, [], at);
    disk.fs := fs4;
    return node.Some? && node.value.Dir?;
  }

  method FindPlace(disk: Disk, at: Path, asDir: bool) returns (place: Option<Place>)
    requires at != []
    modifies disk
    ensures (disk.fs, place) == Destination(old(disk.fs), at, asDir)
  {
    hide Stat, MkdirAll;
    if asDir {
      var made := MakeAll(disk, at);
      if !made {
        return None;
      }
    }
    var (fs1, dst) := Stat(disk.fs, [], at);
    disk.fs := fs1;
    if dst.Some? && fs1.IsDir(dst.value) {
      return Some(Place(dst.value, true));
    }
    var (fs2, up) := Stat(disk.fs, [], at[..|at| - 1]);
    disk.fs := fs2;
    if up.None? {
      return None;
    }
    return Some(Place(up.value, false));
  }

  method CopyOutWith(disk: Disk, srcs: seq<Option<Tar>>, at: Path, asDir: bool, force: bool) returns (ok: bool)
    requires at != []
    modifies disk
    ensures (disk.fs, ok) == CopyOut(old(disk.fs), srcs, at, asDir, force)
  {
    hide Gather, Destination, AllConflicts, Extraction, Accepts, Listing, DistinctTops, Fs.Faulty, Fs.Tick, RootOf;
    if srcs == [] || (|srcs| > 1 && !asDir) {
      return false;
    }
    var got, tars := ReadAll(srcs);
    if got.None? {
      return false;
    }
    GatherSome(srcs);
    var entries := got.value;
    var place := FindPlace(disk, at, asDir);
    if place.None? {
      return false;
    }
    var p, base := place.value, Last(at);
    var conflicts := FindConflicts(disk, p, base, entries);
    if conflicts != [] && !force {
      return false;
    }
    ghost var goal := ExtractAll(disk.fs, p, base, entries, tars, force);
    var i := 0;
    while i < |entries|
      invariant 0 <= i <= |entries| == |tars|
      invariant ExtractAll(disk.fs, p, base, entries[i..], tars[i..], force) == goal
    {
      assert entries[i..][1..] == entries[i + 1..] && tars[i..][1..] == tars[i + 1..];
      var done := ExtractArchive(disk, p.dir, entries[i].name, RootOf(entries[i], base, p.into), tars[i], force);
      if !done {
        return false;
      }
      i := i + 1;
    }
    return true;
  }

  method FindConflicts(disk: Disk, p: Place, base: Name, entries: seq<ArchiveEntry>) returns (conflicts: seq<Path>)
    modifies disk
    ensures (disk.fs, conflicts) == AllConflicts(old(disk.fs), p, base, entries, [])
  {
    hide Lstat;
    conflicts := [];
    ghost var goal := AllConflicts(disk.fs, p, base, entries, []);
    var i := 0;
    while i < |entries|
      invariant 0 <= i <= |entries|
      invariant AllConflicts(disk.fs, p, base, entries[i..], conflicts) == goal
    {
      var root, paths := RootOf(entries[i], base, p.into), entries[i].paths;
      ghost var here := Conflicts(disk.fs, p.dir, root, paths, conflicts);
      assert entries[i..][1..] == entries[i + 1..];
      var k := 0;
      while k < |paths|
        invariant 0 <= k <= |paths|
        invariant Conflicts(disk.fs, p.dir, root, paths[k..], conflicts) == here
      {
        assert paths[k..][1..] == paths[k + 1..];
        var t := [root] + paths[k].rel;
        var (fs, node) := Lstat(disk.fs, p.dir, t);
        disk.fs := fs;
        if node.Some? && (!paths[k].isDir || !node.value.Dir?) {
          conflicts := conflicts + [t];
        }
        k := k + 1;
      }
      i := i + 1;
    }
  }

  lemma {:induction false} GatherStops(srcs: seq<Option<Tar>>, n: nat)
    requires n <= |srcs| && Gather(srcs[..n]).None?
    ensures Gather(srcs).None?
    decreases |srcs| - n
  {
    hide Read, HasName;
    if n < |srcs| {
      assert srcs[..n + 1][|srcs[..n + 1]| - 1] == srcs[n];
      assert srcs[..n + 1][..n] == srcs[..n];
      GatherStops(srcs, n + 1);
    } else {
      assert srcs[..n] == srcs;
    }
  }

  lemma HasNameAppend(entries: seq<ArchiveEntry>, e: ArchiveEntry)
    ensures forall n :: HasName(entries + [e], n) <==> HasName(entries, n) || n == e.name
  {
    forall n ensures HasName(entries + [e], n) <==> HasName(entries, n) || n == e.name {
      assert (entries + [e])[|entries|] == e;
      if HasName(entries, n) {
        var k :| 0 <= k < |entries| && entries[k].name == n;
        assert (entries + [e])[k].name == n;
      }
    }
  }
}
