/** readTarStream: how many bytes one archive spans, and whether it ended in its
    two zero blocks or was cut. What a header block means is a parameter: it may
    depend on everything read so far. */
module TarStream {
  import opened Wrappers
  import opened FileSystem

  const BLOCK: nat := 512

  /** A header announces an entry, or an extension record (PAX `x`, GNU long name)
      that the tar reader consumes on the way to the entry it describes, each with
      the number of data bytes that follow it. */
  datatype Kind = Entry(size: nat) | Extension(size: nat) | Bad

  /** From the bytes up to the end of a header block to what the header says. */
  type Meaning = Bytes -> Kind

  predicate Aligned(n: nat) { n % BLOCK == 0 }

  function Padding(n: nat): (p: nat)
    ensures p < BLOCK && Aligned(n + p)
  {
    (BLOCK - n % BLOCK) % BLOCK
  }

  function Padded(n: nat): (r: nat)
    ensures n <= r < n + BLOCK && Aligned(r)
  {
    n + Padding(n)
  }

  lemma AlignedSum(a: nat, b: nat)
    requires Aligned(a) && Aligned(b)
    ensures Aligned(a + b) && Aligned(a + BLOCK)
  {
  }

  lemma PaddingShift(a: nat, b: nat)
    requires Aligned(a)
    ensures Padding(a + b) == Padding(b)
  {
  }

  predicate ZeroBlock(s: Bytes, at: nat)
    requires at + BLOCK <= |s|
  {
    forall k :: at <= k < at + BLOCK ==> s[k] == 0
  }

  // ---------------------------------------------------------------------
  // The reader
  // ---------------------------------------------------------------------

  /** Accepted only if the bytes consumed past the last entry's padded end cover
      both end blocks. */
  function Finish(consumed: nat, last: nat): Option<nat> {
    if consumed < last + 2 * BLOCK then None else Some(consumed)
  }

  /** Reading on from block boundary `pos`, `last` being the padded end of the
      last entry. The boundary may lie past the end: the tar reader takes a stream
      that stops inside the padding for one that stopped at the boundary. */
  function ReadFrom(mean: Meaning, s: Bytes, pos: nat, last: nat): Option<nat>
    decreases |s| - pos
  {
    if pos >= |s| then Finish(|s|, last)
    else if |s| < pos + BLOCK then None
    else if ZeroBlock(s, pos) then
      if |s| == pos + BLOCK then Finish(|s|, last)
      else if |s| < pos + 2 * BLOCK || !ZeroBlock(s, pos + BLOCK) then None
      else Finish(pos + 2 * BLOCK, last)
    else match mean(s[..pos + BLOCK])
         case Bad => None
         case Entry(size) =>
           if |s| < pos + BLOCK + size then None
           else ReadFrom(mean, s, pos + BLOCK + Padded(size), pos + BLOCK + Padded(size))
         case Extension(size) =>
           if |s| < pos + BLOCK + size then None
           else ReadFrom(mean, s, pos + BLOCK + Padded(size), last)
  }

  datatype Found = EntryAt(dataStart: nat, size: nat) | EndOfFile(consumed: nat) | Failed

  /** The tar reader's Next, given the bytes consumed and the padding still owed:
      it stops at an entry header, at the end, or with an error. */
  function Next(mean: Meaning, s: Bytes, n: nat, pad: nat): Found
    requires n <= |s|
    decreases |s| - n
  {
    var pos := n + pad;
    if pos >= |s| then EndOfFile(|s|)
    else if |s| < pos + BLOCK then Failed
    else if ZeroBlock(s, pos) then
      if |s| == pos + BLOCK then EndOfFile(|s|)
      else if |s| < pos + 2 * BLOCK || !ZeroBlock(s, pos + BLOCK) then Failed
      else EndOfFile(pos + 2 * BLOCK)
    else match mean(s[..pos + BLOCK])
         case Bad => Failed
         case Entry(size) => EntryAt(pos + BLOCK, size)
         case Extension(size) =>
           if |s| < pos + BLOCK + size then Failed
           else Next(mean, s, pos + BLOCK + size, Padding(size))
  }

  /** What one call of the reader's Next says of reading on. */
  ghost predicate Continues(mean: Meaning, s: Bytes, pos: nat, last: nat, found: Found) {
    match found
    case Failed => ReadFrom(mean, s, pos, last) == None
    case EndOfFile(end) => end <= |s| && ReadFrom(mean, s, pos, last) == Finish(end, last)
    case EntryAt(start, size) =>
      pos < start <= |s| && Aligned(start)
      && ReadFrom(mean, s, pos, last) ==
         if |s| < start + size then None
         else ReadFrom(mean, s, start + Padded(size), start + Padded(size))
  }

  /** An extension record that is all there lies at `pos`. */
  predicate AtExtension(mean: Meaning, s: Bytes, pos: nat) {
    pos + BLOCK <= |s| && !ZeroBlock(s, pos)
    && match mean(s[..pos + BLOCK])
       case Extension(size) => pos + BLOCK + size <= |s|
       case _ => false
  }

  lemma OneHeader(mean: Meaning, s: Bytes, n: nat, pad: nat, last: nat)
    requires n <= |s| && Aligned(n + pad) && !AtExtension(mean, s, n + pad)
    ensures Continues(mean, s, n + pad, last, Next(mean, s, n, pad))
  {
    AlignedSum(n + pad, 0) by { assert Aligned(0); }
    hide Aligned, Padding, ZeroBlock, Finish;
  }

  lemma OneExtension(mean: Meaning, s: Bytes, n: nat, pad: nat, last: nat) returns (n': nat, pad': nat)
    requires n <= |s| && Aligned(n + pad) && AtExtension(mean, s, n + pad)
    ensures n + pad < n' <= |s| && Aligned(n' + pad')
    ensures Next(mean, s, n, pad) == Next(mean, s, n', pad')
    ensures ReadFrom(mean, s, n + pad, last) == ReadFrom(mean, s, n' + pad', last)
  {
    var pos := n + pad;
    var size := mean(s[..pos + BLOCK]).size;
    AlignedSum(pos, 0) by { assert Aligned(0); }
    AlignedSum(pos + BLOCK, Padded(size));
    hide Aligned, Padding, ZeroBlock, Finish;
    n', pad' := pos + BLOCK + size, Padding(size);
  }

  lemma ContinuesFrom(mean: Meaning, s: Bytes, pos: nat, pos': nat, last: nat, found: Found)
    requires pos <= pos' && ReadFrom(mean, s, pos, last) == ReadFrom(mean, s, pos', last)
    requires Continues(mean, s, pos', last, found)
    ensures Continues(mean, s, pos, last, found)
  {
    hide ReadFrom, Finish, Aligned, Padded;
  }

  lemma {:induction false} NextReads(mean: Meaning, s: Bytes, n: nat, pad: nat, last: nat)
    requires n <= |s| && Aligned(n + pad)
    ensures Continues(mean, s, n + pad, last, Next(mean, s, n, pad))
    decreases |s| - n
  {
    hide *;
    if AtExtension(mean, s, n + pad) {
      var n', pad' := OneExtension(mean, s, n, pad, last);
      NextReads(mean, s, n', pad', last);
      ContinuesFrom(mean, s, n + pad, n' + pad', last, Next(mean, s, n, pad));
    } else {
      OneHeader(mean, s, n, pad, last);
    }
  }

  method ReadTarStream(mean: Meaning, s: Bytes) returns (r: Option<nat>)
    ensures r == ReadFrom(mean, s, 0, 0)
  {
    hide ReadFrom, Next, Aligned, Padding;
    var n: nat, pad: nat, dataEnd: nat := 0, 0, 0;
    AlignedZero();
    ghost var last: nat := 0;
    while true
      invariant n <= |s| && Aligned(n + pad)
      invariant dataEnd + Padding(dataEnd) == last
      invariant ReadFrom(mean, s, n + pad, last) == ReadFrom(mean, s, 0, 0)
      decreases |s| - n
    {
      var found := Next(mean, s, n, pad);
      NextReads(mean, s, n, pad, last);
      match found {
        case Failed =>
          return None;
        case EndOfFile(end) =>
          n := end;
          break;
        case EntryAt(start, size) =>
          if |s| < start + size {
            return None;
          }
          AlignedSum(start, Padded(size));
          PaddingShift(start, size);
          n := start + size;
          pad := Padding(size);
          dataEnd := n;
          last := n + pad;
      }
    }
    PaddingIs(dataEnd);
    var paddedEnd := dataEnd + (BLOCK - dataEnd % BLOCK) % BLOCK;
    if n - paddedEnd < 2 * BLOCK {
      return None;
    }
    return Some(n);
  }

  /** requireComplete: one archive and, after it, zeros only. */
  method RequireComplete(mean: Meaning, s: Bytes) returns (ok: bool)
    ensures ok <==> ReadFrom(mean, s, 0, 0).Some?
                    && forall k :: ReadFrom(mean, s, 0, 0).value <= k < |s| ==> s[k] == 0
  {
    hide ReadFrom;
    var consumed := ReadTarStream(mean, s);
    if consumed.None? {
      return false;
    }
    var at := consumed.value;
    while at < |s|
      invariant consumed.value <= at
      invariant forall k :: consumed.value <= k < at && k < |s| ==> s[k] == 0
    {
      if s[at] != 0 {
        return false;
      }
      at := at + 1;
    }
    return true;
  }

  lemma AlignedZero()
    ensures Aligned(0) && Padding(0) == 0
  {
  }

  lemma PaddingIs(n: nat)
    ensures Padding(n) == (BLOCK - n % BLOCK) % BLOCK
  {
  }

  // ---------------------------------------------------------------------
  // Complete archives and their prefixes
  // ---------------------------------------------------------------------

  /** One header with its data. */
  datatype Member = Member(start: nat, extension: bool, size: nat) {
    function DataEnd(): nat { start + BLOCK + size }
    function End(): nat { start + BLOCK + Padded(size) }
  }

  /** From boundary `pos` the stream holds exactly the members `ms`, then two zero
      blocks. */
  ghost predicate Complete(mean: Meaning, s: Bytes, pos: nat, ms: seq<Member>)
    decreases |ms|
  {
    if ms == [] then
      pos + 2 * BLOCK <= |s| && ZeroBlock(s, pos) && ZeroBlock(s, pos + BLOCK)
    else
      && ms[0].start == pos && ms[0].End() <= |s| && !ZeroBlock(s, pos)
      && mean(s[..pos + BLOCK]) == (if ms[0].extension then Extension(ms[0].size) else Entry(ms[0].size))
      && Complete(mean, s, ms[0].End(), ms[1..])
  }

  function EndOf(pos: nat, ms: seq<Member>): nat
    decreases |ms|
  {
    if ms == [] then pos + 2 * BLOCK else EndOf(ms[0].End(), ms[1..])
  }

  /** A complete archive is accepted, and the count is exactly its end, whatever
      follows it. */
  lemma {:induction false} CompleteAccepted(mean: Meaning, s: Bytes, pos: nat, last: nat, ms: seq<Member>)
    requires Complete(mean, s, pos, ms) && last <= pos
    ensures ReadFrom(mean, s, pos, last) == Some(EndOf(pos, ms))
    decreases |ms|
  {
    if ms != [] {
      var end := ms[0].End();
      CompleteAccepted(mean, s, end, if ms[0].extension then last else end, ms[1..]);
    }
  }

  /** The boundary after the first `j` members. */
  function Boundary(ms: seq<Member>, pos: nat, j: nat): nat
    requires j <= |ms|
  {
    if j == 0 then pos else ms[j - 1].End()
  }

  /** The padded end of the last entry among `ms`. */
  function LastEnd(ms: seq<Member>, last: nat): nat
    decreases |ms|
  {
    if ms == [] then last else LastEnd(ms[1..], if ms[0].extension then last else ms[0].End())
  }

  /** Cut at `m` bytes, the stream reads as ending after `j` members: it stops in
      or at the end of the padding of the last of them, or one zero block later. */
  predicate StopsAt(ms: seq<Member>, pos: nat, j: nat, m: nat)
    requires j <= |ms|
  {
    || ((j == 0 || ms[j - 1].DataEnd() <= m) && m <= Boundary(ms, pos, j))
    || (j == |ms| && m == Boundary(ms, pos, j) + BLOCK)
  }

  /** A cut that counts as an end: two blocks' worth of extension records, and at
      most one zero block, lie between the last whole entry and the cut. */
  ghost predicate HiddenCut(ms: seq<Member>, pos: nat, last: nat, m: nat) {
    exists j {:trigger StopsAt(ms, pos, j, m)} ::
      0 <= j <= |ms| && StopsAt(ms, pos, j, m) && LastEnd(ms[..j], last) + 2 * BLOCK <= m
  }

  lemma {:induction false} BeyondStart(mean: Meaning, s: Bytes, pos: nat, ms: seq<Member>, j: nat)
    requires Complete(mean, s, pos, ms) && j < |ms|
    ensures pos < ms[j].DataEnd()
    decreases j
  {
    if j > 0 {
      BeyondStart(mean, s, ms[0].End(), ms[1..], j - 1);
    }
  }

  lemma HiddenCutNext(mean: Meaning, s: Bytes, pos: nat, last: nat, ms: seq<Member>, m: nat)
    requires Complete(mean, s, pos, ms) && ms != [] && pos < m
    ensures var last' := if ms[0].extension then last else ms[0].End();
            HiddenCut(ms, pos, last, m) <==> ms[0].DataEnd() <= m && HiddenCut(ms[1..], ms[0].End(), last', m)
  {
    var rest, end := ms[1..], ms[0].End();
    var last' := if ms[0].extension then last else end;
    forall j | 1 <= j <= |ms|
      ensures StopsAt(ms, pos, j, m) ==> ms[0].DataEnd() <= m
      ensures ms[0].DataEnd() <= m ==> (StopsAt(ms, pos, j, m) <==> StopsAt(rest, end, j - 1, m))
      ensures LastEnd(ms[..j], last) == LastEnd(rest[..j - 1], last')
    {
      assert ms[..j][1..] == rest[..j - 1];
      if j > 1 {
        BeyondStart(mean, s, end, rest, j - 2);
      }
    }
    if HiddenCut(ms, pos, last, m) {
      var j :| 0 <= j <= |ms| && StopsAt(ms, pos, j, m) && LastEnd(ms[..j], last) + 2 * BLOCK <= m;
      assert StopsAt(rest, end, j - 1, m);
    }
    if ms[0].DataEnd() <= m && HiddenCut(rest, end, last', m) {
      var j :| 0 <= j <= |rest| && StopsAt(rest, end, j, m) && LastEnd(rest[..j], last') + 2 * BLOCK <= m;
      assert StopsAt(ms, pos, j + 1, m);
    }
  }

  /** What the reader does with a cut behind the start of a member. */
  lemma CutReads(mean: Meaning, s: Bytes, pos: nat, last: nat, ms: seq<Member>, m: nat)
    requires Complete(mean, s, pos, ms) && ms != [] && pos < m <= |s|
    ensures var last' := if ms[0].extension then last else ms[0].End();
            ReadFrom(mean, s[..m], pos, last) ==
            if ms[0].DataEnd() <= m then ReadFrom(mean, s[..m], ms[0].End(), last') else None
  {
    hide Padded, Finish;
    if pos + BLOCK <= m {
      assert ZeroBlock(s[..m], pos) <==> ZeroBlock(s, pos);
      assert s[..m][..pos + BLOCK] == s[..pos + BLOCK];
    }
  }

  lemma {:induction false} PrefixFrom(mean: Meaning, s: Bytes, pos: nat, last: nat, ms: seq<Member>, m: nat)
    requires Complete(mean, s, pos, ms) && m <= |s| && m < EndOf(pos, ms)
    ensures ReadFrom(mean, s[..m], pos, last).Some? <==> HiddenCut(ms, pos, last, m)
    decreases |ms|
  {
    if m <= pos || ms == [] {
      CutHere(mean, s, pos, last, ms, m);
    } else {
      HiddenCutNext(mean, s, pos, last, ms, m);
      CutReads(mean, s, pos, last, ms, m);
      hide HiddenCut, ReadFrom, ZeroBlock, Padded;
      if ms[0].DataEnd() <= m {
        PrefixFrom(mean, s, ms[0].End(), if ms[0].extension then last else ms[0].End(), ms[1..], m);
      }
    }
  }

  /** The reader meets the cut at once. */
  lemma CutHere(mean: Meaning, s: Bytes, pos: nat, last: nat, ms: seq<Member>, m: nat)
    requires Complete(mean, s, pos, ms) && m <= |s| && m < EndOf(pos, ms) && (m <= pos || ms == [])
    ensures ReadFrom(mean, s[..m], pos, last).Some? <==> HiddenCut(ms, pos, last, m)
  {
    assert ms[..0] == [];
    assert StopsAt(ms, pos, 0, m) <==> m <= pos || (ms == [] && m == pos + BLOCK);
    forall j | 1 <= j <= |ms| ensures !StopsAt(ms, pos, j, m) {
      BeyondStart(mean, s, pos, ms, j - 1);
    }
    if pos + BLOCK <= m {
      assert ZeroBlock(s[..m], pos);
    }
  }

  /** Main result: a proper prefix of a complete archive is refused, whatever bytes
      the entries hold, exactly unless it is a hidden cut. */
  lemma PrefixAccepted(mean: Meaning, s: Bytes, ms: seq<Member>, m: nat)
    requires Complete(mean, s, 0, ms) && m <= |s| && m < EndOf(0, ms)
    ensures ReadFrom(mean, s[..m], 0, 0).Some? <==> HiddenCut(ms, 0, 0, m)
  {
    PrefixFrom(mean, s, 0, 0, ms, m);
  }

  /** An archive of plain entries has no hidden cut: every proper prefix of it is
      refused. */
  lemma PlainPrefixRefused(mean: Meaning, s: Bytes, ms: seq<Member>, m: nat)
    requires Complete(mean, s, 0, ms) && m <= |s| && m < EndOf(0, ms)
    requires forall k :: 0 <= k < |ms| ==> !ms[k].extension
    ensures ReadFrom(mean, s[..m], 0, 0) == None
  {
    PrefixAccepted(mean, s, ms, m);
    forall j | 0 <= j <= |ms| ensures LastEnd(ms[..j], 0) == Boundary(ms, 0, j) {
      LastEndPlain(ms[..j], 0);
    }
  }

  lemma {:induction false} LastEndPlain(ms: seq<Member>, last: nat)
    requires forall k :: 0 <= k < |ms| ==> !ms[k].extension
    ensures LastEnd(ms, last) == if ms == [] then last else ms[|ms| - 1].End()
    decreases |ms|
  {
    if ms != [] {
      LastEndPlain(ms[1..], ms[0].End());
    }
  }

  /** The exception is real: of an archive that is one extension record (a block
      of header, a block of data) and the entry it describes, the first two blocks
      alone are accepted as complete. */
  lemma CutAfterExtension(mean: Meaning, s: Bytes, size: nat)
    requires Complete(mean, s, 0, [Member(0, true, BLOCK), Member(2 * BLOCK, false, size)])
    ensures 2 * BLOCK < EndOf(0, [Member(0, true, BLOCK), Member(2 * BLOCK, false, size)])
    ensures ReadFrom(mean, s[..2 * BLOCK], 0, 0) == Some(2 * BLOCK)
  {
    var ms := [Member(0, true, BLOCK), Member(2 * BLOCK, false, size)];
    assert Padded(BLOCK) == BLOCK;
    assert ms[1..][0] == ms[1] && ms[1..][1..] == [];
    assert EndOf(ms[1].End(), ms[1..][1..]) == ms[1].End() + 2 * BLOCK;
    assert EndOf(ms[0].End(), ms[1..]) == ms[1].End() + 2 * BLOCK;
    assert !ZeroBlock(s, 0) && mean(s[..BLOCK]) == Extension(BLOCK);
    var p := s[..2 * BLOCK];
    assert p[..BLOCK] == s[..BLOCK];
    assert ZeroBlock(p, 0) <==> ZeroBlock(s, 0);
  }
}
