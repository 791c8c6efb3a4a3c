/** The splitter that cuts a hub's held `status --watch` stream into blocks, and
    why it does not matter how the bytes arrive. */
module Splitter {
  import HubRows

  const BLOCK_MAX: nat := 0x10_0000

  /** The position of the first blank-line terminator, |s| when there is none. */
  function Index(s: string): (i: nat)
    ensures i <= |s|
    ensures i < |s| ==> i + 1 < |s| && s[i] == '\n' && s[i + 1] == '\n'
    ensures forall j :: 0 <= j < i && j + 1 < |s| ==> !(s[j] == '\n' && s[j + 1] == '\n')
  {
    if |s| < 2 then |s| else if s[0] == '\n' && s[1] == '\n' then 0 else Index(s[1..]) + 1
  }

  function TrimLeft(s: string): string {
    if s != [] && s[0] == '\n' then TrimLeft(s[1..]) else s
  }

  /** What a splitter holds between writes, and has handed on so far. */
  datatype State = State(buf: string, spoke: bool, sent: seq<string>, overflow: bool)

  /** The loop of Write, on the buffer. */
  function Drain(s: State): (r: State)
    decreases |s.buf|
  {
    var i := Index(s.buf);
    if i == |s.buf| then
      if |s.buf| > BLOCK_MAX then s.(buf := "", overflow := true)
      else if s.spoke && s.buf == "\n" then s.(buf := "", sent := s.sent + [""])
      else s
    else Drain(State(s.buf[i + 2..], true, s.sent + [s.buf[..i + 1]], s.overflow))
  }

  /** What follows the last terminator. */
  function Unended(s: string): string
    decreases |s|
  {
    var i := Index(s);
    if i == |s| then s else Unended(s[i + 2..])
  }

  function After(s: State, p: string): State {
    var buf := s.buf + p;
    Drain(s.(buf := if s.spoke then buf else TrimLeft(buf)))
  }

  /** blockSplitter. `sent` is what onBlock was called with. */
  class BlockSplitter {
    var buf: string
    var spoke: bool
    var sent: seq<string>
    var overflow: bool

    ghost function Abs(): State reads this { State(buf, spoke, sent, overflow) }

    constructor ()
      ensures Abs() == State("", false, [], false)
    {
      buf, spoke, sent, overflow := "", false, [], false;
    }

    method Write(p: string) returns (ok: bool)
      modifies this
      ensures Abs() == After(old(Abs()), p)
      ensures ok <==> |Unended(if old(spoke) then old(buf) + p else TrimLeft(old(buf) + p))| <= BLOCK_MAX
    {
      buf := buf + p;
      if !spoke {
        TrimBuf();
      }
      ghost var start := Abs();
      hide Index, TrimLeft;
      while true
        invariant Drain(Abs()) == Drain(start) && Unended(buf) == Unended(start.buf)
        decreases |buf|
      {
        var i := IndexOf();
        if i == |buf| {
          if |buf| > BLOCK_MAX {
            buf := "";
            overflow := true;
            return false;
          }
          if spoke && buf == "\n" {
            buf := "";
            sent := sent + [""];
          }
          return true;
        }
        var block := buf[..i + 1];
        buf := buf[i + 2..];
        spoke := true;
        sent := sent + [block];
      }
    }

    /** bytes.TrimLeft of newlines. */
    method TrimBuf()
      modifies this`buf
      ensures buf == TrimLeft(old(buf))
    {
      var n := 0;
      while n < |buf| && buf[n] == '\n'
        invariant n <= |buf| && buf == old(buf) && TrimLeft(buf[n..]) == TrimLeft(buf)
      {
        n := n + 1;
      }
      buf := buf[n..];
    }

    /** bytes.Index of the terminator. */
    method IndexOf() returns (i: nat)
      ensures i == Index(buf)
    {
      i := 0;
      while i + 1 < |buf| && !(buf[i] == '\n' && buf[i + 1] == '\n')
        invariant i <= |buf| && Index(buf) == i + Index(buf[i..])
      {
        assert buf[i..][1..] == buf[i + 1..];
        i := i + 1;
      }
      if i + 1 >= |buf| {
        i := |buf|;
      }
    }
  }

  /** The splitter never holds more than one block may have, and gives the stream up
      exactly when more than that came without a terminator; whatever came before that
      was handed on. */
  lemma {:induction false} DrainBounded(s: State)
    ensures var r := Drain(s);
            && |r.buf| <= BLOCK_MAX && (r.overflow <==> s.overflow || |Unended(s.buf)| > BLOCK_MAX)
            && s.sent <= r.sent && (r.buf != "" ==> r.buf == Unended(s.buf))
    decreases |s.buf|
  {
    var i := Index(s.buf);
    if i < |s.buf| {
      var v := State(s.buf[i + 2..], true, s.sent + [s.buf[..i + 1]], s.overflow);
      hide Index;
      DrainBounded(v);
      assert s.sent <= v.sent;
    }
  }

  // ---------------------------------------------------------------------
  // What a watcher sends
  // ---------------------------------------------------------------------

  /** One listing with rows in it, as it goes out before its blank line. */
  ghost predicate Solid(b: string) {
    && 2 <= |b| < BLOCK_MAX && b[0] != '\n' && b[|b| - 1] == '\n'
    && forall j :: 0 <= j < |b| - 1 ==> !(b[j] == '\n' && b[j + 1] == '\n')
  }

  /** Listings with rows, or none, no two alike in a row. */
  ghost predicate Blocks(bs: seq<string>) {
    && (forall i :: 0 <= i < |bs| ==> bs[i] == "" || Solid(bs[i]))
    && (forall i :: 0 <= i < |bs| - 1 ==> bs[i] != bs[i + 1])
  }

  ghost function Stream(bs: seq<string>): string {
    if bs == [] then "" else bs[0] + "\n" + Stream(bs[1..])
  }

  /** The blocks that are whole within the first `m` bytes of the stream. */
  ghost function Whole(bs: seq<string>, m: nat): (k: nat)
    ensures k <= |bs|
  {
    if bs == [] || m < |bs[0]| + 1 then 0 else 1 + Whole(bs[1..], m - |bs[0]| - 1)
  }

  /** The bytes of the first `m` that follow the last whole block. */
  ghost function Rest(bs: seq<string>, m: nat): string {
    if bs == [] then "" else if m < |bs[0]| + 1 then (bs[0] + "\n")[..m] else Rest(bs[1..], m - |bs[0]| - 1)
  }

  /** A text handed on, without the newline of an empty listing stuck before it. */
  ghost function Bare(b: string): string { if b != "" && b[0] == '\n' then b[1..] else b }

  /** The listings with rows among `bs`, in order. */
  ghost function WithRows(bs: seq<string>): seq<string> {
    if bs == [] then [] else (if Bare(bs[0]) == "" then [] else [Bare(bs[0])]) + WithRows(bs[1..])
  }

  lemma {:induction false} WithRowsAppend(a: seq<string>, b: seq<string>)
    ensures WithRows(a + b) == WithRows(a) + WithRows(b)
  {
    if a == [] {
      assert a + b == b;
    } else {
      assert (a + b)[1..] == a[1..] + b;
      WithRowsAppend(a[1..], b);
    }
  }

  lemma {:induction false} StreamAppend(a: seq<string>, b: seq<string>)
    ensures Stream(a + b) == Stream(a) + Stream(b)
  {
    if a == [] {
      assert a + b == b;
    } else {
      assert (a + b)[1..] == a[1..] + b;
      StreamAppend(a[1..], b);
    }
  }

  /** The first `m` bytes are the whole blocks and the rest. */
  lemma {:induction false} Cut(bs: seq<string>, m: nat)
    requires m <= |Stream(bs)|
    ensures Stream(bs)[..m] == Stream(bs[..Whole(bs, m)]) + Rest(bs, m)
    ensures Whole(bs, m) == |bs| ==> Rest(bs, m) == ""
  {
    if bs != [] && m >= |bs[0]| + 1 {
      var first, k := bs[0] + "\n", Whole(bs, m);
      Cut(bs[1..], m - |first|);
      assert bs[..k][1..] == bs[1..][..k - 1];
      assert Stream(bs)[..m] == first + Stream(bs[1..])[..m - |first|];
    } else if bs != [] {
      assert Stream(bs)[..m] == (bs[0] + "\n")[..m];
    }
  }

  /** Counting from block `j` on. */
  lemma {:induction false} Shift(bs: seq<string>, j: nat, m: nat)
    requires j <= |bs| && |Stream(bs[..j])| <= m
    ensures var n := m - |Stream(bs[..j])|;
            Whole(bs, m) == j + Whole(bs[j..], n) && Rest(bs, m) == Rest(bs[j..], n)
  {
    if j > 0 {
      assert bs[..j][1..] == bs[1..][..j - 1] && bs[1..][j - 1..] == bs[j..];
      Shift(bs[1..], j - 1, m - |bs[0]| - 1);
    }
  }

  /** The terminator is where it is first. */
  lemma IndexIs(s: string, i: nat)
    requires i + 1 < |s| && s[i] == '\n' && s[i + 1] == '\n'
    requires forall j :: 0 <= j < i ==> !(s[j] == '\n' && s[j + 1] == '\n')
    ensures Index(s) == i
  {
  }

  lemma NoIndex(s: string)
    requires forall j :: 0 <= j < |s| - 1 ==> !(s[j] == '\n' && s[j + 1] == '\n')
    ensures Index(s) == |s|
  {
  }

  // ---------------------------------------------------------------------
  // One write
  // ---------------------------------------------------------------------

  ghost predicate Lead(l: string) { l == "" || l == "\n" }

  /** What may be in the buffer after `m` bytes: the part of a block that is not
      whole yet, behind the newline of an empty listing just before it, when that
      came in one piece with what follows. `lead` is such a newline from before. */
  ghost predicate Holds(bs: seq<string>, m: nat, lead: string, buf: string) {
    var k, rest := Whole(bs, m), Rest(bs, m);
    buf == rest || (rest != "" && buf == "\n" + rest && if k > 0 then bs[k - 1] == "" else lead == "\n")
  }

  /** What a run of the loop did with blocks it found whole. */
  ghost predicate Drained(bs: seq<string>, m: nat, lead: string, s: State, r: State) {
    var k := Whole(bs, m);
    && Holds(bs, m, lead, r.buf) && !r.overflow && r.spoke == (s.spoke || k > 0)
    && WithRows(r.sent) == WithRows(s.sent) + WithRows(bs[..k])
    && (m == 0 ==> r.sent == s.sent)
    && (k > 0 && Rest(bs, m) == "" ==> r.sent != [] && Bare(r.sent[|r.sent| - 1]) == bs[k - 1])
  }

  ghost predicate Ready(bs: seq<string>, m: nat, lead: string, s: State) {
    && Blocks(bs) && m <= |Stream(bs)| && Lead(lead) && !s.overflow
    && (lead == "\n" ==> m > 0 && bs != [] && bs[0] != "")
    && (s.spoke || bs == [] || bs[0] != "")
    && s.buf == lead + Stream(bs)[..m]
  }

  lemma NoTerminator(lead: string, b: string, m: nat)
    requires Lead(lead) && Solid(b) && m <= |b| && (lead == "\n" ==> m > 0)
    ensures var buf := lead + b[..m]; Index(buf) == |buf| && |buf| <= BLOCK_MAX && buf != "\n"
  {
    hide Index;
    var buf := lead + b[..m];
    forall j | 0 <= j < |buf| - 1 ensures !(buf[j] == '\n' && buf[j + 1] == '\n') {
      var i := j - |lead|;
      assert i >= 0 ==> buf[j] == b[i] && buf[j + 1] == b[i + 1];
    }
    NoIndex(buf);
    assert m > 0 ==> buf[|lead|] == b[0];
  }

  /** No whole block in the buffer. */
  lemma DrainPart(bs: seq<string>, m: nat, lead: string, s: State)
    requires Ready(bs, m, lead, s) && Whole(bs, m) == 0
    ensures Drain(s) == s && Drained(bs, m, lead, s, s)
  {
    hide Index;
    assert bs[..0] == [];
    if bs != [] && bs[0] != "" {
      assert Stream(bs)[..m] == bs[0][..m] == Rest(bs, m);
      NoTerminator(lead, bs[0], m);
      hide Solid, Blocks, Whole, Rest, Stream;
    } else {
      assert m == 0 && s.buf == "";
      NoIndex("");
    }
  }

  lemma BlocksFrom(bs: seq<string>, k: nat)
    requires Blocks(bs) && k <= |bs|
    ensures Blocks(bs[k..])
  {
    assert forall i :: 0 <= i < |bs[k..]| ==> bs[k..][i] == bs[k + i];
  }

  lemma FirstTerminator(lead: string, b: string, tail: string)
    requires Lead(lead) && Solid(b)
    ensures Index(lead + (b + "\n" + tail)) == |lead| + |b| - 1
  {
    hide Index;
    var buf, i := lead + (b + "\n" + tail), |lead| + |b| - 1;
    assert buf[i] == b[|b| - 1] && buf[i + 1] == '\n';
    forall j | 0 <= j < i ensures !(buf[j] == '\n' && buf[j + 1] == '\n') {
      var h := j - |lead|;
      assert h >= 0 ==> buf[j] == b[h] && buf[j + 1] == b[h + 1];
    }
    IndexIs(buf, i);
  }

  lemma DrainBlock(s: State, lead: string, b: string, tail: string)
    requires Lead(lead) && Solid(b) && s.buf == lead + (b + "\n" + tail)
    ensures Drain(s) == Drain(State(tail, true, s.sent + [lead + b], s.overflow))
  {
    FirstTerminator(lead, b, tail);
    hide Index;
    var i := |lead| + |b| - 1;
    assert s.buf[i + 2..] == tail && s.buf[..i + 1] == lead + b;
  }

  lemma StreamFirst(bs: seq<string>, m: nat)
    requires bs != [] && |bs[0]| + 1 <= m <= |Stream(bs)|
    ensures m - |bs[0]| - 1 <= |Stream(bs[1..])|
    ensures Stream(bs)[..m] == bs[0] + "\n" + Stream(bs[1..])[..m - |bs[0]| - 1]
  {
    var first := bs[0] + "\n";
    assert Stream(bs) == first + Stream(bs[1..]);
    hide Stream;
  }

  /** A block with rows at its front. */
  lemma DrainFirst(bs: seq<string>, m: nat, lead: string, s: State)
    requires Ready(bs, m, lead, s) && Whole(bs, m) > 0 && bs[0] != ""
    ensures 0 <= m - |bs[0]| - 1 <= |Stream(bs[1..])|
    ensures var v := State(Stream(bs[1..])[..m - |bs[0]| - 1], true, s.sent + [lead + bs[0]], s.overflow);
            Drain(s) == Drain(v) && Ready(bs[1..], m - |bs[0]| - 1, "", v)
  {
    StreamFirst(bs, m);
    BlocksFrom(bs, 1);
    hide Index, WithRows, Rest, Stream, Whole, Solid;
    var tail := Stream(bs[1..])[..m - |bs[0]| - 1];
    DrainBlock(s, lead, bs[0], tail);
    assert "" + tail == tail;
    hide Drain, Blocks;
  }

  /** The loop, on a buffer that holds any number of blocks. */
  lemma {:induction false} DrainStream(bs: seq<string>, m: nat, lead: string, s: State)
    requires Ready(bs, m, lead, s)
    ensures Drained(bs, m, lead, s, Drain(s))
  {
    var k := Whole(bs, m);
    if k == 0 {
      DrainPart(bs, m, lead, s);
    } else if bs[0] != "" {
      DrainFirst(bs, m, lead, s);
      var v := State(Stream(bs[1..])[..m - |bs[0]| - 1], true, s.sent + [lead + bs[0]], s.overflow);
      DrainStream(bs[1..], m - |bs[0]| - 1, "", v);
      hide Drain, Stream, Drained;
      DrainedFirst(bs, m, lead, s, v, Drain(v));
    } else if m == 1 {
      DrainLoneNewline(bs, s);
    } else {
      EmptyFirst(bs, m, s);
      DrainStream(bs[1..], m - 1, "\n", s);
      hide Drain, Stream, Drained;
      DrainedEmpty(bs, m, s, Drain(s));
    }
  }

  /** An empty listing that is all there is. */
  lemma DrainLoneNewline(bs: seq<string>, s: State)
    requires Ready(bs, 1, "", s) && bs != [] && bs[0] == ""
    ensures Drained(bs, 1, "", s, Drain(s))
  {
    hide Index;
    assert Stream(bs)[..1] == "\n";
    assert s.buf == "\n";
    NoIndex("\n");
    assert Whole(bs, 1) == 1 && Rest(bs, 1) == "" && bs[..1] == [""];
    WithRowsAppend(s.sent, [""]);
  }

  /** An empty listing with more behind it: its newline leads what follows. */
  lemma EmptyFirst(bs: seq<string>, m: nat, s: State)
    requires Ready(bs, m, "", s) && bs != [] && bs[0] == "" && m > 1
    ensures Ready(bs[1..], m - 1, "\n", s)
  {
    hide Solid;
    assert Stream(bs)[..m] == "\n" + Stream(bs[1..])[..m - 1];
    assert bs[0] != bs[1];
    BlocksFrom(bs, 1);
  }

  lemma DrainedEmpty(bs: seq<string>, m: nat, s: State, r: State)
    requires bs != [] && bs[0] == "" && m > 1 && m <= |Stream(bs)| && s.spoke && Drained(bs[1..], m - 1, "\n", s, r)
    ensures Drained(bs, m, "", s, r)
  {
    var k := Whole(bs, m);
    assert k == 1 + Whole(bs[1..], m - 1) && Rest(bs, m) == Rest(bs[1..], m - 1);
    assert bs[..k][1..] == bs[1..][..k - 1] && bs[..k][0] == "";
    assert WithRows(bs[..k]) == WithRows(bs[1..][..k - 1]);
    assert k == 1 ==> Rest(bs[1..], m - 1) != "";
    hide WithRows, Whole, Rest;
  }

  lemma FirstWithRows(bs: seq<string>, k: nat, lead: string, sent: seq<string>)
    requires Lead(lead) && 0 < k <= |bs| && Solid(bs[0])
    ensures Bare(lead + bs[0]) == bs[0]
    ensures WithRows(sent + [lead + bs[0]]) + WithRows(bs[1..][..k - 1]) == WithRows(sent) + WithRows(bs[..k])
  {
    assert bs[..k][1..] == bs[1..][..k - 1] && bs[..k][0] == bs[0];
    assert Bare(lead + bs[0]) == bs[0] && Bare(bs[0]) == bs[0];
    WithRowsAppend(sent, [lead + bs[0]]);
    assert WithRows([lead + bs[0]]) == [bs[0]];
    assert WithRows(bs[..k]) == [bs[0]] + WithRows(bs[1..][..k - 1]);
  }

  lemma DrainedFirst(bs: seq<string>, m: nat, lead: string, s: State, v: State, r: State)
    requires Lead(lead) && bs != [] && Solid(bs[0]) && Whole(bs, m) > 0 && m <= |Stream(bs)|
    requires v.spoke && v.sent == s.sent + [lead + bs[0]] && Drained(bs[1..], m - |bs[0]| - 1, "", v, r)
    ensures Drained(bs, m, lead, s, r)
  {
    var k, n := Whole(bs, m), m - |bs[0]| - 1;
    FirstWithRows(bs, k, lead, s.sent);
    if k == 1 {
      RestLength(bs[1..], n);
    }
    FirstWhole(bs, m);
    hide WithRows, Solid, Bare, Whole, Rest, Stream;
    HoldsNext(bs, m, n, lead, r.buf);
    assert k > 1 ==> bs[1..][k - 2] == bs[k - 1];
    hide Holds;
  }

  lemma FirstWhole(bs: seq<string>, m: nat)
    requires Whole(bs, m) > 0
    ensures |bs[0]| + 1 <= m && Whole(bs, m) == 1 + Whole(bs[1..], m - |bs[0]| - 1) && Rest(bs, m) == Rest(bs[1..], m - |bs[0]| - 1)
  {
  }

  lemma HoldsNext(bs: seq<string>, m: nat, n: nat, lead: string, buf: string)
    requires bs != [] && Whole(bs, m) == 1 + Whole(bs[1..], n) && Rest(bs, m) == Rest(bs[1..], n) && Holds(bs[1..], n, "", buf)
    ensures Holds(bs, m, lead, buf)
  {
    var k := Whole(bs, m);
    assert k > 1 ==> bs[1..][k - 2] == bs[k - 1];
    hide Whole, Rest;
  }

  // ---------------------------------------------------------------------
  // Any writes
  // ---------------------------------------------------------------------

  ghost function Concat(chunks: seq<string>): string {
    var n := |chunks|;
    if n == 0 then "" else Concat(chunks[..n - 1]) + chunks[n - 1]
  }

  ghost function Feed(chunks: seq<string>): State {
    var n := |chunks|;
    if n == 0 then State("", false, [], false) else After(Feed(chunks[..n - 1]), chunks[n - 1])
  }

  /** Where a splitter is after `m` bytes of the stream. */
  ghost predicate InStep(bs: seq<string>, m: nat, s: State) {
    var k := Whole(bs, m);
    && Holds(bs, m, "", s.buf) && !s.overflow && s.spoke == (k > 0)
    && WithRows(s.sent) == WithRows(bs[..k])
    && (k > 0 && Rest(bs, m) == "" ==> s.sent != [] && Bare(s.sent[|s.sent| - 1]) == bs[k - 1])
  }

  /** `p` comes after what is there of the second part. */
  lemma Splice(all: string, first: string, second: string, part: string, p: string)
    requires all == first + second && |first| + |part| + |p| <= |all| && all[..|first| + |part|] == first + part
    requires all[|first| + |part|..|first| + |part| + |p|] == p
    ensures |part| + |p| <= |second| && part + p == second[..|part| + |p|]
  {
    assert second == all[|first|..];
    assert part == all[|first|..|first| + |part|];
  }

  /** What follows the whole blocks, once `p` has come. */
  lemma Remaining(bs: seq<string>, m: nat, p: string, k: nat, off: nat)
    requires m + |p| <= |Stream(bs)| && Stream(bs)[m..m + |p|] == p
    requires k == Whole(bs, m) && off == |Stream(bs[..k])|
    ensures off <= m && m + |p| - off <= |Stream(bs[k..])|
    ensures Rest(bs, m) + p == Stream(bs[k..])[..m + |p| - off]
    ensures k == |bs| ==> Rest(bs, m) == ""
  {
    Cut(bs, m);
    assert bs == bs[..k] + bs[k..];
    StreamAppend(bs[..k], bs[k..]);
    hide Whole, Rest, Stream;
    Splice(Stream(bs), Stream(bs[..k]), Stream(bs[k..]), Rest(bs, m), p);
  }

  /** The blocks that are not whole yet, and the buffer as what came of them. */
  lemma StepReady(bs: seq<string>, m: nat, s: State, p: string, k: nat, off: nat) returns (lead: string)
    requires Blocks(bs) && (bs == [] || bs[0] != "") && InStep(bs, m, s)
    requires m + |p| <= |Stream(bs)| && Stream(bs)[m..m + |p|] == p
    requires k == Whole(bs, m) && off == |Stream(bs[..k])|
    ensures off <= m && Ready(bs[k..], m + |p| - off, lead, s.(buf := s.buf + p))
    ensures lead == "\n" ==> k > 0 && bs[k - 1] == ""
  {
    Remaining(bs, m, p, k, off);
    BlocksFrom(bs, k);
    assert k == 0 ==> bs[k..] == bs;
    assert k < |bs| ==> bs[k..][0] == bs[k];
    assert 0 < k < |bs| ==> bs[k - 1] != bs[k];
    var rest := Rest(bs, m);
    hide Solid, WithRows, Bare, Whole, Rest, Stream, Blocks;
    lead := if s.buf == rest then "" else "\n";
    assert s.buf == lead + rest;
    assert s.buf + p == lead + (rest + p);
  }

  lemma StepOn(bs: seq<string>, m: nat, s: State, p: string)
    requires Blocks(bs) && (bs == [] || bs[0] != "") && InStep(bs, m, s)
    requires m + |p| <= |Stream(bs)| && Stream(bs)[m..m + |p|] == p
    ensures InStep(bs, m + |p|, Drain(s.(buf := s.buf + p)))
  {
    hide Drain, Solid, WithRows, Bare, Whole, Rest, InStep, Drained;
    var k := Whole(bs, m);
    var off, n := |Stream(bs[..k])|, m + |p|;
    var lead := StepReady(bs, m, s, p, k, off);
    var v := s.(buf := s.buf + p);
    DrainStream(bs[k..], n - off, lead, v);
    Shift(bs, k, n);
    Shift(bs, k, m);
    StepDone(bs, m, n, lead, s, v, Drain(v), k, Whole(bs[k..], n - off), off);
  }

  lemma TakeMore(bs: seq<string>, k: nat, j: nat)
    requires k + j <= |bs|
    ensures bs[..k + j] == bs[..k] + bs[k..][..j]
  {
  }

  lemma StepDone(bs: seq<string>, m: nat, n: nat, lead: string, s: State, v: State, r: State, k: nat, j: nat, off: nat)
    requires k == Whole(bs, m) && off <= m <= n && Drained(bs[k..], n - off, lead, v, r) && n - off <= |Stream(bs[k..])|
    requires j == Whole(bs[k..], n - off) && Whole(bs, n) == k + j
    requires Rest(bs, n) == Rest(bs[k..], n - off) && Rest(bs, m) == Rest(bs[k..], m - off)
    requires lead == "" || (lead == "\n" && k > 0 && bs[k - 1] == "")
    requires InStep(bs, m, s) && v == s.(buf := v.buf)
    ensures InStep(bs, n, r)
  {
    TakeMore(bs, k, j);
    WithRowsAppend(bs[..k], bs[k..][..j]);
    if j == 0 {
      assert bs[k..][..0] == [];
      RestLength(bs[k..], n - off);
    }
    hide WithRows, Bare, Stream, Whole, Rest;
    assert Holds(bs, n, "", r.buf) by {
      assert j > 0 ==> bs[k..][j - 1] == bs[k + j - 1];
    }
    hide Holds;
  }

  lemma RestLength(bs: seq<string>, m: nat)
    requires Whole(bs, m) == 0 && m <= |Stream(bs)|
    ensures |Rest(bs, m)| == m
  {
  }

  ghost function Newlines(n: nat): string { seq(n, _ => '\n') }

  lemma {:induction false} TrimNewlines(n: nat, s: string)
    requires s == "" || s[0] != '\n'
    ensures TrimLeft(Newlines(n) + s) == s
  {
    var all := Newlines(n) + s;
    if n == 0 {
      assert all == s;
    } else {
      assert all[0] == '\n' && all[1..] == Newlines(n - 1) + s;
      TrimNewlines(n - 1, s);
    }
  }

  /** `p` is what came from byte `t` to byte `n`, counting the banner. */
  ghost predicate Piece(a: nat, bs: seq<string>, t: nat, n: nat, p: string) {
    t <= n <= a + |Stream(bs)| && p == (Newlines(a) + Stream(bs))[t..n]
  }

  /** What a splitter that has not spoken keeps of a write: the newlines of a login
      shell's banner go, the stream stays. */
  lemma TrimBanner(a: nat, bs: seq<string>, t: nat, n: nat, buf: string, p: string)
    requires Blocks(bs) && (bs == [] || bs[0] != "") && Piece(a, bs, t, n, p)
    requires buf == if t <= a then "" else Stream(bs)[..t - a]
    ensures TrimLeft(buf + p) == if n <= a then "" else Stream(bs)[..n - a]
  {
    var stream := Stream(bs);
    var rest := if n <= a then "" else stream[..n - a];
    assert rest != "" ==> rest[0] == bs[0][0];
    hide Stream, TrimLeft, Blocks;
    var some := if t < a then (if n < a then n else a) - t else 0;
    BannerPiece(a, stream, t, n, some);
    assert buf + p == Newlines(some) + rest;
    TrimNewlines(some, rest);
  }

  lemma BannerPiece(a: nat, stream: string, t: nat, n: nat, some: nat)
    requires t <= n <= a + |stream| && some == if t < a then (if n < a then n else a) - t else 0
    ensures (if t <= a then "" else stream[..t - a]) + (Newlines(a) + stream)[t..n]
            == Newlines(some) + if n <= a then "" else stream[..n - a]
  {
    if t > a {
      PastBanner(a, stream, t, n);
      assert stream[..t - a] + stream[t - a..n - a] == stream[..n - a];
      assert Newlines(0) == "";
    } else if n > a {
      assert (Newlines(a) + stream)[t..n] == Newlines(a - t) + stream[..n - a];
    } else {
      assert (Newlines(a) + stream)[t..n] == Newlines(n - t);
    }
  }

  /** The bytes of the stream among the first `t`, after a banner of `a` newlines. */
  ghost function Past(a: nat, t: nat): nat { if t <= a then 0 else t - a }

  /** `chunks` are the banner and the stream so far, cut anyhow. */
  ghost predicate Fed(a: nat, bs: seq<string>, chunks: seq<string>) {
    && Blocks(bs) && (bs == [] || bs[0] != "") && |Concat(chunks)| <= a + |Stream(bs)|
    && Concat(chunks) == (Newlines(a) + Stream(bs))[..|Concat(chunks)|]
  }

  lemma FedBefore(a: nat, bs: seq<string>, chunks: seq<string>)
    requires Fed(a, bs, chunks) && chunks != []
    ensures Blocks(bs) && (bs == [] || bs[0] != "") && |Concat(chunks)| <= a + |Stream(bs)|
    ensures var before, p := chunks[..|chunks| - 1], chunks[|chunks| - 1];
            var t, n := |Concat(before)|, |Concat(chunks)|;
            Fed(a, bs, before) && Piece(a, bs, t, n, p)
  {
    var before, p := chunks[..|chunks| - 1], chunks[|chunks| - 1];
    assert Concat(chunks) == Concat(before) + p;
    hide Concat, Stream, Blocks;
    var all := Newlines(a) + Stream(bs);
    assert Concat(before) == Concat(chunks)[..|Concat(before)|];
    assert p == Concat(chunks)[|Concat(before)|..];
  }

  /** One more write, the banner trimmed while nothing was handed on yet: what it
      adds to the buffer is `q`, which comes next in the stream. */
  lemma AfterIsDrain(a: nat, bs: seq<string>, t: nat, n: nat, s: State, p: string) returns (q: string)
    requires Blocks(bs) && (bs == [] || bs[0] != "") && Piece(a, bs, t, n, p) && InStep(bs, Past(a, t), s)
    ensures After(s, p) == Drain(s.(buf := s.buf + q)) && Past(a, t) + |q| == Past(a, n)
    ensures Past(a, n) <= |Stream(bs)| && Stream(bs)[Past(a, t)..Past(a, n)] == q
  {
    var m := Past(a, t);
    q := Stream(bs)[m..Past(a, n)];
    if s.spoke {
      assert t > a;
      PastBanner(a, Stream(bs), t, n);
    } else {
      SilentBuffer(bs, m, s);
      hide InStep, Stream, TrimLeft, Drain;
      TrimBanner(a, bs, t, n, s.buf, p);
      assert s.buf + q == TrimLeft(s.buf + p);
    }
  }

  lemma PastBanner(a: nat, stream: string, t: nat, n: nat)
    requires a <= t <= n <= a + |stream|
    ensures (Newlines(a) + stream)[t..n] == stream[t - a..n - a]
  {
  }

  lemma SilentBuffer(bs: seq<string>, m: nat, s: State)
    requires m <= |Stream(bs)| && InStep(bs, m, s) && !s.spoke
    ensures s.buf == Stream(bs)[..m]
  {
    Cut(bs, m);
    assert bs[..0] == [];
  }

  lemma OneWrite(a: nat, bs: seq<string>, t: nat, n: nat, s: State, p: string)
    requires Blocks(bs) && (bs == [] || bs[0] != "") && Piece(a, bs, t, n, p) && InStep(bs, Past(a, t), s)
    ensures InStep(bs, Past(a, n), After(s, p))
  {
    hide Drain, InStep, After, Blocks, Stream, Newlines, Piece, Past;
    var q := AfterIsDrain(a, bs, t, n, s, p);
    StepOn(bs, Past(a, t), s, q);
  }

  lemma StartInStep(bs: seq<string>)
    ensures InStep(bs, 0, State("", false, [], false))
  {
    assert bs[..0] == [];
  }

  lemma {:induction false} FeedInStep(a: nat, bs: seq<string>, chunks: seq<string>)
    requires Fed(a, bs, chunks)
    ensures InStep(bs, Past(a, |Concat(chunks)|), Feed(chunks))
  {
    if chunks == [] {
      StartInStep(bs);
    } else {
      FedBefore(a, bs, chunks);
      hide Drain, InStep, After, Concat, Blocks, Stream, Newlines, Piece;
      var before, p := chunks[..|chunks| - 1], chunks[|chunks| - 1];
      FeedInStep(a, bs, before);
      hide Fed;
      OneWrite(a, bs, |Concat(before)|, |Concat(chunks)|, Feed(before), p);
    }
  }

  /** However a watcher's stream is cut into writes, and whatever newlines came
      before it: nothing overflows, the listings with rows are handed on in order,
      each once, as soon as they are whole, and whenever the bytes so far end with
      a listing, the rows last handed on are that listing's. */
  lemma ChunksDoNotMatter(a: nat, bs: seq<string>, chunks: seq<string>)
    requires Fed(a, bs, chunks)
    ensures var s, m := Feed(chunks), Past(a, |Concat(chunks)|);
            var k := Whole(bs, m);
            && !s.overflow
            && WithRows(s.sent) == WithRows(bs[..k])
            && (k > 0 && Rest(bs, m) == "" ==>
                  s.sent != [] && HubRows.Rows(s.sent[|s.sent| - 1]) == HubRows.Rows(bs[k - 1]))
  {
    FeedInStep(a, bs, chunks);
    var s, k := Feed(chunks), Whole(bs, Past(a, |Concat(chunks)|));
    hide Feed, Fed, Concat, Whole, Rest, WithRows;
    if s.sent != [] {
      var last := s.sent[|s.sent| - 1];
      HubRows.LeadingNewline(Bare(last));
      assert last == Bare(last) || last == "\n" + Bare(last);
      hide HubRows.Rows;
    }
  }

  // ---------------------------------------------------------------------
  // No empty listing
  // ---------------------------------------------------------------------

  lemma {:induction false} DrainExact(bs: seq<string>, m: nat, s: State)
    requires Ready(bs, m, "", s) && "" !in bs
    ensures Drain(s).sent == s.sent + bs[..Whole(bs, m)]
  {
    var k := Whole(bs, m);
    if k == 0 {
      DrainPart(bs, m, "", s);
      hide Drain, Ready, Stream;
      assert bs[..0] == [];
    } else {
      assert bs[0] in bs;
      DrainFirst(bs, m, "", s);
      FirstWhole(bs, m);
      hide Drain, Stream, Ready, Whole;
      var v := State(Stream(bs[1..])[..m - |bs[0]| - 1], true, s.sent + ["" + bs[0]], s.overflow);
      DrainExact(bs[1..], m - |bs[0]| - 1, v);
      TakeFirst(s.sent, bs, k);
    }
  }

  lemma TakeFirst(sent: seq<string>, bs: seq<string>, k: nat)
    requires 0 < k <= |bs|
    ensures sent + ["" + bs[0]] + bs[1..][..k - 1] == sent + bs[..k]
  {
    assert "" + bs[0] == bs[0];
  }

  /** A stream with no empty listing is handed on block by block, byte for byte. */
  lemma {:induction false} RowsHandedOnExactly(a: nat, bs: seq<string>, chunks: seq<string>)
    requires Fed(a, bs, chunks) && "" !in bs
    ensures Feed(chunks).sent == bs[..Whole(bs, Past(a, |Concat(chunks)|))]
  {
    if chunks == [] {
      assert bs[..0] == [];
    } else {
      FedBefore(a, bs, chunks);
      hide Drain, InStep, After, Concat, Blocks, Stream, Newlines, Piece, Whole;
      var before, p := chunks[..|chunks| - 1], chunks[|chunks| - 1];
      FeedInStep(a, bs, before);
      RowsHandedOnExactly(a, bs, before);
      hide Fed;
      OneWriteExact(a, bs, |Concat(before)|, |Concat(chunks)|, Feed(before), p);
    }
  }

  lemma OneWriteExact(a: nat, bs: seq<string>, t: nat, n: nat, s: State, p: string)
    requires Blocks(bs) && (bs == [] || bs[0] != "") && Piece(a, bs, t, n, p) && InStep(bs, Past(a, t), s)
    requires "" !in bs && s.sent == bs[..Whole(bs, Past(a, t))]
    ensures After(s, p).sent == bs[..Whole(bs, Past(a, n))]
  {
    hide Drain, InStep, After, Blocks, Stream, Newlines, Piece, Past, Whole;
    var q := AfterIsDrain(a, bs, t, n, s, p);
    StepExact(bs, Past(a, t), s, q);
  }

  lemma StepExact(bs: seq<string>, m: nat, s: State, p: string)
    requires Blocks(bs) && (bs == [] || bs[0] != "") && InStep(bs, m, s) && "" !in bs && s.sent == bs[..Whole(bs, m)]
    requires m + |p| <= |Stream(bs)| && Stream(bs)[m..m + |p|] == p
    ensures Drain(s.(buf := s.buf + p)).sent == bs[..Whole(bs, m + |p|)]
  {
    hide Drain, Solid, WithRows, Bare, Whole, Rest, InStep, Stream;
    var k, n := Whole(bs, m), m + |p|;
    var off := |Stream(bs[..k])|;
    var lead := StepReady(bs, m, s, p, k, off);
    assert lead == "" by { assert k > 0 ==> bs[k - 1] in bs; }
    assert forall b :: b in bs[k..] ==> b in bs;
    DrainExact(bs[k..], n - off, s.(buf := s.buf + p));
    Shift(bs, k, n);
    TakeMore(bs, k, Whole(bs[k..], n - off));
  }
}
