/** The two edits devvm makes to devvm.toml: a table appended at the end, and a
    table's lines cut out. */
module ConfigEdit {
  import opened Wrappers
  import opened Text
  import Toml
  import Version

  /** strings.SplitAfter at newlines, without the empty last piece. */
  function LinesOf(s: string): seq<string>
    decreases |s|
  {
    if s == "" then []
    else
      var i := Toml.IndexOf(s, '\n');
      if i == |s| then [s] else [s[..i + 1]] + LinesOf(s[i + 1..])
  }

  function Concat(lines: seq<string>): string { if lines == [] then "" else lines[0] + Concat(lines[1..]) }

  predicate IsBlank(line: string) { TrimSpace(line) == "" }

  predicate IsComment(line: string) { var t := TrimSpace(line); t != "" && t[0] == '#' }

  predicate IsHeader(line: string) { Toml.TableHeader(line).Some? }

  predicate Names(line: string, name: string) { Toml.TableHeader(line) == Some([Toml.MACHINES, name]) }

  // ---------------------------------------------------------------------
  // The cut
  // ---------------------------------------------------------------------

  /** What a line is to the cut of one table. */
  datatype Kind = Named | OtherHeader | Blank | Comment | Own

  function KindOf(line: string, name: string): Kind {
    if Names(line, name) then Named
    else if IsHeader(line) then OtherHeader
    else if IsBlank(line) then Blank
    else if IsComment(line) then Comment
    else Own
  }

  lemma KindExact(line: string, name: string)
    ensures var k := KindOf(line, name);
            && (IsHeader(line) <==> k.Named? || k.OtherHeader?) && (Names(line, name) <==> k.Named?)
            && (IsBlank(line) <==> k.Blank?) && (IsComment(line) <==> k.Comment?)
  {
    hide TrimSpace, Toml.SplitKey, Toml.Close, Toml.DoubleClose;
  }

  function Kinds(lines: seq<string>, name: string): seq<Kind> {
    seq(|lines|, i requires 0 <= i < |lines| => KindOf(lines[i], name))
  }

  /** What cutTable takes out: the lines from `from` up to `cut`, for the table whose
      header is line `start` and whose own lines end before `content`, `end` being
      the next header. */
  datatype Cut = Cut(start: nat, end: nat, content: nat, from: nat, cut: nat)

  predicate Header(k: Kind) { k.Named? || k.OtherHeader? }

  predicate Filler(k: Kind) { k.Blank? || k.Comment? }

  function FirstNamed(ks: seq<Kind>, i: nat): (r: nat)
    requires i <= |ks|
    ensures i <= r <= |ks| && (forall j :: i <= j < r ==> !ks[j].Named?) && (r < |ks| ==> ks[r].Named?)
    decreases |ks| - i
  {
    if i == |ks| || ks[i].Named? then i else FirstNamed(ks, i + 1)
  }

  function NextHeader(ks: seq<Kind>, i: nat): (r: nat)
    requires i <= |ks|
    ensures i <= r <= |ks| && (forall j :: i <= j < r ==> !Header(ks[j])) && (r < |ks| ==> Header(ks[r]))
    decreases |ks| - i
  {
    if i == |ks| || Header(ks[i]) then i else NextHeader(ks, i + 1)
  }

  /** Past the last line before `end`, from `lo` on, that is neither blank nor comment. */
  function ContentEnd(ks: seq<Kind>, lo: nat, end: nat): (r: nat)
    requires lo <= end <= |ks|
    ensures lo <= r <= end && (forall i :: r <= i < end ==> Filler(ks[i])) && (r > lo ==> !Filler(ks[r - 1]))
    decreases end
  {
    if end > lo && Filler(ks[end - 1]) then ContentEnd(ks, lo, end - 1) else end
  }

  /** Where the comment block right before `end` begins, from `lo` on. */
  function KeepFrom(ks: seq<Kind>, lo: nat, end: nat): (r: nat)
    requires lo <= end <= |ks|
    ensures lo <= r <= end && (forall i :: r <= i < end ==> ks[i].Comment?) && (r > lo ==> !ks[r - 1].Comment?)
    decreases end
  {
    if end > lo && ks[end - 1].Comment? then KeepFrom(ks, lo, end - 1) else end
  }

  /** Past the lines of kind `k` from `i` on, up to `hi`. */
  function Skip(ks: seq<Kind>, k: Kind, i: nat, hi: nat): (r: nat)
    requires i <= hi <= |ks|
    ensures i <= r <= hi && (forall j :: i <= j < r ==> ks[j] == k) && (r < hi ==> ks[r] != k)
    decreases hi - i
  {
    if i < hi && ks[i] == k then Skip(ks, k, i + 1, hi) else i
  }

  function BackBlanks(ks: seq<Kind>, i: nat): (r: nat)
    requires i <= |ks|
    ensures r <= i && (forall j :: r <= j < i ==> ks[j].Blank?) && (r > 0 ==> !ks[r - 1].Blank?)
  {
    if i > 0 && ks[i - 1].Blank? then BackBlanks(ks, i - 1) else i
  }

  function CutOf(ks: seq<Kind>): Option<Cut> {
    var start := FirstNamed(ks, 0);
    if start == |ks| then None
    else
      var end := NextHeader(ks, start + 1);
      var content := ContentEnd(ks, start + 1, end);
      var keep := if end < |ks| then KeepFrom(ks, content, end) else end;
      var cut := Skip(ks, Blank, Skip(ks, Comment, content, keep), keep);
      Some(Cut(start, end, content, if cut == |ks| then BackBlanks(ks, start) else start, cut))
  }

  lemma KindsExact(lines: seq<string>, name: string)
    ensures var ks := Kinds(lines, name);
            |ks| == |lines|
            && forall i :: 0 <= i < |lines| ==>
                 (IsBlank(lines[i]) <==> ks[i].Blank?) && (IsComment(lines[i]) <==> ks[i].Comment?)
                 && (IsHeader(lines[i]) <==> Header(ks[i])) && (Names(lines[i], name) <==> ks[i].Named?)
  {
    forall i | 0 <= i < |lines|
      ensures (IsBlank(lines[i]) <==> Kinds(lines, name)[i].Blank?) && (IsComment(lines[i]) <==> Kinds(lines, name)[i].Comment?)
      ensures (IsHeader(lines[i]) <==> Header(Kinds(lines, name)[i])) && (Names(lines[i], name) <==> Kinds(lines, name)[i].Named?)
    {
      KindExact(lines[i], name);
      hide IsBlank, IsComment, IsHeader, Names, KindOf;
    }
  }

  /** cutTable, on the file's lines. */
  method CutTable(lines: seq<string>, name: string) returns (r: Option<Cut>)
    ensures r == CutOf(Kinds(lines, name))
  {
    hide IsBlank, IsComment, IsHeader, Names, KindOf;
    var start, end := FindTable(lines, name);
    assert |Kinds(lines, name)| == |lines|;
    hide Kinds, FirstNamed, NextHeader, ContentEnd, KeepFrom, Skip, BackBlanks;
    if start == |lines| {
      return None;
    }
    var content := LastContent(lines, name, start + 1, end);
    var cut := GapEnd(lines, name, content, end);
    var from := start;
    if cut == |lines| {
      from := BlanksAbove(lines, name, start);
    }
    return Some(Cut(start, end, content, from, cut));
  }

  /** The loops below the table's own lines. */
  method GapEnd(lines: seq<string>, name: string, content: nat, end: nat) returns (cut: nat)
    requires content <= end <= |lines| == |Kinds(lines, name)|
    ensures var ks := Kinds(lines, name);
            var keep := if end < |ks| then KeepFrom(ks, content, end) else end;
            cut == Skip(ks, Blank, Skip(ks, Comment, content, keep), keep)
  {
    hide *;
    var keepFrom := end;
    if end < |lines| {
      keepFrom := CommentsAbove(lines, name, content, end);
    }
    var glued := PastComments(lines, name, content, keepFrom);
    cut := PastBlanks(lines, name, glued, keepFrom);
  }

  method CommentsAbove(lines: seq<string>, name: string, content: nat, end: nat) returns (keepFrom: nat)
    requires content <= end <= |lines| == |Kinds(lines, name)|
    ensures keepFrom == KeepFrom(Kinds(lines, name), content, end)
  {
    ghost var ks := Kinds(lines, name);
    KindsExact(lines, name);
    hide IsBlank, IsComment, IsHeader, Names, KindOf, Kinds;
    keepFrom := end;
    while keepFrom > content && IsComment(lines[keepFrom - 1])
      invariant content <= keepFrom <= end && KeepFrom(ks, content, end) == KeepFrom(ks, content, keepFrom)
    {
      keepFrom := keepFrom - 1;
    }
  }

  method PastComments(lines: seq<string>, name: string, from: nat, hi: nat) returns (cut: nat)
    requires from <= hi <= |lines| == |Kinds(lines, name)|
    ensures cut == Skip(Kinds(lines, name), Comment, from, hi)
  {
    ghost var ks := Kinds(lines, name);
    KindsExact(lines, name);
    hide IsBlank, IsComment, IsHeader, Names, KindOf, Kinds;
    cut := from;
    while cut < hi && IsComment(lines[cut])
      invariant from <= cut <= hi && Skip(ks, Comment, from, hi) == Skip(ks, Comment, cut, hi)
    {
      cut := cut + 1;
    }
  }

  method PastBlanks(lines: seq<string>, name: string, from: nat, hi: nat) returns (cut: nat)
    requires from <= hi <= |lines| == |Kinds(lines, name)|
    ensures cut == Skip(Kinds(lines, name), Blank, from, hi)
  {
    ghost var ks := Kinds(lines, name);
    KindsExact(lines, name);
    hide IsBlank, IsComment, IsHeader, Names, KindOf, Kinds;
    cut := from;
    while cut < hi && IsBlank(lines[cut])
      invariant from <= cut <= hi && Skip(ks, Blank, from, hi) == Skip(ks, Blank, cut, hi)
    {
      cut := cut + 1;
    }
  }

  /** The loop above the header. */
  method BlanksAbove(lines: seq<string>, name: string, start: nat) returns (from: nat)
    requires start <= |lines| == |Kinds(lines, name)|
    ensures from == BackBlanks(Kinds(lines, name), start)
  {
    ghost var ks := Kinds(lines, name);
    KindsExact(lines, name);
    hide IsBlank, IsComment, IsHeader, Names, KindOf, Kinds;
    from := start;
    while from > 0 && IsBlank(lines[from - 1])
      invariant from <= start && BackBlanks(ks, start) == BackBlanks(ks, from)
    {
      from := from - 1;
    }
  }

  /** The loop over the header lines: the table's own, and the next of any. */
  method FindTable(lines: seq<string>, name: string) returns (start: nat, end: nat)
    ensures start == FirstNamed(Kinds(lines, name), 0)
    ensures start < |lines| ==> end == NextHeader(Kinds(lines, name), start + 1)
  {
    ghost var ks := Kinds(lines, name);
    var found := false;
    start, end := |lines|, |lines|;
    for i := 0 to |lines|
      invariant if found then start < i && start == FirstNamed(ks, 0) && NextHeader(ks, start + 1) == NextHeader(ks, i)
                else start == |lines| && FirstNamed(ks, 0) == FirstNamed(ks, i)
    {
      var key := Toml.TableHeader(lines[i]);
      KindExact(lines[i], name);
      assert Header(ks[i]) == key.Some? && ks[i].Named? == (key == Some([Toml.MACHINES, name]));
      hide Toml.TableHeader, KindOf, IsHeader, Names, IsBlank, IsComment;
      if key.None? {
        continue;
      }
      if !found {
        if key == Some([Toml.MACHINES, name]) {
          found, start := true, i;
        }
        continue;
      }
      end := i;
      return;
    }
  }

  /** The loop over the table's lines, to the last that is neither blank nor comment. */
  method LastContent(lines: seq<string>, name: string, lo: nat, end: nat) returns (content: nat)
    requires lo <= end <= |lines|
    ensures content == ContentEnd(Kinds(lines, name), lo, end)
  {
    ghost var ks := Kinds(lines, name);
    KindsExact(lines, name);
    hide IsBlank, IsComment, IsHeader, Names, KindOf, Kinds;
    content := lo;
    for i := lo to end
      invariant lo <= content <= i && content == ContentEnd(ks, lo, i)
    {
      if !IsBlank(lines[i]) && !IsComment(lines[i]) {
        content := i + 1;
      }
    }
  }

  ghost predicate CommentBlock(ks: seq<Kind>, i: nat, end: nat)
    requires end <= |ks|
  {
    forall j :: i <= j < end ==> ks[j].Comment?
  }

  /** Behind a table's own lines go the comments glued to them and the blank lines
      after those, and nothing of a comment block right above the next header; what
      stays begins with a comment, one after a blank line or the first of that block. */
  ghost predicate GapCut(ks: seq<Kind>, content: nat, cut: nat, end: nat)
    requires content <= cut <= end <= |ks|
  {
    && (forall i, j :: content <= i < j < cut && ks[i].Blank? ==> ks[j].Blank?)
    && (end < |ks| ==> forall i: nat :: content <= i <= end && CommentBlock(ks, i, end) ==> cut <= i)
    && (cut < end ==>
          ks[cut].Comment? && ((content < cut && ks[cut - 1].Blank?) || (end < |ks| && CommentBlock(ks, cut, end))))
  }

  lemma GapExact(ks: seq<Kind>, content: nat, end: nat)
    requires content <= end <= |ks| && forall i :: content <= i < end ==> Filler(ks[i])
    ensures var keep := if end < |ks| then KeepFrom(ks, content, end) else end;
            GapCut(ks, content, Skip(ks, Blank, Skip(ks, Comment, content, keep), keep), end)
  {
    var keep := if end < |ks| then KeepFrom(ks, content, end) else end;
    var glued := Skip(ks, Comment, content, keep);
    var cut := Skip(ks, Blank, glued, keep);
    hide Skip, KeepFrom;
    if end < |ks| {
      forall i: nat | content <= i <= end && CommentBlock(ks, i, end) ensures cut <= i {
        KeepIsLowest(ks, content, end, i);
      }
    }
    if cut < end && cut < keep {
      assert !ks[cut].Blank?;
      assert glued < cut;
    }
  }

  /** What a cut takes out is one range of lines: the first header of that name and no
      other, all of the table's own lines, what goes behind them, and at the end of the
      file the blank lines above the header. What is kept of the table is blank lines
      and comments. */
  lemma CutIsTheTable(ks: seq<Kind>)
    ensures CutOf(ks).Some? <==> exists i :: 0 <= i < |ks| && ks[i].Named?
    ensures CutOf(ks).Some? ==>
              var c := CutOf(ks).value;
              && c.from <= c.start < c.content <= c.cut <= c.end <= |ks|
              && ks[c.start].Named? && (forall i :: 0 <= i < c.start ==> !ks[i].Named?)
              && (forall i :: c.start < i < c.end ==> !Header(ks[i])) && (c.end < |ks| ==> Header(ks[c.end]))
              && (c.content == c.start + 1 || !Filler(ks[c.content - 1]))
              && (forall i :: c.content <= i < c.end ==> Filler(ks[i])) && GapCut(ks, c.content, c.cut, c.end)
              && (forall i :: c.from <= i < c.start ==> ks[i].Blank?)
              && (if c.cut < |ks| then c.from == c.start else c.from == 0 || !ks[c.from - 1].Blank?)
  {
    hide GapCut, KeepFrom, Skip, NextHeader, ContentEnd, BackBlanks, FirstNamed;
    if CutOf(ks).Some? {
      var c := CutOf(ks).value;
      GapExact(ks, c.content, c.end);
    }
  }

  lemma {:induction false} KeepIsLowest(ks: seq<Kind>, lo: nat, end: nat, i: nat)
    requires lo <= i <= end <= |ks| && CommentBlock(ks, i, end)
    ensures KeepFrom(ks, lo, end) <= i
    decreases end
  {
    if i < end {
      KeepIsLowest(ks, lo, end - 1, i);
    }
  }

  // ---------------------------------------------------------------------
  // The append
  // ---------------------------------------------------------------------

  datatype Entry = Entry(
    backend: string, managed: Option<bool>, host: string, user: string, transport: string, moshServer: string,
    identity: string, connectTimeout: nat)

  function Optional(key: string, value: string): seq<string> {
    if value == "" then [] else [key + " = " + Toml.TomlString(value)]
  }

  /** The keys that are written only if they have a value. */
  function OptionalLines(e: Entry): seq<string> {
    Optional("user", e.user) + (Optional("transport", e.transport) + (Optional("mosh_server", e.moshServer)
    + (Optional("identity", e.identity)
    + if e.connectTimeout == 0 then [] else ["connect_timeout = " + Version.Decimal(e.connectTimeout)])))
  }

  /** The lines of a table below its header, in their fixed order; managed is always
      there on a remote entry. */
  function KeyLines(e: Entry): seq<string> {
    var managed := if e.managed.None? && e.backend == "remote" then Some(false) else e.managed;
    ["backend = " + Toml.TomlString(e.backend)]
    + ((match managed case None => [] case Some(m) => [if m then "managed = true" else "managed = false"])
    + (["host = " + Toml.TomlString(e.host)] + OptionalLines(e)))
  }

  function EntryLines(name: string, e: Entry): seq<string> { [Toml.MachineTable(name)] + KeyLines(e) }

  function Terminated(lines: seq<string>, nl: string): seq<string> {
    if lines == [] then [] else [lines[0] + nl] + Terminated(lines[1..], nl)
  }

  predicate HasCrLf(s: string) { exists i :: 0 <= i < |s| - 1 && s[i] == '\r' && s[i + 1] == '\n' }

  function Newline(data: string): string { if HasCrLf(data) then "\r\n" else "\n" }

  /** The data with its last line ended. */
  function Ended(data: string): string {
    if data == "" || data[|data| - 1] == '\n' then data else data + Newline(data)
  }

  /** What AppendEntry writes. */
  function Appended(data: string, name: string, e: Entry): string {
    Ended(data) + (if data == "" then "" else Newline(data)) + Concat(Terminated(EntryLines(name, e), Newline(data)))
  }

  predicate IsNewline(nl: string) { nl == "\n" || nl == "\r\n" }

  lemma LineFirst(line: string, nl: string, rest: string)
    requires '\n' !in line && IsNewline(nl)
    ensures LinesOf(line + nl + rest) == [line + nl] + LinesOf(rest)
  {
    var head := line + nl[..|nl| - 1];
    var all := line + nl + rest;
    assert all == head + ("\n" + rest);
    assert forall i :: 0 <= i < |head| ==> head[i] != '\n';
    Toml.IndexOfThen(head, "\n" + rest, '\n');
    assert all[..|head| + 1] == line + nl && all[|head| + 1..] == rest;
  }

  lemma {:induction false} LinesOfTerminated(lines: seq<string>, nl: string)
    requires IsNewline(nl) && forall l :: l in lines ==> '\n' !in l
    ensures LinesOf(Concat(Terminated(lines, nl))) == Terminated(lines, nl)
    ensures |Terminated(lines, nl)| == |lines|
    ensures forall i :: 0 <= i < |lines| ==> Terminated(lines, nl)[i] == lines[i] + nl
  {
    hide LinesOf;
    if lines == [] {
      NoLines();
    } else {
      var t := Terminated(lines, nl);
      assert lines[0] in lines && t[1..] == Terminated(lines[1..], nl);
      LinesOfTerminated(lines[1..], nl);
      LineFirst(lines[0], nl, Concat(t[1..]));
    }
  }

  lemma NoLines()
    ensures LinesOf("") == []
  {
  }

  lemma FirstLine(a: string) returns (head: string, tail: string)
    requires a != "" && a[|a| - 1] == '\n'
    ensures '\n' !in head && a == head + "\n" + tail && |tail| < |a| && (tail == "" || tail[|tail| - 1] == '\n')
  {
    var i := Toml.IndexOf(a, '\n');
    head, tail := a[..i], a[i + 1..];
    assert tail != "" ==> tail[|tail| - 1] == a[|a| - 1];
    assert a == head + [a[i]] + tail;
  }

  lemma Rejoin(head: string, tail: string, b: string)
    ensures head + "\n" + tail + b == head + "\n" + (tail + b)
  {
  }

  /** Text after a newline begins a line of its own. */
  lemma {:induction false} LinesOfJoined(a: string, b: string)
    requires a == "" || a[|a| - 1] == '\n'
    ensures LinesOf(a + b) == LinesOf(a) + LinesOf(b)
    decreases |a|
  {
    hide *;
    if a == "" {
      assert a + b == b;
      NoLines();
      assert [] + LinesOf(b) == LinesOf(b);
    } else {
      var head, tail := FirstLine(a);
      LineFirst(head, "\n", tail);
      LineFirst(head, "\n", tail + b);
      Rejoin(head, tail, b);
      LinesOfJoined(tail, b);
    }
  }

  // ---------------------------------------------------------------------
  // Appended, then cut
  // ---------------------------------------------------------------------

  lemma {:induction false} EscapeHoldsNoNewline(s: string)
    ensures '\n' !in Toml.Escape(s)
  {
    if s != "" {
      hide Toml.EscapeRune;
      EscapeHoldsNoNewline(s[1..]);
      Toml.EscapeShape(s[0]);
      var h := Toml.Hex4Plain(s[0]);
      hide Toml.Hex4;
      RuneHoldsNoNewline(s[0]);
    }
  }

  lemma RuneHoldsNoNewline(c: char)
    ensures '\n' !in Toml.EscapeRune(c)
  {
    var h := Toml.Hex4Plain(c);
    assert (c as int) < 0x1_0000 ==> forall i :: 0 <= i < |h| ==> h[i] != '\n';
  }

  lemma KeyHoldsNoNewline(k: string)
    ensures '\n' !in Toml.TomlString(k) && '\n' !in Toml.MachineTable(k)
  {
    EscapeHoldsNoNewline(k);
    assert Toml.BareKey(k) ==> forall i :: 0 <= i < |k| ==> Toml.BareChar(k[i]);
    assert '\n' !in Toml.TomlKey(k);
    hide Toml.TomlKey, Toml.TomlString, Toml.Escape;
  }

  /** A line that starts with a letter is a key of the table. */
  lemma LetterIsOwn(line: string, end: string, name: string)
    requires line != "" && 'a' <= line[0] <= 'z'
    ensures KindOf(line + end, name) == Own
  {
    var l := line + end;
    assert l[0] == line[0];
    assert TrimLeft(l) == l;
    TrimStart(l);
    hide TrimSpace, TrimLeft, Toml.SplitKey, Toml.Close, Toml.DoubleClose;
  }

  predicate KeyLine(l: string) { l != "" && 'a' <= l[0] <= 'z' && '\n' !in l }

  lemma PairIsKeyLine(key: string, value: string)
    requires KeyLine(key) && '\n' !in value
    ensures KeyLine(key + value)
  {
  }

  lemma StringKeyLine(key: string, value: string)
    requires KeyLine(key)
    ensures KeyLine(key + Toml.TomlString(value))
  {
    KeyHoldsNoNewline(value);
    hide Toml.TomlString;
    PairIsKeyLine(key, Toml.TomlString(value));
  }

  lemma OptionalKeyLines(key: string, value: string)
    requires KeyLine(key)
    ensures forall l :: l in Optional(key, value) ==> KeyLine(l)
  {
    PairIsKeyLine(key, " = ");
    StringKeyLine(key + " = ", value);
    hide Toml.TomlString, KeyLine;
  }

  predicate AllKeyLines(ls: seq<string>) { forall l :: l in ls ==> KeyLine(l) }

  lemma BothKeyLines(a: seq<string>, b: seq<string>)
    requires AllKeyLines(a) && AllKeyLines(b)
    ensures AllKeyLines(a + b)
  {
    hide KeyLine;
  }

  lemma OptionalLinesAreKeyLines(e: Entry)
    ensures AllKeyLines(OptionalLines(e))
  {
    OptionalKeyLines("user", e.user);
    OptionalKeyLines("transport", e.transport);
    OptionalKeyLines("mosh_server", e.moshServer);
    OptionalKeyLines("identity", e.identity);
    TimeoutKeyLine(e.connectTimeout);
    hide Toml.TomlString, Version.Decimal, Optional, KeyLine;
    var l4, l5, l6 := Optional("user", e.user), Optional("transport", e.transport), Optional("mosh_server", e.moshServer);
    var l7 := Optional("identity", e.identity);
    var l8 := if e.connectTimeout == 0 then [] else ["connect_timeout = " + Version.Decimal(e.connectTimeout)];
    assert AllKeyLines(l4) && AllKeyLines(l5) && AllKeyLines(l6) && AllKeyLines(l7) && AllKeyLines(l8);
    hide AllKeyLines;
    BothKeyLines(l7, l8);
    BothKeyLines(l6, l7 + l8);
    BothKeyLines(l5, l6 + (l7 + l8));
    BothKeyLines(l4, l5 + (l6 + (l7 + l8)));
  }

  lemma KeyLinesAreKeyLines(e: Entry)
    ensures |KeyLines(e)| >= 2 && AllKeyLines(KeyLines(e))
  {
    OptionalLinesAreKeyLines(e);
    StringKeyLine("backend = ", e.backend);
    StringKeyLine("host = ", e.host);
    assert KeyLine("managed = true") && KeyLine("managed = false");
    hide Toml.TomlString, OptionalLines, KeyLine;
    var managed := if e.managed.None? && e.backend == "remote" then Some(false) else e.managed;
    var l1, l3, rest := ["backend = " + Toml.TomlString(e.backend)], ["host = " + Toml.TomlString(e.host)], OptionalLines(e);
    var l2 := match managed case None => [] case Some(m) => [if m then "managed = true" else "managed = false"];
    assert AllKeyLines(l1) && AllKeyLines(l2) && AllKeyLines(l3);
    hide AllKeyLines;
    BothKeyLines(l3, rest);
    BothKeyLines(l2, l3 + rest);
    BothKeyLines(l1, l2 + (l3 + rest));
  }

  lemma TimeoutKeyLine(n: nat)
    ensures KeyLine("connect_timeout = " + Version.Decimal(n))
  {
    var d := Version.Decimal(n);
    assert forall j :: 0 <= j < |d| ==> Version.Digit(d[j]);
    hide Version.Decimal;
    PairIsKeyLine("connect_timeout = ", d);
  }

  /** A rendered table: its header, then at least two lines, none of them a header,
      blank or a comment; and each is one line. */
  lemma RenderedKinds(name: string, e: Entry, nl: string)
    requires IsNewline(nl)
    ensures var ls := EntryLines(name, e);
            && |ls| >= 3 && (forall l :: l in ls ==> '\n' !in l)
            && KindOf(ls[0] + nl, name) == Named
            && forall i :: 1 <= i < |ls| ==> KindOf(ls[i] + nl, name) == Own
  {
    var ls, keys := EntryLines(name, e), KeyLines(e);
    KeyLinesAreKeyLines(e);
    KeyHoldsNoNewline(name);
    Toml.HeaderRoundTrip(name, nl);
    hide Toml.MachineTable, Toml.TableHeader, KeyLines;
    assert KindOf(ls[0] + nl, name) == Named;
    hide KindOf;
    forall i | 1 <= i < |ls| ensures KindOf(ls[i] + nl, name) == Own {
      assert ls[i] == keys[i - 1] && keys[i - 1] in keys;
      LetterIsOwn(ls[i], nl, name);
    }
    forall l | l in ls ensures '\n' !in l {
      assert l == ls[0] || l in keys;
    }
  }

  lemma KindsAppend(a: seq<string>, b: seq<string>, name: string)
    ensures Kinds(a + b, name) == Kinds(a, name) + Kinds(b, name)
  {
    hide KindOf;
  }

  /** The kinds of a file, one blank line, and a table's header and keys after them:
      the cut takes the table and every blank line at the end of the file. */
  lemma CutOfAppended(ks: seq<Kind>, gap: seq<Kind>, table: seq<Kind>)
    requires forall k :: k in ks ==> !k.Named?
    requires gap == [] || gap == [Blank]
    requires |table| >= 3 && table[0].Named? && forall i :: 1 <= i < |table| ==> table[i].Own?
    ensures var all := ks + gap + table;
            CutOf(all).Some? && CutOf(all).value.cut == |all|
            && CutOf(all).value.from == BackBlanks(ks + gap, |ks + gap|)
  {
    var all, p := ks + gap + table, |ks| + |gap|;
    assert |ks + gap| == p;
    forall i | 0 <= i < p ensures !all[i].Named? {
      assert i < |ks| ==> all[i] == ks[i] && ks[i] in ks;
    }
    assert forall i :: 0 <= i < |table| ==> all[p + i] == table[i];
    assert all[p].Named? && forall i :: p < i < |all| ==> all[i].Own?;
    BackBlanksPrefix(ks + gap, table, p);
    CutToEnd(all, p);
  }

  lemma CutToEnd(all: seq<Kind>, p: nat)
    requires p + 1 < |all| && (forall i :: 0 <= i < p ==> !all[i].Named?) && all[p].Named?
    requires forall i :: p < i < |all| ==> all[i].Own?
    ensures CutOf(all) == Some(Cut(p, |all|, |all|, BackBlanks(all, p), |all|))
  {
    assert FirstNamed(all, 0) == p;
    assert NextHeader(all, p + 1) == |all|;
    assert ContentEnd(all, p + 1, |all|) == |all|;
    hide BackBlanks;
  }

  lemma {:induction false} BackBlanksPrefix(a: seq<Kind>, b: seq<Kind>, i: nat)
    requires i <= |a|
    ensures BackBlanks(a + b, i) == BackBlanks(a, i)
  {
    if i > 0 {
      BackBlanksPrefix(a, b, i - 1);
    }
  }

  /** The lines without the blank ones at the end. */
  function WithoutTrailingBlanks(lines: seq<string>): seq<string>
    decreases |lines|
  {
    if lines != [] && IsBlank(lines[|lines| - 1]) then WithoutTrailingBlanks(lines[..|lines| - 1]) else lines
  }

  lemma {:induction false} BackBlanksOf(lines: seq<string>, name: string, i: nat)
    requires i <= |lines|
    ensures lines[..BackBlanks(Kinds(lines, name), i)] == WithoutTrailingBlanks(lines[..i])
  {
    KindsExact(lines, name);
    hide IsBlank, IsHeader, IsComment, Names, KindOf, Kinds;
    if i > 0 {
      BackBlanksOf(lines, name, i - 1);
      assert lines[..i][..i - 1] == lines[..i - 1];
    }
  }

  /** What is left of a file once a table has been cut out. */
  function Remaining(lines: seq<string>, c: Cut): string
    requires c.from <= c.cut <= |lines|
  {
    Concat(lines[..c.from]) + Concat(lines[c.cut..])
  }

  /** The lines of the file before, its blank line, and the entry's. */
  lemma AppendedLines(data: string, name: string, e: Entry)
    ensures var nl := Newline(data);
            LinesOf(Appended(data, name, e))
            == LinesOf(Ended(data)) + (if data == "" then [] else [nl]) + Terminated(EntryLines(name, e), nl)
  {
    hide *;
    var nl := Newline(data);
    EndsInNewline(data);
    TableLines(name, e, nl);
    var table := Concat(Terminated(EntryLines(name, e), nl));
    AppendedIs(data, name, e);
    if data == "" {
      NoLines();
      NothingBefore(Terminated(EntryLines(name, e), nl));
    } else {
      BlankLineFirst(nl, table);
      LinesOfJoined(Ended(data), nl + table);
      JoinAll(LinesOf(Ended(data)), nl, LinesOf(table));
    }
  }

  predicate EndsCrLf(line: string) { |line| >= 2 && line[|line| - 2..] == "\r\n" }

  /** Every line the append adds ends as the file's lines do: in CR LF if there is one
      in the file, and else in a bare LF. */
  lemma EndingKept(data: string, name: string, e: Entry, i: nat)
    requires |LinesOf(Ended(data))| <= i < |LinesOf(Appended(data, name, e))|
    ensures var line := LinesOf(Appended(data, name, e))[i];
            && line != "" && line[|line| - 1] == '\n'
            && (EndsCrLf(line) <==> exists j :: 0 <= j < |data| - 1 && data[j] == '\r' && data[j + 1] == '\n')
  {
    hide *;
    NewlineIs(data);
    var l := AddedLine(data, name, e, i);
    EndsInNewline(data);
    LineEnding(l, Newline(data));
  }

  /** A line the append adds, without its ending. */
  lemma AddedLine(data: string, name: string, e: Entry, i: nat) returns (l: string)
    requires |LinesOf(Ended(data))| <= i < |LinesOf(Appended(data, name, e))|
    ensures LinesOf(Appended(data, name, e))[i] == l + Newline(data) && (l != "" ==> l[|l| - 1] != '\r')
  {
    hide *;
    var nl, ls, k := Newline(data), EntryLines(name, e), i - |LinesOf(Ended(data))|;
    EndsInNewline(data);
    AppendedLines(data, name, e);
    RenderedKinds(name, e, nl);
    LinesOfTerminated(ls, nl);
    if k < |Gap(data)| {
      l := "";
      assert "" + nl == nl;
    } else {
      l := ls[k - |Gap(data)|];
      EntryLinesEnd(name, e);
      LastIs(ls, k - |Gap(data)|);
    }
  }

  lemma NewlineIs(data: string)
    ensures Newline(data) == "\r\n" <==> exists j :: 0 <= j < |data| - 1 && data[j] == '\r' && data[j + 1] == '\n'
  {
  }

  predicate NoCrAtEnd(ls: seq<string>) { forall l :: l in ls ==> l != "" && l[|l| - 1] != '\r' }

  lemma StringEnds(key: string, value: string)
    ensures NoCrAtEnd([key + Toml.TomlString(value)]) && NoCrAtEnd(Optional(key, value))
  {
    var t := Toml.TomlString(value);
    assert t[|t| - 1] == '"' by { hide Toml.Escape; }
    hide Toml.TomlString;
  }

  lemma BothEnd(a: seq<string>, b: seq<string>)
    requires NoCrAtEnd(a) && NoCrAtEnd(b)
    ensures NoCrAtEnd(a + b)
  {
  }

  lemma TimeoutEnds(n: nat)
    ensures NoCrAtEnd(if n == 0 then [] else ["connect_timeout = " + Version.Decimal(n)])
  {
    var d := Version.Decimal(n);
    assert Version.Digit(d[|d| - 1]);
    hide Version.Decimal;
  }

  lemma OptionalLinesEnd(e: Entry)
    ensures NoCrAtEnd(OptionalLines(e))
  {
    hide NoCrAtEnd, Optional, Version.Decimal;
    var l4, l5, l6 := Optional("user", e.user), Optional("transport", e.transport), Optional("mosh_server", e.moshServer);
    var l7 := Optional("identity", e.identity);
    var l8 := if e.connectTimeout == 0 then [] else ["connect_timeout = " + Version.Decimal(e.connectTimeout)];
    StringEnds("user", e.user);
    StringEnds("transport", e.transport);
    StringEnds("mosh_server", e.moshServer);
    StringEnds("identity", e.identity);
    TimeoutEnds(e.connectTimeout);
    BothEnd(l7, l8);
    BothEnd(l6, l7 + l8);
    BothEnd(l5, l6 + (l7 + l8));
    BothEnd(l4, l5 + (l6 + (l7 + l8)));
  }

  lemma FixedEnds(managed: Option<bool>)
    ensures NoCrAtEnd(match managed case None => [] case Some(m) => [if m then "managed = true" else "managed = false"])
  {
  }

  lemma HeaderEnds(name: string)
    ensures NoCrAtEnd([Toml.MachineTable(name)])
  {
    hide Toml.TomlKey;
  }

  lemma EntryLinesEnd(name: string, e: Entry)
    ensures NoCrAtEnd(EntryLines(name, e))
  {
    hide NoCrAtEnd, Toml.TomlString, OptionalLines, Toml.MachineTable;
    var managed := if e.managed.None? && e.backend == "remote" then Some(false) else e.managed;
    var l1, l3, rest := ["backend = " + Toml.TomlString(e.backend)], ["host = " + Toml.TomlString(e.host)], OptionalLines(e);
    var l2 := match managed case None => [] case Some(m) => [if m then "managed = true" else "managed = false"];
    HeaderEnds(name);
    StringEnds("backend = ", e.backend);
    StringEnds("host = ", e.host);
    FixedEnds(managed);
    OptionalLinesEnd(e);
    BothEnd(l3, rest);
    BothEnd(l2, l3 + rest);
    BothEnd(l1, l2 + (l3 + rest));
    BothEnd([Toml.MachineTable(name)], KeyLines(e));
  }

  lemma LastIs(ls: seq<string>, i: nat)
    requires NoCrAtEnd(ls) && i < |ls|
    ensures ls[i] != "" && ls[i][|ls[i]| - 1] != '\r'
  {
    assert ls[i] in ls;
  }

  lemma LineEnding(l: string, nl: string)
    requires IsNewline(nl) && (l != "" ==> l[|l| - 1] != '\r')
    ensures l + nl != "" && (l + nl)[|l + nl| - 1] == '\n' && (EndsCrLf(l + nl) <==> nl == "\r\n")
  {
    var line := l + nl;
    if nl == "\r\n" {
      assert line[|line| - 2..] == nl;
    } else if l != "" {
      assert line[|line| - 2] == l[|l| - 1];
    }
  }

  lemma EndsInNewline(data: string)
    ensures IsNewline(Newline(data))
    ensures Ended(data) == "" || Ended(data)[|Ended(data)| - 1] == '\n'
    ensures Gap(data) == if data == "" then [] else [Newline(data)]
  {
    hide HasCrLf;
  }

  lemma TableLines(name: string, e: Entry, nl: string)
    requires IsNewline(nl)
    ensures LinesOf(Concat(Terminated(EntryLines(name, e), nl))) == Terminated(EntryLines(name, e), nl)
  {
    RenderedKinds(name, e, nl);
    hide *;
    LinesOfTerminated(EntryLines(name, e), nl);
  }

  lemma NothingBefore(l: seq<string>)
    ensures [] + [] + l == l
  {
  }

  lemma JoinAll(a: seq<string>, nl: string, b: seq<string>)
    ensures a + ([nl] + b) == a + [nl] + b
  {
  }

  /** The blank line before the entry. */
  function Gap(data: string): seq<string> { if data == "" then [] else [Newline(data)] }

  lemma AppendedIs(data: string, name: string, e: Entry)
    ensures var nl, table := Newline(data), Concat(Terminated(EntryLines(name, e), Newline(data)));
            && Appended(data, name, e) == (if data == "" then table else Ended(data) + (nl + table))
            && (data == "" ==> LinesOf(Ended(data)) == [])
  {
    var table := Concat(Terminated(EntryLines(name, e), Newline(data)));
    NoLines();
    hide EntryLines, LinesOf, HasCrLf, Terminated, Concat, Newline;
    if data == "" {
      assert "" + "" + table == table;
    } else {
      JoinTexts(Ended(data), Newline(data), table);
    }
  }

  lemma JoinTexts(a: string, b: string, c: string)
    ensures a + b + c == a + (b + c)
  {
  }

  lemma BlankLineFirst(nl: string, rest: string)
    requires IsNewline(nl)
    ensures LinesOf(nl + rest) == [nl] + LinesOf(rest)
  {
    hide LinesOf;
    LineFirst("", nl, rest);
    assert "" + nl == nl;
  }

  lemma BlankLineIsBlank(nl: string, name: string)
    requires IsNewline(nl)
    ensures Kinds([nl], name) == [Blank] && IsBlank(nl)
  {
    TrimMore("", nl);
    TrimNothing("");
    assert "" + nl == nl;
    hide TrimSpace, Toml.SplitKey, Toml.Close, Toml.DoubleClose;
    KindExact(nl, name);
  }

  lemma GapIsBlank(data: string, name: string)
    ensures Kinds(Gap(data), name) == (if Gap(data) == [] then [] else [Blank]) && forall l :: l in Gap(data) ==> IsBlank(l)
  {
    BlankLineIsBlank(Newline(data), name);
    hide IsBlank, KindOf, Newline;
  }

  lemma TableKinds(name: string, e: Entry, nl: string)
    requires IsNewline(nl)
    ensures var ks := Kinds(Terminated(EntryLines(name, e), nl), name);
            |ks| >= 3 && ks[0].Named? && forall i :: 1 <= i < |ks| ==> ks[i].Own?
  {
    RenderedKinds(name, e, nl);
    LinesOfTerminated(EntryLines(name, e), nl);
    hide EntryLines, Terminated, KindOf, LinesOf;
  }

  lemma GapGoes(lines: seq<string>, gap: seq<string>)
    requires |gap| <= 1 && forall l :: l in gap ==> IsBlank(l)
    ensures WithoutTrailingBlanks(lines + gap) == WithoutTrailingBlanks(lines)
  {
    hide IsBlank;
    if gap == [] {
      assert lines + gap == lines;
    } else {
      assert (lines + gap)[..|lines|] == lines && (lines + gap)[|lines|] == gap[0];
    }
  }

  /** An entry appended to any file that has no header of that name, and cut out
      again, leaves the file as it was, up to blank lines at its end and the newline
      that ends its last line. */
  lemma AppendThenCut(data: string, name: string, e: Entry)
    requires forall l :: l in LinesOf(Ended(data)) ==> !Names(l, name)
    ensures var lines := LinesOf(Appended(data, name, e));
            var c := CutOf(Kinds(lines, name));
            c.Some? && c.value.from <= c.value.cut <= |lines|
            && Remaining(lines, c.value) == Concat(WithoutTrailingBlanks(LinesOf(Ended(data))))
  {
    hide *;
    var nl := Newline(data);
    var before, gap, table := LinesOf(Ended(data)), Gap(data), Terminated(EntryLines(name, e), nl);
    var lines := before + gap + table;
    EndsInNewline(data);
    AppendedLines(data, name, e);
    TableKinds(name, e, nl);
    GapIsBlank(data, name);
    GapGoes(before, gap);
    NoneNamed(before, name);
    KindsAppend(before + gap, table, name);
    KindsAppend(before, gap, name);
    CutOfAppended(Kinds(before, name), Kinds(gap, name), Kinds(table, name));
    BackBlanksOf(before + gap, name, |before + gap|);
    KindsLength(lines, name);
    KindsLength(before + gap, name);
    RemainingIs(before + gap, table, CutOf(Kinds(lines, name)).value);
    assert (before + gap)[..|before + gap|] == before + gap;
  }

  /** Cut from somewhere in the first part to the end. */
  lemma RemainingIs(first: seq<string>, second: seq<string>, c: Cut)
    requires c.from <= |first| && c.cut == |first + second|
    ensures Remaining(first + second, c) == Concat(first[..c.from])
  {
    var lines := first + second;
    assert lines[..c.from] == first[..c.from] && lines[c.cut..] == [];
    assert Concat([]) == "";
    hide Concat;
    assert Concat(lines[..c.from]) + "" == Concat(lines[..c.from]);
  }

  lemma KindsLength(lines: seq<string>, name: string)
    ensures |Kinds(lines, name)| == |lines|
  {
    hide KindOf;
  }

  lemma NoneNamed(lines: seq<string>, name: string)
    requires forall l :: l in lines ==> !Names(l, name)
    ensures forall k :: k in Kinds(lines, name) ==> !k.Named?
  {
    KindsExact(lines, name);
    hide Names, KindOf, IsHeader, IsBlank, IsComment;
  }

  lemma {:induction false} LinesAreTheFile(data: string)
    ensures Concat(LinesOf(data)) == data
    decreases |data|
  {
    if data != "" {
      var i := Toml.IndexOf(data, '\n');
      if i < |data| {
        LinesAreTheFile(data[i + 1..]);
        var first, rest := data[..i + 1], data[i + 1..];
        assert first + rest == data;
        assert ([first] + LinesOf(rest))[1..] == LinesOf(rest);
      }
    }
  }

  lemma {:induction false} ConcatAppend(a: seq<string>, b: seq<string>)
    ensures Concat(a + b) == Concat(a) + Concat(b)
  {
    if a == [] {
      assert a + b == b;
    } else {
      assert (a + b)[1..] == a[1..] + b;
      ConcatAppend(a[1..], b);
    }
  }

  /** Cutting a table takes out one stretch of the file's bytes and keeps every one
      before and after. */
  lemma CutKeepsTheRest(data: string, name: string) returns (lo: nat, hi: nat)
    requires CutOf(Kinds(LinesOf(data), name)).Some?
    ensures var lines := LinesOf(data);
            var c := CutOf(Kinds(lines, name)).value;
            && c.from <= c.cut <= |lines| && lo <= hi <= |data|
            && Remaining(lines, c) == data[..lo] + data[hi..]
            && data[lo..hi] == Concat(lines[c.from..c.cut])
  {
    var lines := LinesOf(data);
    LinesAreTheFile(data);
    KindsLength(lines, name);
    CutIsTheTable(Kinds(lines, name));
    hide *;
    var c := CutOf(Kinds(lines, name)).value;
    InThree(lines, c.from, c.cut);
    lo, hi := BytesInThree(data, Concat(lines[..c.from]), Concat(lines[c.from..c.cut]), Concat(lines[c.cut..]));
    RemainingJoins(lines, c);
  }

  lemma InThree(lines: seq<string>, from: nat, cut: nat)
    requires from <= cut <= |lines|
    ensures Concat(lines) == Concat(lines[..from]) + Concat(lines[from..cut]) + Concat(lines[cut..])
  {
    hide Concat;
    assert lines == lines[..cut] + lines[cut..];
    assert lines[..cut] == lines[..from] + lines[from..cut];
    ConcatAppend(lines[..cut], lines[cut..]);
    ConcatAppend(lines[..from], lines[from..cut]);
  }

  lemma BytesInThree(data: string, before: string, gone: string, after: string) returns (lo: nat, hi: nat)
    requires data == before + gone + after
    ensures lo <= hi <= |data| && data[..lo] == before && data[lo..hi] == gone && data[hi..] == after
  {
    lo, hi := |before|, |before| + |gone|;
  }

  lemma RemainingJoins(lines: seq<string>, c: Cut)
    requires c.from <= c.cut <= |lines|
    ensures Remaining(lines, c) == Concat(lines[..c.from]) + Concat(lines[c.cut..])
  {
  }
}
