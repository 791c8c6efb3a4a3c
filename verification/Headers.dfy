/** Table headers as people write them: any spelling of the segments, white space
    around each, one pair of brackets or two, a comment behind. */
module Headers {
  import opened Wrappers
  import opened Text
  import opened Toml

  /** A segment as it is, in double quotes with escapes, or in single quotes. */
  datatype Spelled = Bare(key: string) | Quoted(key: string) | Literal(key: string)

  /** Segments, with the white space before and after each dot. */
  datatype Dotted = Last(s: Spelled) | More(s: Spelled, before: string, after: string, rest: Dotted)

  predicate Spaces(s: string) { forall i :: 0 <= i < |s| ==> IsSpace(s[i]) }

  predicate Unquoted(k: string) { '\'' !in k }

  predicate CanSpell(s: Spelled) {
    match s
    case Bare(k) => BareKey(k)
    case Quoted(_) => true
    case Literal(k) => Unquoted(k)
  }

  predicate Written(d: Dotted) {
    CanSpell(d.s) && (d.More? ==> Spaces(d.before) && Spaces(d.after) && Written(d.rest))
  }

  function Spell(s: Spelled): string {
    match s
    case Bare(k) => k
    case Quoted(k) => TomlString(k)
    case Literal(k) => "'" + (k + "'")
  }

  function KeyText(d: Dotted): string {
    match d
    case Last(s) => Spell(s)
    case More(s, before, after, rest) => Spell(s) + before + ("." + (after + KeyText(rest)))
  }

  function Keys(d: Dotted): seq<string> {
    match d
    case Last(s) => [s.key]
    case More(s, _, _, rest) => [s.key] + Keys(rest)
  }

  // ---------------------------------------------------------------------
  // The segments
  // ---------------------------------------------------------------------

  lemma SpellEnds(s: Spelled)
    requires CanSpell(s)
    ensures var t := Spell(s);
            t != "" && !IsSpace(t[0]) && !IsSpace(t[|t| - 1]) && t[0] != '[' && t[|t| - 1] != ']'
  {
    if s.Bare? {
      NoDot(s.key);
      assert BareChar(s.key[0]) && BareChar(s.key[|s.key| - 1]);
    }
    hide Escape;
  }

  lemma {:induction false} KeyTextEnds(d: Dotted)
    requires Written(d)
    ensures var t := KeyText(d);
            t != "" && !IsSpace(t[0]) && !IsSpace(t[|t| - 1]) && t[0] != '[' && t[|t| - 1] != ']'
  {
    SpellEnds(d.s);
    hide Spell, IsSpace, CanSpell;
    if d.More? {
      KeyTextEnds(d.rest);
    }
  }

  lemma {:induction false} TrimBefore(gap: string, s: string)
    requires Spaces(gap)
    ensures TrimLeft(gap + s) == TrimLeft(s) && TrimSpace(gap + s) == TrimSpace(s)
  {
    hide IsSpace;
    if gap == "" {
      assert gap + s == s;
    } else {
      assert (gap + s)[0] == gap[0] && (gap + s)[1..] == gap[1..] + s;
      TrimBefore(gap[1..], s);
    }
  }

  lemma Assoc(a: string, b: string, c: string)
    ensures a + b + c == a + (b + c)
  {
  }

  /** The segment a spelling stands for, whatever white space follows it. */
  lemma SegmentRead(s: Spelled, gap: string, tail: string)
    requires CanSpell(s) && Spaces(gap) && (tail == "" || tail[0] == '.')
    ensures var all := Spell(s) + gap + tail;
            all != "" && Segment(all).Some? && Segment(all).value.0 == s.key
            && TrimSpace(Segment(all).value.1) == TrimSpace(tail)
  {
    SpellEnds(s);
    match s
    case Bare(k) => BareSegment(k, gap, tail);
    case Quoted(k) => QuotedSegment(k, gap, tail);
    case Literal(k) => LiteralSegment(k, gap, tail);
  }

  lemma BareSegment(k: string, gap: string, tail: string)
    requires BareKey(k) && Spaces(gap) && (tail == "" || tail[0] == '.')
    ensures Segment(k + gap + tail) == Some((k, tail))
  {
    var all := k + gap + tail;
    NoDot(k);
    forall i | 0 <= i < |k + gap| ensures (k + gap)[i] != '.' {
      assert (k + gap)[i] == if i < |k| then k[i] else gap[i - |k|];
      assert i < |k| ==> BareChar(k[i]);
      assert i >= |k| ==> IsSpace(gap[i - |k|]);
    }
    IndexOfThen(k + gap, tail, '.');
    assert all[..|k + gap|] == k + gap && all[|k + gap|..] == tail && all[0] == k[0];
    hide IsSpace, TrimSpace, BareChar;
    TrimMore(k, gap);
    TrimNothing(k);
  }

  lemma QuotedSegment(k: string, gap: string, tail: string)
    requires Spaces(gap)
    ensures var s := Segment(TomlString(k) + gap + tail);
            s.Some? && s.value.0 == k && TrimSpace(s.value.1) == TrimSpace(tail)
  {
    var all := TomlString(k) + gap + tail;
    UnquoteEscape(k);
    QuoteEndEscape(k, gap + tail);
    hide Escape, Unquote, QuoteEnd, TrimSpace;
    assert all[0] == '"' && all[1..] == Escape(k) + "\"" + (gap + tail);
    assert all[1..][..|Escape(k)|] == Escape(k) && all[1..][|Escape(k)| + 1..] == gap + tail;
    TrimBefore(gap, tail);
  }

  lemma LiteralSegment(k: string, gap: string, tail: string)
    requires Unquoted(k) && Spaces(gap)
    ensures var s := Segment("'" + (k + "'") + gap + tail);
            s.Some? && s.value.0 == k && TrimSpace(s.value.1) == TrimSpace(tail)
  {
    var quote := "'";
    assert |quote| == 1 && quote[0] == '\'';
    Assoc(quote, k + quote, gap);
    Assoc(quote, k + quote + gap, tail);
    Assoc(k + quote, gap, tail);
    Assoc(k, quote, gap + tail);
    IndexOfThen(k, quote + (gap + tail), '\'');
    TrimBefore(gap, tail);
    hide IndexOf, TrimSpace;
    LiteralRead(quote + (k + (quote + (gap + tail))), k, quote, gap + tail);
  }

  lemma LiteralRead(all: string, k: string, quote: string, more: string)
    requires |quote| == 1 && quote[0] == '\'' && all == quote + (k + (quote + more)) && IndexOf(k + (quote + more), '\'') == |k|
    ensures Segment(all) == Some((k, more))
  {
    hide IndexOf;
    assert all[1..] == k + (quote + more) && all[0] == '\'';
    assert all[1..][..|k|] == k && all[1..][|k| + 1..] == more;
  }

  lemma SegmentShorter(s: string)
    requires s != "" && Segment(s).Some?
    ensures |Segment(s).value.1| <= |s|
  {
    hide TrimSpace, Unquote, BareKey;
  }

  /** A key means what it means without the white space around it. */
  lemma SplitTrimmed(a: string, b: string)
    requires TrimSpace(a) == TrimSpace(b)
    ensures SplitKey(a) == SplitKey(b)
  {
    hide Segment, TrimSpace;
    TrimShorter(a);
    TrimShorter(b);
    var t := TrimSpace(a);
    if t != "" && Segment(t).Some? {
      SegmentShorter(t);
      TrimShorter(Segment(t).value.1);
    }
  }

  /** A dotted key is read as its segments. */
  lemma {:induction false} DottedRead(d: Dotted)
    requires Written(d)
    ensures SplitKey(KeyText(d)) == Some(Keys(d))
  {
    KeyTextEnds(d);
    TrimNothing(KeyText(d));
    TrimNothing("");
    match d
    case Last(s) =>
      SegmentRead(s, "", "");
      assert Spell(s) + "" + "" == Spell(s);
      hide Segment, TrimSpace, Spell, IsSpace, CanSpell;
    case More(s, before, after, rest) =>
      DottedRead(rest);
      KeyTextEnds(rest);
      MoreRead(s, before, after, KeyText(rest));
  }

  lemma MoreEnds(spell: string, before: string, after: string, text: string)
    requires spell != "" && text != ""
    ensures var tail := "." + (after + text);
            var all := spell + before + tail;
            all != "" && all[0] == spell[0] && all[|all| - 1] == text[|text| - 1] && |tail| <= |all|
            && tail[0] == '.' && tail[|tail| - 1] == text[|text| - 1] && tail[1..] == after + text
  {
  }

  lemma MoreRead(s: Spelled, before: string, after: string, text: string)
    requires CanSpell(s) && Spaces(before) && Spaces(after) && SplitKey(text).Some?
    requires text != "" && !IsSpace(text[0]) && !IsSpace(text[|text| - 1])
    ensures SplitKey(Spell(s) + before + ("." + (after + text))) == Some([s.key] + SplitKey(text).value)
  {
    var tail := "." + (after + text);
    var all := Spell(s) + before + tail;
    assert !IsSpace('.');
    hide Segment, TrimSpace, Spell, IsSpace, CanSpell, SplitKey, Spaces;
    SpellEnds(s);
    MoreEnds(Spell(s), before, after, text);
    TrimNothing(all);
    TrimNothing(tail);
    SegmentRead(s, before, tail);
    TrimBefore(after, text);
    SplitTrimmed(after + text, text);
    OneMore(all, s.key, tail);
  }

  lemma OneMore(all: string, key: string, tail: string)
    requires TrimSpace(all) == all && all != "" && tail != "" && tail[0] == '.' && |tail| <= |all|
    requires Segment(all).Some? && Segment(all).value.0 == key && TrimSpace(Segment(all).value.1) == tail
    requires SplitKey(tail[1..]).Some?
    ensures SplitKey(all) == Some([key] + SplitKey(tail[1..]).value)
  {
    hide Segment, TrimSpace;
  }

  // ---------------------------------------------------------------------
  // The brackets
  // ---------------------------------------------------------------------

  lemma {:induction false} CloseSpaces(gap: string, tail: string)
    requires Spaces(gap) && Close(tail, None).Some?
    ensures Close(gap + tail, None) == Some(|gap| + Close(tail, None).value)
  {
    hide Close;
    if gap == "" {
      assert gap + tail == tail;
    } else {
      CloseSpaces(gap[1..], tail);
      assert IsSpace(gap[0]);
      assert (gap + tail)[0] == gap[0] && (gap + tail)[1..] == gap[1..] + tail;
      CloseOne(gap + tail, gap[1..] + tail, None);
    }
  }

  lemma {:induction false} CloseLiteral(k: string, tail: string)
    requires Unquoted(k) && Close(tail, None).Some?
    ensures Close(k + ("'" + tail), Some('\'')) == Some(|k| + 1 + Close(tail, None).value)
  {
    var all := k + ("'" + tail);
    if k == "" {
      assert all[0] == '\'' && all[1..] == tail;
    } else {
      CloseLiteral(k[1..], tail);
      assert all[0] == k[0] && all[1..] == k[1..] + ("'" + tail);
      assert k[0] in k;
    }
  }

  lemma BareClose(k: string, tail: string)
    requires BareKey(k) && Close(tail, None).Some?
    ensures Close(k + tail, None) == Some(|k| + Close(tail, None).value)
  {
    hide Close, BareChar;
    ClosePlain(k, tail, None);
  }

  lemma QuotedClose(k: string, tail: string)
    requires Close(tail, None).Some?
    ensures Close(TomlString(k) + tail, None) == Some(|TomlString(k)| + Close(tail, None).value)
  {
    var all, more := TomlString(k) + tail, Escape(k) + "\"" + tail;
    hide Close, Escape;
    CloseEscape(k, tail);
    assert all[0] == '"' && all[1..] == more;
    OpenQuote(all, more, '"');
  }

  lemma OpenQuote(all: string, more: string, quote: char)
    requires all != "" && all[0] == quote && all[1..] == more && (quote == '"' || quote == '\'')
    requires Close(more, Some(quote)).Some?
    ensures Close(all, None) == Some(1 + Close(more, Some(quote)).value)
  {
  }

  lemma LiteralClose(k: string, tail: string)
    requires Unquoted(k) && Close(tail, None).Some?
    ensures Close("'" + (k + "'") + tail, None) == Some(|k| + 2 + Close(tail, None).value)
  {
    hide Close, Unquoted;
    CloseLiteral(k, tail);
    var quote := "'";
    assert |quote| == 1;
    Assoc(quote, k + quote, tail);
    Assoc(k, quote, tail);
    LiteralOpens(quote + (k + (quote + tail)), k + (quote + tail), |k| + 1 + Close(tail, None).value);
  }

  lemma LiteralOpens(all: string, more: string, n: nat)
    requires all == "'" + more && Close(more, Some('\'')) == Some(n)
    ensures Close(all, None) == Some(1 + n)
  {
    assert all[0] == '\'' && all[1..] == more;
    hide Close;
    OpenQuote(all, more, '\'');
  }

  lemma CloseSpell(s: Spelled, tail: string)
    requires CanSpell(s) && Close(tail, None).Some?
    ensures Close(Spell(s) + tail, None) == Some(|Spell(s)| + Close(tail, None).value)
  {
    hide Close, BareKey, TomlString;
    match s
    case Bare(k) => BareClose(k, tail);
    case Quoted(k) => QuotedClose(k, tail);
    case Literal(k) => LiteralClose(k, tail);
  }

  predicate IsDot(dot: string) { dot == "." }

  predicate Closes(tail: string) { Close(tail, None).Some? }

  /** The scan goes through `a` to what closes `tail`. */
  predicate Passes(a: string, tail: string) {
    Closes(tail) && Close(a + tail, None) == Some(|a| + Close(tail, None).value)
  }

  lemma Chain(a: string, b: string, tail: string)
    requires Passes(b, tail) && Passes(a, b + tail)
    ensures Passes(a + b, tail)
  {
    hide Close;
    Assoc(a, b, tail);
  }

  lemma PassesCloses(a: string, tail: string)
    requires Passes(a, tail)
    ensures Closes(a + tail)
  {
    hide Close;
  }

  lemma PartsPass(s: Spelled, gap: string, dot: string, tail: string)
    requires CanSpell(s) && Spaces(gap) && IsDot(dot) && Closes(tail)
    ensures Passes(Spell(s), tail) && Passes(gap, tail) && Passes(dot, tail)
  {
    hide Close, CanSpell, Spell;
    CloseSpell(s, tail);
    CloseSpaces(gap, tail);
    CloseDot(dot, tail);
  }

  lemma MorePasses(s: Spelled, before: string, dot: string, after: string, text: string, tail: string)
    requires CanSpell(s) && Spaces(before) && Spaces(after) && IsDot(dot) && Passes(text, tail)
    ensures Passes(Spell(s) + before + (dot + (after + text)), tail)
  {
    hide *;
    PassesCloses(text, tail);
    PartsPass(s, after, dot, text + tail);
    Chain(after, text, tail);
    var part := after + text;
    PassesCloses(part, tail);
    PartsPass(s, after, dot, part + tail);
    Chain(dot, part, tail);
    var more := dot + part;
    PassesCloses(more, tail);
    PartsPass(s, before, dot, more + tail);
    PassesCloses(before, more + tail);
    PartsPass(s, before, dot, before + (more + tail));
    Chain(Spell(s), before, more + tail);
    Chain(Spell(s) + before, more, tail);
  }

  lemma {:induction false} DottedPasses(d: Dotted, tail: string)
    requires Written(d) && Closes(tail)
    ensures Passes(KeyText(d), tail)
  {
    hide Close, Spell, CanSpell, Spaces, Passes, Closes;
    match d
    case Last(s) =>
      PartsPass(s, "", ".", tail) by { NoSpaces(); }
    case More(s, before, after, rest) =>
      DottedPasses(rest, tail);
      MorePasses(s, before, ".", after, KeyText(rest), tail);
  }

  lemma NoSpaces()
    ensures Spaces("")
  {
  }

  lemma CloseDot(dot: string, tail: string)
    requires IsDot(dot) && Close(tail, None).Some?
    ensures |dot| == 1 && Close(dot + tail, None) == Some(1 + Close(tail, None).value)
  {
    assert (dot + tail)[0] == '.' && (dot + tail)[1..] == tail;
  }

  ghost predicate NoDoubleClose(s: string) { forall i, j :: 0 <= i < j < |s| && j == i + 1 ==> s[i] != ']' || s[j] != ']' }

  lemma {:induction false} DoubleCloseAt(inner: string, rest: string)
    requires NoDoubleClose(inner) && (inner == "" || inner[|inner| - 1] != ']')
    ensures DoubleClose(inner + "]]" + rest) == |inner|
  {
    var all := inner + "]]" + rest;
    if inner == "" {
      assert all == "]]" + rest && all[0] == ']' && all[1] == ']';
    } else {
      assert NoDoubleClose(inner[1..]) by {
        forall i, j | 0 <= i < j < |inner[1..]| && j == i + 1 ensures inner[1..][i] != ']' || inner[1..][j] != ']' {
          assert inner[1..][i] == inner[i + 1] && inner[1..][j] == inner[j + 1];
        }
      }
      DoubleCloseAt(inner[1..], rest);
      assert all[0] == inner[0] && all[1..] == inner[1..] + "]]" + rest;
      assert |inner| > 1 ==> all[1] == inner[1];
    }
  }

  // ---------------------------------------------------------------------
  // The line
  // ---------------------------------------------------------------------

  /** What may stand behind a header. */
  predicate Remark(rest: string) { TrimSpace(rest) == "" || TrimSpace(rest)[0] == '#' }

  /** A header line without the white space around it. */
  function HeaderText(inner: string, double: bool, rest: string): string {
    if double then "[[" + (inner + "]]" + rest) else "[" + (inner + "]" + rest)
  }

  lemma SingleParts(inner: string, rest: string)
    requires inner != ""
    ensures var t := HeaderText(inner, false, rest);
            t[0] == '[' && t[1] == inner[0] && t[1..] == inner + "]" + rest
            && t[1..|inner| + 1] == inner && t[|inner| + 2..] == rest && |t| == |inner| + 2 + |rest|
  {
  }

  lemma SingleHeader(line: string, inner: string, rest: string)
    requires TrimSpace(line) == HeaderText(inner, false, rest) && inner != "" && inner[0] != '['
    requires Close(inner + "]" + rest, None) == Some(|inner|)
    ensures TableHeader(line) == if Remark(rest) then SplitKey(inner) else None
  {
    SingleParts(inner, rest);
    hide SplitKey, Close, TrimSpace, DoubleClose, HeaderText, TableHeader, IsSpace;
    SingleOf(line, TrimSpace(line), inner, rest);
  }

  lemma SingleOf(line: string, t: string, inner: string, rest: string)
    requires TrimSpace(line) == t && |t| == |inner| + 2 + |rest| && inner != "" && t[0] == '[' && t[1] != '['
    requires t[1..|inner| + 1] == inner && t[|inner| + 2..] == rest && Close(t[1..], None) == Some(|inner|)
    ensures TableHeader(line) == if Remark(rest) then SplitKey(inner) else None
  {
    hide SplitKey, Close, TrimSpace, DoubleClose;
  }

  lemma DoubleParts(inner: string, rest: string)
    ensures var t := HeaderText(inner, true, rest);
            t[0] == '[' && t[1] == '[' && t[2..] == inner + "]]" + rest
            && t[2..|inner| + 2] == inner && t[|inner| + 4..] == rest && |t| == |inner| + 4 + |rest|
  {
  }

  lemma DoubleHeader(line: string, inner: string, rest: string)
    requires TrimSpace(line) == HeaderText(inner, true, rest) && DoubleClose(inner + "]]" + rest) == |inner|
    ensures TableHeader(line) == if Remark(rest) then SplitKey(inner) else None
  {
    DoubleParts(inner, rest);
    hide SplitKey, Close, TrimSpace, DoubleClose, HeaderText;
  }

  /** Main result: a bracketed dotted key is a header, of its segments, exactly if
      nothing but white space or a comment follows it. */
  lemma HeaderRead(line: string, d: Dotted, before: string, after: string, double: bool, rest: string)
    requires Written(d) && Spaces(before) && Spaces(after)
    requires TrimSpace(line) == HeaderText(before + (KeyText(d) + after), double, rest)
    requires double ==> NoDoubleClose(before + (KeyText(d) + after))
    ensures TableHeader(line) == if Remark(rest) then Some(Keys(d)) else None
  {
    var text := KeyText(d);
    var inner := before + (text + after);
    KeyTextEnds(d);
    DottedRead(d);
    assert before != "" ==> IsSpace(before[0]);
    assert after != "" ==> IsSpace(after[|after| - 1]);
    assert inner[0] == (if before == "" then text[0] else before[0]) != '[';
    assert inner[|inner| - 1] == (if after == "" then text[|text| - 1] else after[|after| - 1]) != ']';
    SplitTrimmed(inner, text) by {
      TrimBefore(before, text + after);
      TrimMore(text, after);
    }
    if double {
      hide *;
      DoubleCloseAt(inner, rest);
      DoubleHeader(line, inner, rest);
    } else {
      InnerCloses(d, before, after, rest);
      hide *;
      SingleHeader(line, inner, rest);
    }
  }

  lemma InnerCloses(d: Dotted, before: string, after: string, rest: string)
    requires Written(d) && Spaces(before) && Spaces(after)
    ensures var inner := before + (KeyText(d) + after); Close(inner + "]" + rest, None) == Some(|inner|)
  {
    CloseNow(rest);
    var end := "]" + rest;
    var text := KeyText(d);
    hide Close, KeyText, Written, Spaces;
    CloseSpaces(after, end);
    DottedPasses(d, after + end);
    Chain(text, after, end);
    CloseSpaces(before, text + after + end);
    Chain(before, text + after, end);
    Assoc(before + (text + after), "]", rest);
  }

  lemma CloseNow(rest: string)
    ensures Close("]" + rest, None) == Some(0)
  {
    assert ("]" + rest)[0] == ']';
  }
}
