/** Table headers of devvm.toml: how a name is written in one, and how a header
    line is read. */
module Toml {
  import opened Wrappers
  import opened Text

  // ---------------------------------------------------------------------
  // Writing
  // ---------------------------------------------------------------------

  predicate BareChar(c: char) { 'A' <= c <= 'Z' || 'a' <= c <= 'z' || '0' <= c <= '9' || c == '_' || c == '-' }

  predicate BareKey(k: string) { k != "" && forall i :: 0 <= i < |k| ==> BareChar(k[i]) }

  function HexDigit(n: nat): (c: char)
    requires n < 16
  {
    if n < 10 then ('0' as int + n) as char else ('A' as int + n - 10) as char
  }

  function Hex4(n: nat): string
    requires n < 0x1_0000
  {
    [HexDigit(n / 0x1000), HexDigit(n / 0x100 % 16), HexDigit(n / 16 % 16), HexDigit(n % 16)]
  }

  function EscapeRune(c: char): string {
    if c == '"' then "\\\""
    else if c == '\\' then "\\\\"
    else if c == '\n' then "\\n"
    else if c == '\t' then "\\t"
    else if c < ' ' || c == '\U{7F}' || c == '\U{FFFD}' then "\\u" + Hex4(c as int)
    else [c]
  }

  function Escape(s: string): string { if s == "" then "" else EscapeRune(s[0]) + Escape(s[1..]) }

  function TomlString(s: string): string { "\"" + Escape(s) + "\"" }

  function TomlKey(k: string): string { if BareKey(k) then k else TomlString(k) }

  function MachineTable(name: string): string { "[machines." + TomlKey(name) + "]" }

  lemma {:induction false} EscapeNext(s: string, i: nat)
    requires i < |s|
    ensures Escape(s[..i + 1]) == Escape(s[..i]) + EscapeRune(s[i])
  {
    hide EscapeRune;
    if i == 0 {
      assert s[..1][1..] == "";
    } else {
      EscapeNext(s[1..], i - 1);
      assert s[..i + 1][1..] == s[1..][..i] && s[..i][1..] == s[1..][..i - 1];
    }
  }

  /** tomlString: escape rune by rune. */
  method WriteString(s: string) returns (out: string)
    ensures out == TomlString(s)
  {
    var body := "";
    hide EscapeRune;
    for i := 0 to |s|
      invariant body == Escape(s[..i])
    {
      EscapeNext(s, i);
      body := body + EscapeRune(s[i]);
    }
    assert s[..|s|] == s;
    out := "\"" + body + "\"";
  }

  // ---------------------------------------------------------------------
  // Reading
  // ---------------------------------------------------------------------

  function HexValue(c: char): Option<nat> {
    if '0' <= c <= '9' then Some((c as int - '0' as int) as nat)
    else if 'a' <= c <= 'f' then Some((c as int - 'a' as int) as nat + 10)
    else if 'A' <= c <= 'F' then Some((c as int - 'A' as int) as nat + 10)
    else None
  }

  function HexNumber(s: string): Option<nat> {
    if s == "" then Some(0)
    else
      var high, low := HexNumber(s[..|s| - 1]), HexValue(s[|s| - 1]);
      if high.None? || low.None? then None else Some(16 * high.value + low.value)
  }

  predicate Scalar(n: nat) { n < 0xD800 || 0xE000 <= n < 0x11_0000 }

  /** The rune an escape stands for, `s` being what follows its backslash, and how
      long it is. Escapes for single bytes past ASCII are not text and read as none. */
  function EscapedRune(s: string): Option<(char, nat)> {
    if s == "" then None
    else match s[0]
         case 'a' => Some(('\U{7}', 1))
         case 'b' => Some(('\U{8}', 1))
         case 'f' => Some(('\U{C}', 1))
         case 'n' => Some(('\n', 1))
         case 'r' => Some(('\r', 1))
         case 't' => Some(('\t', 1))
         case 'v' => Some(('\U{B}', 1))
         case '\\' => Some(('\\', 1))
         case '"' => Some(('"', 1))
         case 'x' => HexRune(s, 2, 0x80)
         case 'u' => HexRune(s, 4, 0x11_0000)
         case 'U' => HexRune(s, 8, 0x11_0000)
         case _ => OctalRune(s)
  }

  function HexRune(s: string, n: nat, limit: nat): Option<(char, nat)> {
    if |s| < n + 1 then None
    else
      var v := HexNumber(s[1..n + 1]);
      if v.None? || v.value >= limit || !Scalar(v.value) then None else Some((v.value as char, n + 1))
  }

  function OctalRune(s: string): Option<(char, nat)> {
    if |s| < 3 || !(forall i :: 0 <= i < 3 ==> '0' <= s[i] <= '7') then None
    else
      var v := 64 * (s[0] as int - '0' as int) + 8 * (s[1] as int - '0' as int) + (s[2] as int - '0' as int);
      if 0 <= v < 0x80 then Some((v as char, 3)) else None
  }

  /** strconv.Unquote of a double-quoted string, given what is between the quotes. */
  function Unquote(s: string): Option<string>
    decreases |s|
  {
    if s == "" then Some("")
    else if s[0] == '"' || s[0] == '\n' then None
    else if s[0] != '\\' then
      var rest := Unquote(s[1..]);
      if rest.None? then None else Some([s[0]] + rest.value)
    else
      var e := EscapedRune(s[1..]);
      if e.None? || e.value.1 > |s| - 1 then None
      else
        var rest := Unquote(s[1 + e.value.1..]);
        if rest.None? then None else Some([e.value.0] + rest.value)
  }

  function Shift(r: Option<nat>, n: nat): Option<nat> { if r.None? then None else Some(r.value + n) }

  /** The first closing quote in `s` that no backslash takes away. */
  function QuoteEnd(s: string): (r: Option<nat>)
    ensures r.Some? ==> r.value < |s|
    decreases |s|
  {
    if s == "" then None
    else if s[0] == '"' then Some(0)
    else if s[0] != '\\' then Shift(QuoteEnd(s[1..]), 1)
    else if |s| < 2 then None
    else Shift(QuoteEnd(s[2..]), 2)
  }

  function IndexOf(s: string, c: char): (i: nat)
    ensures i <= |s| && (i < |s| ==> s[i] == c) && forall j :: 0 <= j < i ==> s[j] != c
  {
    if s == "" || s[0] == c then 0 else 1 + IndexOf(s[1..], c)
  }

  /** The first segment of a dotted key, and what follows it. */
  function Segment(s: string): Option<(string, string)>
    requires s != ""
  {
    if s[0] == '"' then
      var end := QuoteEnd(s[1..]);
      if end.None? then None
      else
        var u := Unquote(s[1..][..end.value]);
        if u.None? then None else Some((u.value, s[1..][end.value + 1..]))
    else if s[0] == '\'' then
      var end := IndexOf(s[1..], '\'');
      if end == |s| - 1 then None else Some((s[1..][..end], s[1..][end + 1..]))
    else
      var end := IndexOf(s, '.');
      var seg := TrimSpace(s[..end]);
      if BareKey(seg) then Some((seg, s[end..])) else None
  }

  /** splitKey. */
  function SplitKey(s: string): Option<seq<string>>
    decreases |s|
  {
    TrimShorter(s);
    var t := TrimSpace(s);
    if t == "" then None
    else
      var g := Segment(t);
      if g.None? then None
      else
        TrimShorter(g.value.1);
        var rest := TrimSpace(g.value.1);
        if rest == "" then Some([g.value.0])
        else if rest[0] != '.' || |rest| > |s| then None
        else
          var more := SplitKey(rest[1..]);
          if more.None? then None else Some([g.value.0] + more.value)
  }

  /** closingBracket, from somewhere in the header on. */
  function Close(s: string, quote: Option<char>): (r: Option<nat>)
    ensures r.Some? ==> r.value < |s|
    decreases |s|
  {
    if s == "" then None
    else if quote.None? then
      if s[0] == ']' then Some(0)
      else Shift(Close(s[1..], if s[0] == '"' || s[0] == '\'' then Some(s[0]) else None), 1)
    else if s[0] == '\\' && quote.value == '"' then
      if |s| < 2 then None else Shift(Close(s[2..], quote), 2)
    else Shift(Close(s[1..], if s[0] == quote.value then None else quote), 1)
  }

  /** The first "]]" of `s`, |s| for none. */
  function DoubleClose(s: string): (i: nat)
    ensures i == |s| || i + 1 < |s|
  {
    if |s| < 2 then |s| else if s[0] == ']' && s[1] == ']' then 0 else DoubleClose(s[1..]) + 1
  }

  /** tableHeader: the segments of a `[a.b]` or `[[a.b]]` line, None for another. */
  function TableHeader(line: string): Option<seq<string>> {
    var t := TrimSpace(line);
    if t == "" || t[0] != '[' then None
    else
      var double := |t| > 1 && t[1] == '[';
      var i := if double then DoubleClose(t[2..]) + 2 else
                 var r := Close(t[1..], None);
                 if r.None? then |t| else r.value + 1;
      if i == |t| then None
      else
        var inner := if double then t[2..i] else t[1..i];
        var rest := TrimSpace(t[i + if double then 2 else 1..]);
        if rest != "" && rest[0] != '#' then None else SplitKey(inner)
  }

  /** Close, from position `k` of `t` on and in positions of `t`. */
  ghost function CloseFrom(t: string, k: nat, quote: Option<char>): Option<nat> {
    if k > |t| then None
    else match Close(t[k..], quote) case None => None case Some(n) => Some(n + k)
  }

  lemma CloseStep(t: string, k: nat, quote: Option<char>)
    requires k < |t|
    ensures CloseFrom(t, k, quote)
            == if quote.None? && t[k] == ']' then Some(k)
               else if quote == Some('"') && t[k] == '\\' then CloseFrom(t, k + 2, quote)
               else if quote.Some? then CloseFrom(t, k + 1, if quote == Some(t[k]) then None else quote)
               else CloseFrom(t, k + 1, if t[k] == '"' || t[k] == '\'' then Some(t[k]) else None)
  {
    assert t[k..][1..] == t[k + 1..];
    assert k + 2 <= |t| ==> t[k..][2..] == t[k + 2..];
  }

  /** closingBracket. */
  method ClosingBracket(t: string) returns (i: Option<nat>)
    ensures i == CloseFrom(t, 1, None)
  {
    var k, quote := 1, None;
    hide Close;
    while k < |t|
      invariant CloseFrom(t, 1, None) == CloseFrom(t, k, quote)
      decreases |t| - k
    {
      var c := t[k];
      CloseStep(t, k, quote);
      hide CloseFrom;
      if quote.Some? {
        if c == '\\' && quote == Some('"') {
          k := k + 1;
        } else if quote == Some(c) {
          quote := None;
        }
      } else if c == '"' || c == '\'' {
        quote := Some(c);
      } else if c == ']' {
        return Some(k);
      }
      k := k + 1;
    }
    NothingAfter(t, k, quote);
    return None;
  }

  lemma NothingAfter(t: string, k: nat, quote: Option<char>)
    requires k >= |t|
    ensures CloseFrom(t, k, quote) == None
  {
  }

  /** What a key reads as, after the segments read before it. */
  ghost function After(segs: seq<string>, rest: Option<seq<string>>): Option<seq<string>> {
    if rest.None? then None else Some(segs + rest.value)
  }

  /** splitKey. */
  method ReadKey(key: string) returns (r: Option<seq<string>>)
    ensures r == SplitKey(key)
  {
    var s, segs: seq<string> := key, [];
    hide Segment, TrimSpace;
    assert After([], SplitKey(key)) == SplitKey(key) by { assert SplitKey(key).Some? ==> [] + SplitKey(key).value == SplitKey(key).value; }
    while true
      invariant SplitKey(key) == After(segs, SplitKey(s))
      decreases |s|
    {
      TrimShorter(s);
      var t := TrimSpace(s);
      if t == "" {
        return None;
      }
      var g := Segment(t);
      if g.None? {
        return None;
      }
      TrimShorter(g.value.1);
      var rest := TrimSpace(g.value.1);
      if rest == "" {
        return Some(segs + [g.value.0]);
      }
      if rest[0] != '.' || |rest| > |s| {
        return None;
      }
      AfterOne(segs, g.value.0, SplitKey(rest[1..]));
      assert SplitKey(s) == After([g.value.0], SplitKey(rest[1..]));
      segs := segs + [g.value.0];
      s := rest[1..];
    }
  }

  lemma AfterOne(segs: seq<string>, seg: string, rest: Option<seq<string>>)
    ensures After(segs, After([seg], rest)) == After(segs + [seg], rest)
  {
    if rest.Some? {
      assert segs + ([seg] + rest.value) == segs + [seg] + rest.value;
    }
  }

  // ---------------------------------------------------------------------
  // What is written is read
  // ---------------------------------------------------------------------

  lemma HexDigitRead(n: nat)
    requires n < 16
    ensures HexValue(HexDigit(n)) == Some(n)
    ensures BareChar(HexDigit(n))
  {
  }

  lemma HexAppend(s: string, x: nat, d: nat)
    requires HexNumber(s) == Some(x) && d < 16
    ensures HexNumber(s + [HexDigit(d)]) == Some(16 * x + d)
  {
    HexDigitRead(d);
    assert (s + [HexDigit(d)])[..|s|] == s;
  }

  lemma HexArith(n: nat)
    ensures 16 * (16 * (16 * (n / 0x1000) + n / 0x100 % 16) + n / 16 % 16) + n % 16 == n
  {
    assert n / 16 / 16 == n / 0x100 && n / 0x100 / 16 == n / 0x1000;
  }

  lemma Hex4Read(n: nat)
    requires n < 0x1_0000
    ensures HexNumber(Hex4(n)) == Some(n)
  {
    var a, b, c, d := n / 0x1000, n / 0x100 % 16, n / 16 % 16, n % 16;
    assert HexNumber("") == Some(0);
    HexArith(n);
    assert a < 16;
    var h1 := "" + [HexDigit(a)];
    var h2 := h1 + [HexDigit(b)];
    var h3 := h2 + [HexDigit(c)];
    assert h3 + [HexDigit(d)] == Hex4(n);
    hide HexNumber, HexDigit, Hex4;
    HexAppend("", 0, a);
    HexAppend(h1, a, b);
    HexAppend(h2, 16 * a + b, c);
    HexAppend(h3, 16 * (16 * a + b) + c, d);
  }

  /** The three shapes an escaped rune takes. */
  lemma EscapeShape(c: char)
    ensures var e := EscapeRune(c);
            || (e == [c] && c != '"' && c != '\\' && c >= ' ')
            || (|e| == 2 && e[0] == '\\' && e[1] >= ' ')
            || (e == "\\u" + Hex4(c as int) && (c < ' ' || c == '\U{7F}' || c == '\U{FFFD}'))
  {
  }

  lemma {:induction false} UnquoteEscape(s: string)
    ensures Unquote(Escape(s)) == Some(s)
  {
    if s != "" {
      hide Unquote, EscapeRune;
      UnquoteEscape(s[1..]);
      UnquoteRune(s[0], Escape(s[1..]));
      assert [s[0]] + s[1..] == s;
    }
  }

  lemma UnquoteRune(c: char, rest: string)
    requires Unquote(rest).Some?
    ensures Unquote(EscapeRune(c) + rest) == Some([c] + Unquote(rest).value)
  {
    EscapeShape(c);
    var e := EscapeRune(c);
    var all := e + rest;
    if e == [c] {
      assert all[1..] == rest;
    } else if |e| == 2 {
      assert all[1..] == [e[1]] + rest && all[2..] == rest;
      assert EscapedRune([e[1]] + rest) == Some((c, 1));
    } else {
      HexEscapeRead(c, rest);
      assert all[1..] == "u" + Hex4(c as int) + rest && all[6..] == rest;
      hide EscapedRune, Hex4;
    }
  }

  lemma HexEscapeRead(c: char, rest: string)
    requires (c as int) < 0x1_0000
    ensures EscapedRune("u" + Hex4(c as int) + rest) == Some((c, 5))
  {
    var t := "u" + Hex4(c as int) + rest;
    Hex4Read(c as int);
    assert t[0] == 'u' && t[1..5] == Hex4(c as int);
    hide HexNumber, Hex4;
  }

  lemma EscapeFirst(s: string, rest: string)
    requires s != ""
    ensures Escape(s) + "\"" + rest == EscapeRune(s[0]) + (Escape(s[1..]) + "\"" + rest)
    ensures |Escape(s)| == |EscapeRune(s[0])| + |Escape(s[1..])|
  {
    hide EscapeRune;
  }

  lemma {:induction false} QuoteEndEscape(s: string, rest: string)
    ensures QuoteEnd(Escape(s) + "\"" + rest) == Some(|Escape(s)|)
  {
    if s == "" {
      assert Escape(s) + "\"" + rest == "\"" + rest;
      assert ("\"" + rest)[0] == '"';
    } else {
      hide QuoteEnd;
      EscapeFirst(s, rest);
      QuoteEndEscape(s[1..], rest);
      hide Escape;
      QuoteEndRune(s[0], Escape(s[1..]) + "\"" + rest);
    }
  }

  lemma QuoteEndRune(c: char, tail: string)
    requires QuoteEnd(tail).Some?
    ensures QuoteEnd(EscapeRune(c) + tail) == Some(|EscapeRune(c)| + QuoteEnd(tail).value)
  {
    EscapeShape(c);
    var e := EscapeRune(c);
    var h := Hex4Plain(c);
    hide EscapeRune, QuoteEnd, Hex4, BareChar;
    var all := e + tail;
    if e == [c] {
      assert all[0] == c && all[1..] == tail;
      QuoteEndOne(all, tail);
    } else if |e| == 2 {
      assert all[0] == e[0] && all[2..] == tail;
      QuoteEndTwo(all, tail);
    } else {
      QuoteEndPlain(h, tail);
      assert all[0] == e[0] && all[2..] == h + tail;
      QuoteEndTwo(all, h + tail);
    }
  }

  lemma QuoteEndOne(all: string, tail: string)
    requires all != "" && all[1..] == tail && all[0] != '"' && all[0] != '\\' && QuoteEnd(tail).Some?
    ensures QuoteEnd(all) == Some(1 + QuoteEnd(tail).value)
  {
  }

  lemma QuoteEndTwo(all: string, tail: string)
    requires |all| >= 2 && all[2..] == tail && all[0] == '\\' && QuoteEnd(tail).Some?
    ensures QuoteEnd(all) == Some(2 + QuoteEnd(tail).value)
  {
  }

  /** The four digits of an escape, which mean nothing to any of the scanners. */
  lemma Hex4Plain(c: char) returns (h: string)
    ensures (c as int) < 0x1_0000 ==> h == Hex4(c as int) && forall i :: 0 <= i < |h| ==> BareChar(h[i])
  {
    if (c as int) < 0x1_0000 {
      h := Hex4(c as int);
      var n := c as int;
      HexDigitRead(n / 0x1000);
      HexDigitRead(n / 0x100 % 16);
      HexDigitRead(n / 16 % 16);
      HexDigitRead(n % 16);
      hide HexDigit;
    } else {
      h := "";
    }
  }

  lemma {:induction false} QuoteEndPlain(h: string, tail: string)
    requires QuoteEnd(tail).Some? && forall i :: 0 <= i < |h| ==> BareChar(h[i])
    ensures QuoteEnd(h + tail) == Some(|h| + QuoteEnd(tail).value)
  {
    hide QuoteEnd;
    if h == "" {
      assert h + tail == tail;
    } else {
      QuoteEndPlain(h[1..], tail);
      assert BareChar(h[0]);
      assert (h + tail)[0] == h[0] && (h + tail)[1..] == h[1..] + tail;
      QuoteEndOne(h + tail, h[1..] + tail);
    }
  }

  lemma {:induction false} CloseEscape(s: string, rest: string)
    requires Close(rest, None).Some?
    ensures Close(Escape(s) + "\"" + rest, Some('"')) == Some(|Escape(s)| + 1 + Close(rest, None).value)
  {
    if s == "" {
      assert Escape(s) + "\"" + rest == "\"" + rest;
      assert ("\"" + rest)[0] == '"' && ("\"" + rest)[1..] == rest;
    } else {
      hide Close;
      EscapeFirst(s, rest);
      CloseEscape(s[1..], rest);
      hide Escape;
      CloseRune(s[0], Escape(s[1..]) + "\"" + rest);
    }
  }

  lemma CloseRune(c: char, tail: string)
    requires Close(tail, Some('"')).Some?
    ensures Close(EscapeRune(c) + tail, Some('"')) == Some(|EscapeRune(c)| + Close(tail, Some('"')).value)
  {
    EscapeShape(c);
    var e := EscapeRune(c);
    var h := Hex4Plain(c);
    hide EscapeRune, Close, Hex4, BareChar;
    var all := e + tail;
    if e == [c] {
      assert all[0] == c && all[1..] == tail;
      CloseOne(all, tail, Some('"'));
    } else if |e| == 2 {
      assert all[0] == e[0] && all[2..] == tail;
      CloseTwo(all, tail);
    } else {
      ClosePlain(h, tail, Some('"'));
      assert all[0] == e[0] && all[2..] == h + tail;
      CloseTwo(all, h + tail);
    }
  }

  lemma CloseOne(all: string, tail: string, quote: Option<char>)
    requires all != "" && all[1..] == tail && Close(tail, quote).Some? && (quote.Some? ==> quote.value == '"')
    requires all[0] != '"' && all[0] != '\\' && (quote.None? ==> all[0] != '\'' && all[0] != ']')
    ensures Close(all, quote) == Some(1 + Close(tail, quote).value)
  {
  }

  lemma CloseTwo(all: string, tail: string)
    requires |all| >= 2 && all[0] == '\\' && all[2..] == tail && Close(tail, Some('"')).Some?
    ensures Close(all, Some('"')) == Some(2 + Close(tail, Some('"')).value)
  {
  }

  /** Text of bare characters and dots. */
  lemma {:induction false} ClosePlain(h: string, tail: string, quote: Option<char>)
    requires Close(tail, quote).Some? && (quote.Some? ==> quote.value == '"')
    requires forall i :: 0 <= i < |h| ==> BareChar(h[i]) || h[i] == '.'
    ensures Close(h + tail, quote) == Some(|h| + Close(tail, quote).value)
  {
    hide Close;
    if h == "" {
      assert h + tail == tail;
    } else {
      ClosePlain(h[1..], tail, quote);
      assert BareChar(h[0]) || h[0] == '.';
      assert (h + tail)[0] == h[0] && (h + tail)[1..] == h[1..] + tail;
      CloseOne(h + tail, h[1..] + tail, quote);
    }
  }

  lemma KeyRead(k: string)
    ensures SplitKey(TomlKey(k)) == Some([k])
  {
    var t := TomlKey(k);
    KeyEnds(k);
    TrimNothing(t);
    assert Segment(t) == Some((k, "")) by {
      if BareKey(k) {
        NoDot(k);
        TrimNothing(k);
      } else {
        UnquoteEscape(k);
        QuoteEndEscape(k, "");
        assert t[1..] == Escape(k) + "\"" + "";
        assert t[1..][..|Escape(k)|] == Escape(k) && t[1..][|Escape(k)| + 1..] == "";
      }
    }
    hide Segment, TomlKey;
  }

  lemma {:induction false} IndexOfThen(a: string, rest: string, c: char)
    requires (forall i :: 0 <= i < |a| ==> a[i] != c) && (rest == "" || rest[0] == c)
    ensures IndexOf(a + rest, c) == |a|
  {
    if a == "" {
      assert a + rest == rest;
    } else {
      assert (a + rest)[0] == a[0] && (a + rest)[1..] == a[1..] + rest;
      IndexOfThen(a[1..], rest, c);
    }
  }

  lemma NoDot(k: string)
    requires BareKey(k)
    ensures IndexOf(k, '.') == |k| && !IsSpace(k[0]) && !IsSpace(k[|k| - 1])
    ensures k[0] != '"' && k[0] != '\'' && k[..|k|] == k && k[|k|..] == ""
  {
    assert BareChar(k[0]) && BareChar(k[|k| - 1]);
    IndexOfThen(k, "", '.');
    assert k + "" == k;
  }

  lemma KeyEnds(k: string)
    ensures var t := TomlKey(k); t != "" && !IsSpace(t[0]) && !IsSpace(t[|t| - 1])
  {
    if BareKey(k) {
      NoDot(k);
    }
  }

  const MACHINES := "machines"

  /** The part of the header between its brackets. */
  lemma InnerRead(k: string)
    ensures SplitKey(MACHINES + "." + TomlKey(k)) == Some([MACHINES, k])
  {
    var key := TomlKey(k);
    KeyRead(k);
    KeyEnds(k);
    MachinesBare();
    NoDot(MACHINES);
    MachinesSegment("." + key);
    hide *;
    DottedKey(MACHINES, key, k);
  }

  lemma DottedKey(first: string, key: string, k: string)
    requires first != "" && !IsSpace(first[0]) && key != "" && !IsSpace(key[0]) && !IsSpace(key[|key| - 1])
    requires Segment(first + ("." + key)) == Some((first, "." + key)) && SplitKey(key) == Some([k])
    ensures SplitKey(first + "." + key) == Some([first, k])
  {
    var s, rest := first + "." + key, "." + key;
    assert s == first + rest && rest[1..] == key && s[0] == first[0] && s[|s| - 1] == key[|key| - 1];
    assert rest[|rest| - 1] == key[|key| - 1] && !IsSpace(rest[0]);
    hide Segment, TrimSpace, SplitKey, IsSpace;
    TrimNothing(s);
    TrimNothing(rest);
    NextSegment(s, first, rest);
    assert [first] + [k] == [first, k];
  }

  lemma NextSegment(s: string, first: string, rest: string)
    requires TrimSpace(s) == s && TrimSpace(rest) == rest && s != "" && rest != "" && rest[0] == '.' && |rest| <= |s|
    requires Segment(s) == Some((first, rest)) && SplitKey(rest[1..]).Some?
    ensures SplitKey(s) == Some([first] + SplitKey(rest[1..]).value)
  {
    hide Segment, TrimSpace, IsSpace;
  }

  lemma MachinesSegment(rest: string)
    requires rest != "" && rest[0] == '.'
    ensures Segment(MACHINES + rest) == Some((MACHINES, rest))
  {
    var s := MACHINES + rest;
    MachinesBare();
    NoDot(MACHINES);
    TrimNothing(MACHINES);
    IndexOfThen(MACHINES, rest, '.');
    assert s[..|MACHINES|] == MACHINES && s[|MACHINES|..] == rest && s[0] == MACHINES[0];
    hide IndexOf, TrimSpace;
  }

  lemma MachinesBare()
    ensures BareKey(MACHINES)
  {
    forall i | 0 <= i < |MACHINES| ensures BareChar(MACHINES[i]) {
    }
  }

  /** What `config add` writes as a header is read as that machine's, whatever the
      name holds, and whatever white space ends its line. */
  lemma HeaderRoundTrip(k: string, end: string)
    requires forall i :: 0 <= i < |end| ==> IsSpace(end[i])
    ensures TableHeader(MachineTable(k) + end) == Some([MACHINES, k])
  {
    var inner := MACHINES + "." + TomlKey(k);
    assert MachineTable(k) == "[" + inner + "]";
    InnerRead(k);
    BracketAt(k);
    hide TomlKey, SplitKey, Close, MachineTable, TableHeader;
    BracketedHeader(inner, end, [MACHINES, k]);
  }

  lemma BracketedHeader(inner: string, end: string, segs: seq<string>)
    requires inner != "" && inner[0] != '[' && Close(inner + "]", None) == Some(|inner|)
    requires SplitKey(inner) == Some(segs) && forall i :: 0 <= i < |end| ==> IsSpace(end[i])
    ensures TableHeader("[" + inner + "]" + end) == Some(segs)
  {
    var t := "[" + inner + "]";
    hide SplitKey, Close, TrimSpace, TableHeader;
    TrimMore(t, end);
    assert TrimSpace(t) == t by {
      assert t[0] == '[' && t[|t| - 1] == ']';
      TrimNothing(t);
    }
    TrimNothing("");
    hide IsSpace;
    Brackets(inner);
    HeaderOf(t + end, t, inner);
  }

  lemma Brackets(inner: string)
    requires inner != ""
    ensures var t := "[" + inner + "]";
            t[1..] == inner + "]" && t[1..|inner| + 1] == inner && t[|inner| + 2..] == "" && t[1] == inner[0] && t[0] == '['
  {
  }

  lemma HeaderOf(line: string, t: string, inner: string)
    requires TrimSpace(line) == t && |t| == |inner| + 2 && inner != "" && t[0] == '[' && t[1] != '['
    requires t[1..|inner| + 1] == inner && t[|inner| + 2..] == "" && TrimSpace("") == ""
    requires Close(t[1..], None) == Some(|inner|)
    ensures TableHeader(line) == SplitKey(inner)
  {
    hide SplitKey, Close, TrimSpace, DoubleClose;
  }

  lemma BracketAt(k: string)
    ensures var inner := MACHINES + "." + TomlKey(k); Close(inner + "]", None) == Some(|inner|)
  {
    var head := MACHINES + ".";
    var tail := TomlKey(k) + "]";
    KeyBracket(k);
    MachinesBare();
    forall i | 0 <= i < |head| ensures head[i] == '.' || BareChar(head[i]) {
      assert i < |MACHINES| ==> head[i] == MACHINES[i];
    }
    hide Close, TomlKey, BareKey;
    ClosePlain(head, tail, None);
    assert head + tail == head + TomlKey(k) + "]";
  }

  lemma KeyBracket(k: string)
    ensures Close(TomlKey(k) + "]", None) == Some(|TomlKey(k)|)
  {
    assert Close("]", None) == Some(0);
    if BareKey(k) {
      assert forall i :: 0 <= i < |k| ==> BareChar(k[i]);
      hide Close;
      ClosePlain(k, "]", None);
    } else {
      CloseEscape(k, "]");
      var tail := TomlKey(k) + "]";
      assert tail[0] == '"' && tail[1..] == Escape(k) + "\"" + "]";
      hide Escape;
    }
  }
}
