/** White space as Go's strings package sees it. */
module Text {
  import opened Lines

  predicate IsSpace(c: char) {
    || '\t' <= c <= '\r' || c == ' ' || c == '\U{85}' || c == '\U{A0}' || c == '\U{1680}' || '\U{2000}' <= c <= '\U{200A}'
    || c == '\U{2028}' || c == '\U{2029}' || c == '\U{202F}' || c == '\U{205F}' || c == '\U{3000}'
  }

  function TrimLeft(s: string): string {
    if s != "" && IsSpace(s[0]) then TrimLeft(s[1..]) else s
  }

  function TrimRight(s: string): string {
    if s != "" && IsSpace(s[|s| - 1]) then TrimRight(s[..|s| - 1]) else s
  }

  function TrimSpace(s: string): string { TrimRight(TrimLeft(s)) }

  /** The length of the word at the start of `s`. */
  function WordLength(s: string): (n: nat)
    ensures n <= |s| && (forall i :: 0 <= i < n ==> !IsSpace(s[i])) && (n < |s| ==> IsSpace(s[n]))
  {
    if s == "" || IsSpace(s[0]) then 0 else 1 + WordLength(s[1..])
  }

  /** strings.Fields: the words of `s`. */
  function Fields(s: string): seq<string>
    decreases |s|
  {
    if s == "" then []
    else if IsSpace(s[0]) then Fields(s[1..])
    else
      var n := WordLength(s);
      [s[..n]] + Fields(s[n..])
  }

  predicate Word(w: string) { w != "" && forall i :: 0 <= i < |w| ==> !IsSpace(w[i]) }

  lemma {:induction false} FieldsAreWords(s: string)
    ensures forall w :: w in Fields(s) ==> Word(w)
    decreases |s|
  {
    if s == "" {
    } else if IsSpace(s[0]) {
      FieldsAreWords(s[1..]);
    } else {
      FieldsAreWords(s[WordLength(s)..]);
    }
  }

  lemma {:induction false} WordThen(w: string, rest: string)
    requires (forall i :: 0 <= i < |w| ==> !IsSpace(w[i])) && (rest == "" || IsSpace(rest[0]))
    ensures WordLength(w + rest) == |w|
  {
    if w == "" {
      assert w + rest == rest;
    } else {
      assert (w + rest)[0] == w[0] && (w + rest)[1..] == w[1..] + rest;
      WordThen(w[1..], rest);
    }
  }

  /** Words joined by blanks are those words. */
  lemma {:induction false} FieldsOfJoin(ws: seq<string>)
    requires forall w :: w in ws ==> Word(w)
    ensures Fields(Join(ws, ' ')) == ws
  {
    if ws != [] {
      var w := ws[0];
      assert w in ws;
      var rest := if |ws| == 1 then "" else " " + Join(ws[1..], ' ');
      assert Join(ws, ' ') == w + rest;
      WordThen(w, rest);
      var all := w + rest;
      assert all[0] == w[0] && all[..|w|] == w && all[|w|..] == rest;
      if |ws| > 1 {
        assert rest[1..] == Join(ws[1..], ' ');
        FieldsOfJoin(ws[1..]);
      }
      assert [w] + ws[1..] == ws;
    }
  }

  lemma {:induction false} TrimLeftStart(s: string)
    ensures TrimLeft(s) == "" || !IsSpace(TrimLeft(s)[0])
  {
    if s != "" && IsSpace(s[0]) {
      TrimLeftStart(s[1..]);
    }
  }

  /** What is left of `s` without the white space before it starts with its first word. */
  lemma {:induction false} FirstField(s: string)
    ensures TrimLeft(s) == "" <==> Fields(s) == []
    ensures Fields(s) != [] ==> Fields(s)[0] != "" && Fields(s)[0][0] == TrimLeft(s)[0]
  {
    if s != "" && IsSpace(s[0]) {
      FirstField(s[1..]);
    }
  }

  /** Trimming leaves alone what has no white space at its ends. */
  lemma TrimNothing(s: string)
    ensures TrimSpace(s) == s <==> s == "" || (!IsSpace(s[0]) && !IsSpace(s[|s| - 1]))
  {
    if s != "" && IsSpace(s[0]) {
      TrimShorter(s[1..]);
    } else if s != "" && IsSpace(s[|s| - 1]) {
      TrimShorter(s[..|s| - 1]);
    }
  }

  lemma {:induction false} TrimShorter(s: string)
    ensures |TrimLeft(s)| <= |s| && |TrimRight(s)| <= |s| && |TrimSpace(s)| <= |s|
    decreases |s|
  {
    if s != "" && IsSpace(s[0]) {
      TrimShorter(s[1..]);
    }
    if s != "" && IsSpace(s[|s| - 1]) {
      TrimShorter(s[..|s| - 1]);
    }
  }

  /** Trimming the end too takes nothing from the start. */
  lemma TrimStart(s: string)
    ensures TrimSpace(s) == "" <==> TrimLeft(s) == ""
    ensures TrimSpace(s) != "" ==> TrimSpace(s)[0] == TrimLeft(s)[0]
  {
    var t := TrimLeft(s);
    TrimLeftStart(s);
    if t != "" {
      TrimRightKeepsFirst(t);
    }
  }

  lemma {:induction false} TrimRightKeepsFirst(t: string)
    requires t != "" && !IsSpace(t[0])
    ensures TrimRight(t) != "" && TrimRight(t)[0] == t[0]
  {
    if IsSpace(t[|t| - 1]) {
      TrimRightKeepsFirst(t[..|t| - 1]);
    }
  }

  /** White space at the end of a line is nothing to what trims it. */
  lemma {:induction false} TrimMore(t: string, end: string)
    requires forall i :: 0 <= i < |end| ==> IsSpace(end[i])
    ensures TrimSpace(t + end) == TrimSpace(t)
  {
    if end == "" {
      assert t + end == t;
    } else {
      var less := end[..|end| - 1];
      TrimMore(t, less);
      assert t + end == t + less + [end[|end| - 1]];
      TrimOne(t + less, end[|end| - 1]);
    }
  }

  lemma {:induction false} TrimOne(t: string, c: char)
    requires IsSpace(c)
    ensures TrimSpace(t + [c]) == TrimSpace(t)
  {
    var all := t + [c];
    if t == "" {
      assert all == [c] && TrimLeft(all[1..]) == "";
    } else if IsSpace(t[0]) {
      assert all[1..] == t[1..] + [c] && all[0] == t[0];
      TrimOne(t[1..], c);
    } else {
      assert all[0] == t[0] && all[..|all| - 1] == t;
    }
  }
}
