/** The lines of an authorized_keys file: one per key, comments kept, and why it
    does not matter in how many passes they were merged. */
module Keys {
  import opened Wrappers
  import opened Lines
  import opened Text

  /** A key as its line gives it: the words of its options, type and material, and
      its comment. */
  datatype Key = Key(kind: string, blob: string, comment: string, prefix: string) {
    function Id(): string { kind + " " + blob }
  }

  predicate HasPrefix(s: string, p: string) { p <= s }

  predicate KeyToken(s: string) { HasPrefix(s, "ssh-") || HasPrefix(s, "ecdsa-") || HasPrefix(s, "sk-") }

  /** The first word that begins a key with its material after it, |f| for none. */
  function KeyAt(f: seq<string>): (i: nat)
    ensures i == |f| || (i + 1 < |f| && KeyToken(f[i]))
  {
    if |f| < 2 then |f| else if KeyToken(f[0]) then 0 else KeyAt(f[1..]) + 1
  }

  function KeyOf(f: seq<string>): Option<Key> {
    var i := KeyAt(f);
    if i == |f| then None else Some(Key(f[i], f[i + 1], Join(f[i + 2..], ' '), Join(f[..i + 2], ' ')))
  }

  function Parse(line: string): Option<Key> {
    var t := TrimSpace(line);
    if t == "" || t[0] == '#' then None else KeyOf(Fields(line))
  }

  /** Where a key's line is among the lines kept, and what it says. */
  datatype Ref = Ref(idx: nat, comment: string, prefix: string)

  datatype State = State(out: seq<string>, first: map<string, Ref>, dups: nat, owns: nat)

  ghost predicate InRange(s: State) { forall id :: id in s.first ==> s.first[id].idx < |s.out| }

  function Adopted(prefix: string, comment: string): string { prefix + " " + comment }

  /** One line of Dedup's loop. */
  function Step(s: State, line: string, own: set<string>): (r: State)
    requires InRange(s)
    ensures InRange(r)
  {
    match Parse(line)
    case None => s.(out := s.out + [line])
    case Some(k) =>
      if k.Id() in own then s.(owns := s.owns + 1)
      else if k.Id() in s.first then
        var ref := s.first[k.Id()];
        if ref.comment == "" && k.comment != "" then
          State(s.out[ref.idx := Adopted(ref.prefix, k.comment)], s.first[k.Id() := ref.(comment := k.comment)], s.dups + 1, s.owns)
        else s.(dups := s.dups + 1)
      else s.(out := s.out + [line], first := s.first[k.Id() := Ref(|s.out|, k.comment, k.prefix)])
  }

  ghost function Pass(s: State, lines: seq<string>, own: set<string>): (r: State)
    requires InRange(s)
    ensures InRange(r)
  {
    var n := |lines|;
    if n == 0 then s else Step(Pass(s, lines[..n - 1], own), lines[n - 1], own)
  }

  const NOTHING := State([], map[], 0, 0)

  ghost function Dedup(lines: seq<string>, own: set<string>): State { Pass(NOTHING, lines, own) }

  /** Dedup: the lines kept, and how many went as duplicates and as the machine's
      own. */
  method DedupLines(lines: seq<string>, own: set<string>) returns (kept: seq<string>, dups: nat, owns: nat)
    ensures kept == Dedup(lines, own).out && dups == Dedup(lines, own).dups && owns == Dedup(lines, own).owns
  {
    var first: map<string, Ref> := map[];
    kept, dups, owns := [], 0, 0;
    for i := 0 to |lines|
      invariant InRange(State(kept, first, dups, owns))
      invariant State(kept, first, dups, owns) == Dedup(lines[..i], own)
    {
      assert lines[..i + 1][..i] == lines[..i];
      var k := Parse(lines[i]);
      if k.None? {
        kept := kept + [lines[i]];
        continue;
      }
      var id := k.value.Id();
      if id in own {
        owns := owns + 1;
        continue;
      }
      if id in first {
        dups := dups + 1;
        var ref := first[id];
        if ref.comment == "" && k.value.comment != "" {
          kept := kept[ref.idx := Adopted(ref.prefix, k.value.comment)];
          first := first[id := ref.(comment := k.value.comment)];
        }
        continue;
      }
      kept := kept + [lines[i]];
      first := first[id := Ref(|kept| - 1, k.value.comment, k.value.prefix)];
    }
    assert lines[..|lines|] == lines;
  }

  // ---------------------------------------------------------------------
  // An adopted comment
  // ---------------------------------------------------------------------

  lemma {:induction false} KeyAtSame(f: seq<string>, g: seq<string>)
    requires KeyAt(f) < |f|
    ensures KeyAt(f[..KeyAt(f) + 2] + g) == KeyAt(f)
  {
    var i := KeyAt(f);
    var h := f[..i + 2] + g;
    if i > 0 {
      KeyAtSame(f[1..], g);
      assert h[1..] == f[1..][..i - 1 + 2] + g && h[0] == f[0];
    } else {
      assert h[0] == f[0];
    }
  }

  /** A line rebuilt from a key's prefix and another line's comment is a line for
      the same key, with that comment and the same prefix. */
  lemma AdoptedParses(line: string, other: string)
    requires Parse(line).Some? && Parse(other).Some? && Parse(other).value.comment != ""
    ensures var k := Parse(line).value;
            Parse(Adopted(k.prefix, Parse(other).value.comment)) == Some(k.(comment := Parse(other).value.comment))
  {
    var f, o := Fields(line), Fields(other);
    var i, j := KeyAt(f), KeyAt(o);
    var head, tail := f[..i + 2], o[j + 2..];
    assert tail != [];
    FieldsAreWords(line);
    FieldsAreWords(other);
    JoinAppend(head, tail, ' ');
    var made := Adopted(Join(head, ' '), Join(tail, ' '));
    assert made == Join(head + tail, ' ');
    FieldsOfJoin(head + tail);
    KeyAtSame(f, tail);
    var h := head + tail;
    assert h[..i + 2] == head && h[i + 2..] == tail && h[i] == f[i] && h[i + 1] == f[i + 1];
    FirstField(line);
    FirstField(made);
    TrimStart(line);
    TrimStart(made);
    assert h[0] == f[0];
    hide Fields, KeyAt, TrimSpace;
  }

  // ---------------------------------------------------------------------
  // What a line says
  // ---------------------------------------------------------------------

  predicate Begins(w: string) { "ssh-" <= w || "ecdsa-" <= w || "sk-" <= w }

  lemma {:induction false} KeyAtFirst(f: seq<string>, i: nat)
    requires i < |f| && forall k :: 0 <= k < i ==> !Begins(f[k])
    ensures Begins(f[i]) && i + 1 < |f| ==> KeyAt(f) == i
    ensures i == |f| - 1 ==> KeyAt(f) == |f|
  {
    if i > 0 {
      KeyAtFirst(f[1..], i - 1);
    }
  }

  lemma ParseWords(ws: seq<string>)
    requires ws != [] && (forall w :: w in ws ==> Word(w)) && ws[0] != ""
    ensures Parse(Join(ws, ' ')) == if ws[0][0] == '#' then None else KeyOf(ws)
  {
    FieldsOfJoin(ws);
    FirstField(Join(ws, ' '));
    TrimStart(Join(ws, ' '));
    hide Fields, TrimSpace, KeyOf, Join;
  }

  /** A line's key is the first word that begins with `ssh-`, `ecdsa-` or `sk-` and the
      one after it; the words before are options, the words after its comment. Without
      such a word and one after it there is no key. */
  lemma KeyLineRead(options: seq<string>, kind: string, blob: string, comment: seq<string>)
    requires var ws := options + [kind, blob] + comment; (forall w :: w in ws ==> Word(w)) && ws[0] != "" && ws[0][0] != '#'
    requires (forall w :: w in options ==> !Begins(w)) && Begins(kind)
    ensures Parse(Join(options + [kind, blob] + comment, ' '))
            == Some(Key(kind, blob, Join(comment, ' '), Join(options + [kind, blob], ' ')))
    ensures options != [] ==> Parse(Join(options, ' ')) == None && Parse(Join(options + [kind], ' ')) == None
  {
    var ws, n := options + [kind, blob] + comment, |options|;
    ParseWords(ws);
    assert forall k :: 0 <= k < n ==> ws[k] == options[k] && options[k] in options;
    KeyAtFirst(ws, n);
    assert ws[n + 2..] == comment && ws[..n + 2] == options + [kind, blob];
    if options != [] {
      assert forall w :: w in options + [kind] ==> w in ws;
      assert (options + [kind])[0] == ws[0] == options[0];
      assert forall k :: 0 <= k < n ==> (options + [kind])[k] == options[k];
      ParseWords(options);
      ParseWords(options + [kind]);
      KeyAtFirst(options, n - 1);
      KeyAtFirst(options + [kind], n);
    }
    hide Parse, Join, KeyAt, Begins;
  }

  /** A line whose first word begins with `#`, or that has none, is for no key,
      whatever else it says. */
  lemma CommentRead(ws: seq<string>)
    requires (forall w :: w in ws ==> Word(w)) && (ws == [] || (ws[0] != "" && ws[0][0] == '#'))
    ensures Parse(Join(ws, ' ')) == None
  {
    if ws != [] {
      assert ws[0] in ws;
      ParseWords(ws);
    }
    hide Fields;
  }

  // ---------------------------------------------------------------------
  // Passes
  // ---------------------------------------------------------------------

  /** `first` is what the kept lines say, and no line is for a key of the machine's
      own or for one that another line is for. */
  ghost predicate Described(out: seq<string>, first: map<string, Ref>, own: set<string>) {
    && (forall i :: 0 <= i < |out| && Parse(out[i]).Some? ==>
          var k := Parse(out[i]).value; k.Id() !in own && k.Id() in first && first[k.Id()] == Ref(i, k.comment, k.prefix))
    && (forall id :: id in first ==>
          first[id].idx < |out| && Parse(out[first[id].idx]).Some? && Parse(out[first[id].idx]).value.Id() == id)
  }

  lemma StepDescribed(s: State, line: string, own: set<string>)
    requires InRange(s) && Described(s.out, s.first, own)
    ensures Described(Step(s, line, own).out, Step(s, line, own).first, own)
  {
    var p := Parse(line);
    if p.Some? && p.value.Id() !in own && p.value.Id() in s.first {
      var ref := s.first[p.value.Id()];
      if ref.comment == "" && p.value.comment != "" {
        AdoptedParses(s.out[ref.idx], line);
        hide Parse, Adopted;
        ChangedDescribed(s.out, s.first, own, p.value.Id(), Adopted(ref.prefix, p.value.comment), p.value.comment);
      }
    } else if p.None? || p.value.Id() !in own {
      hide Parse;
      AddedDescribed(s.out, s.first, own, line);
    }
  }

  lemma AddedDescribed(out: seq<string>, first: map<string, Ref>, own: set<string>, line: string)
    requires Described(out, first, own) && (Parse(line).Some? ==> Parse(line).value.Id() !in own && Parse(line).value.Id() !in first)
    ensures Described(out + [line],
                      if Parse(line).None? then first
                      else first[Parse(line).value.Id() := Ref(|out|, Parse(line).value.comment, Parse(line).value.prefix)], own)
  {
    hide Parse;
  }

  lemma ChangedDescribed(out: seq<string>, first: map<string, Ref>, own: set<string>, id: string, line: string, comment: string)
    requires Described(out, first, own) && id in first
    requires var k := Parse(out[first[id].idx]).value; Parse(line) == Some(k.(comment := comment))
    ensures Described(out[first[id].idx := line], first[id := first[id].(comment := comment)], own)
  {
    hide Parse;
  }

  lemma {:induction false} PassDescribed(s: State, lines: seq<string>, own: set<string>)
    requires InRange(s) && Described(s.out, s.first, own)
    ensures Described(Pass(s, lines, own).out, Pass(s, lines, own).first, own)
  {
    if lines != [] {
      PassDescribed(s, lines[..|lines| - 1], own);
      StepDescribed(Pass(s, lines[..|lines| - 1], own), lines[|lines| - 1], own);
    }
  }

  lemma {:induction false} PassAppend(s: State, a: seq<string>, b: seq<string>, own: set<string>)
    requires InRange(s)
    ensures Pass(s, a + b, own) == Pass(Pass(s, a, own), b, own)
  {
    hide Step;
    if b == [] {
      assert a + b == a;
    } else {
      PassAppend(s, a, b[..|b| - 1], own);
      assert (a + b)[..|a + b| - 1] == a + b[..|b| - 1];
    }
  }

  ghost function Upto(first: map<string, Ref>, n: nat): map<string, Ref> {
    map id | id in first && first[id].idx < n :: first[id]
  }

  /** A pass over lines that were kept keeps them all, as they are. */
  lemma {:induction false} PassOverKept(out: seq<string>, first: map<string, Ref>, own: set<string>, n: nat)
    requires Described(out, first, own) && n <= |out|
    ensures Dedup(out[..n], own) == State(out[..n], Upto(first, n), 0, 0)
  {
    if n > 0 {
      var line := out[n - 1];
      PassOverKept(out, first, own, n - 1);
      assert out[..n][..n - 1] == out[..n - 1] && out[..n] == out[..n - 1] + [line];
      UptoNext(out, first, own, n);
      assert Dedup(out[..n], own) == Step(Dedup(out[..n - 1], own), line, own);
      hide Parse, Upto, Described, Pass;
    } else {
      assert out[..0] == [] && Upto(first, 0) == map[];
    }
  }

  lemma UptoNext(out: seq<string>, first: map<string, Ref>, own: set<string>, n: nat)
    requires Described(out, first, own) && 0 < n <= |out|
    ensures var p := Parse(out[n - 1]);
            && (p.None? ==> Upto(first, n) == Upto(first, n - 1))
            && (p.Some? ==>
                  p.value.Id() !in own && p.value.Id() !in Upto(first, n - 1)
                  && Upto(first, n) == Upto(first, n - 1)[p.value.Id() := Ref(n - 1, p.value.comment, p.value.prefix)])
  {
    hide Parse;
  }

  lemma KeptAgain(lines: seq<string>, own: set<string>)
    ensures var s := Dedup(lines, own); Dedup(s.out, own) == s.(dups := 0, owns := 0)
  {
    var s := Dedup(lines, own);
    PassDescribed(NOTHING, lines, own);
    PassOverKept(s.out, s.first, own, |s.out|);
    assert s.out[..|s.out|] == s.out && Upto(s.first, |s.out|) == s.first;
  }

  /** The counts a pass starts from change nothing about what it keeps. */
  lemma {:induction false} CountsApart(s: State, t: State, lines: seq<string>, own: set<string>)
    requires InRange(s) && t == s.(dups := t.dups, owns := t.owns)
    ensures Pass(t, lines, own).out == Pass(s, lines, own).out && Pass(t, lines, own).first == Pass(s, lines, own).first
  {
    hide Parse;
    if lines != [] {
      CountsApart(s, t, lines[..|lines| - 1], own);
    }
  }

  /** Earlier passes are absorbed: deduplicating what was deduplicated together with
      more is deduplicating it all at once. */
  lemma DedupAbsorbs(x: seq<string>, y: seq<string>, own: set<string>)
    ensures Dedup(Dedup(x, own).out + y, own).out == Dedup(x + y, own).out
  {
    var s := Dedup(x, own);
    PassAppend(NOTHING, s.out, y, own);
    PassAppend(NOTHING, x, y, own);
    KeptAgain(x, own);
    hide Pass;
    CountsApart(s, Dedup(s.out, own), y, own);
  }

  /** A second pass changes nothing and drops nothing. */
  lemma DedupIdempotent(lines: seq<string>, own: set<string>)
    ensures var s := Dedup(lines, own);
            Dedup(s.out, own).out == s.out && Dedup(s.out, own).dups == 0 && Dedup(s.out, own).owns == 0
  {
    KeptAgain(lines, own);
  }

  ghost function Merge(existing: seq<string>, incoming: seq<string>): seq<string> { Dedup(existing + incoming, {}).out }

  /** Merging in stages is merging at once. */
  lemma MergeInStages(a: seq<string>, b: seq<string>, c: seq<string>)
    ensures Merge(Merge(a, b), c) == Merge(a, b + c)
  {
    DedupAbsorbs(a + b, c, {});
    assert a + b + c == a + (b + c);
  }

  /** Every line is kept, a duplicate, or the machine's own. */
  lemma {:induction false} CountsAddUp(lines: seq<string>, own: set<string>)
    ensures var s := Dedup(lines, own); |s.out| + s.dups + s.owns == |lines|
  {
    hide Parse;
    if lines != [] {
      CountsAddUp(lines[..|lines| - 1], own);
    }
  }

  /** How many of the lines are for a key of the machine's own. */
  ghost function OwnLines(lines: seq<string>, own: set<string>): nat {
    var n := |lines|;
    if n == 0 then 0
    else OwnLines(lines[..n - 1], own) + if Parse(lines[n - 1]).Some? && Parse(lines[n - 1]).value.Id() in own then 1 else 0
  }

  /** The two counts tell apart which: those counted as the machine's own are. */
  lemma {:induction false} OwnsCounted(lines: seq<string>, own: set<string>)
    ensures Dedup(lines, own).owns == OwnLines(lines, own)
  {
    hide Parse;
    if lines != [] {
      OwnsCounted(lines[..|lines| - 1], own);
    }
  }

  // ---------------------------------------------------------------------
  // What survives, and in what order
  // ---------------------------------------------------------------------

  /** A line, as far as deduplication can tell: its key's identity, or itself. */
  datatype Tag = Identity(id: string) | Verbatim(line: string)

  function TagOf(line: string): Tag {
    match Parse(line)
    case None => Verbatim(line)
    case Some(k) => Identity(k.Id())
  }

  /** The tags of `lines`, an identity only where it occurs first and is not own. */
  ghost function FirstTags(lines: seq<string>, own: set<string>): seq<Tag> {
    var n := |lines|;
    if n == 0 then []
    else
      var before, t := FirstTags(lines[..n - 1], own), TagOf(lines[n - 1]);
      if t.Identity? && (t.id in own || t in before) then before else before + [t]
  }

  ghost function Tags(lines: seq<string>): seq<Tag> { seq(|lines|, i requires 0 <= i < |lines| => TagOf(lines[i])) }

  /** Of each identity that is not the machine's own exactly one line is left, at
      its first occurrence, among the other lines, which are all kept, in order. */
  lemma {:induction false} FirstOccurrencesSurvive(lines: seq<string>, own: set<string>)
    ensures Tags(Dedup(lines, own).out) == FirstTags(lines, own)
  {
    if lines != [] {
      var before, line := lines[..|lines| - 1], lines[|lines| - 1];
      var s := Dedup(before, own);
      FirstOccurrencesSurvive(before, own);
      PassDescribed(NOTHING, before, own);
      TagStep(s, line, own);
    }
  }

  lemma TagsAppend(out: seq<string>, line: string)
    ensures Tags(out + [line]) == Tags(out) + [TagOf(line)]
  {
    hide TagOf;
  }

  lemma TagsUpdate(out: seq<string>, i: nat, line: string)
    requires i < |out| && TagOf(line) == TagOf(out[i])
    ensures Tags(out[i := line]) == Tags(out)
  {
    hide TagOf;
  }

  /** A key has a line among those kept exactly if it is noted. */
  lemma TagKnown(s: State, own: set<string>, id: string)
    requires Described(s.out, s.first, own)
    ensures Identity(id) in Tags(s.out) <==> id in s.first
    ensures id in s.first ==> s.first[id].idx < |s.out| && TagOf(s.out[s.first[id].idx]) == Identity(id)
  {
    hide Parse, Key.Id;
    var tags := Tags(s.out);
    if id in s.first {
      assert tags[s.first[id].idx] == Identity(id);
    }
    if i :| 0 <= i < |tags| && tags[i] == Identity(id) {
      assert Parse(s.out[i]).Some?;
    }
  }

  lemma AdoptedTag(line: string, other: string)
    requires Parse(line).Some? && Parse(other).Some? && Parse(other).value.comment != ""
    ensures TagOf(Adopted(Parse(line).value.prefix, Parse(other).value.comment)) == TagOf(line)
  {
    AdoptedParses(line, other);
    hide Parse, Adopted;
  }

  lemma TagStep(s: State, line: string, own: set<string>)
    requires InRange(s) && Described(s.out, s.first, own)
    ensures var t, tags := TagOf(line), Tags(s.out);
            Tags(Step(s, line, own).out) == if t.Identity? && (t.id in own || t in tags) then tags else tags + [t]
  {
    var t := TagOf(line);
    hide Tags, Parse, Adopted;
    TagsAppend(s.out, line);
    if t.Identity? && t.id !in own {
      var k := Parse(line).value;
      TagKnown(s, own, t.id);
      StepOfKey(s, line, own);
      hide Step, Key.Id;
      if t.id in s.first && s.first[t.id].comment == "" && k.comment != "" {
        var i := s.first[t.id].idx;
        AdoptedTag(s.out[i], line);
        TagsUpdate(s.out, i, Adopted(s.first[t.id].prefix, k.comment));
      }
    }
  }

  /** Merging loses nothing of either side: the lines there first, then what is new. */
  lemma MergeKeepsBoth(a: seq<string>, b: seq<string>)
    ensures Tags(Merge(a, b)) == FirstTags(a + b, {})
  {
    hide Dedup, Tags, FirstTags;
    FirstOccurrencesSurvive(a + b, {});
  }

  /** The first comment any of `lines` gives the key, empty for none. */
  ghost function FirstComment(lines: seq<string>, id: string): string {
    var n := |lines|;
    if n == 0 then ""
    else
      var before, k := FirstComment(lines[..n - 1], id), Parse(lines[n - 1]);
      if before == "" && k.Some? && k.value.Id() == id then k.value.comment else before
  }

  /** A surviving key carries the first comment any of its lines had. */
  lemma {:induction false} FirstCommentSurvives(lines: seq<string>, own: set<string>, id: string)
    requires id !in own
    ensures var s := Dedup(lines, own);
            (id in s.first ==> s.first[id].comment == FirstComment(lines, id))
            && (id !in s.first ==> FirstComment(lines, id) == "")
  {
    hide Parse;
    if lines != [] {
      FirstCommentSurvives(lines[..|lines| - 1], own, id);
    }
  }

  /** The first of `lines` for the key. */
  ghost function FirstLine(lines: seq<string>, id: string): Option<string> {
    var n := |lines|;
    if n == 0 then None
    else
      var before, k := FirstLine(lines[..n - 1], id), Parse(lines[n - 1]);
      if before.Some? then before else if k.Some? && k.value.Id() == id then Some(lines[n - 1]) else None
  }

  /** A key's line with the comment `c`: as it is if that is its own, and else with
      its options, type and material as they are. */
  ghost predicate Says(text: string, line: string, c: string) {
    && Parse(line).Some? && (c == "" ==> Parse(line).value.comment == "")
    && text == if Parse(line).value.comment == c then line else Adopted(Parse(line).value.prefix, c)
  }

  ghost predicate FirstKept(s: State, lines: seq<string>, id: string) {
    if id !in s.first then FirstLine(lines, id).None?
    else
      && s.first[id].idx < |s.out| && FirstLine(lines, id).Some?
      && Says(s.out[s.first[id].idx], FirstLine(lines, id).value, FirstComment(lines, id))
      && s.first[id].prefix == Parse(FirstLine(lines, id).value).value.prefix
      && s.first[id].comment == FirstComment(lines, id)
  }

  lemma DedupNext(lines: seq<string>, own: set<string>)
    requires lines != []
    ensures var s := Dedup(lines[..|lines| - 1], own);
            InRange(s) && Described(s.out, s.first, own) && Dedup(lines, own) == Step(s, lines[|lines| - 1], own)
  {
    hide Step, Described;
    NothingDescribed(own);
    PassDescribed(NOTHING, lines[..|lines| - 1], own);
  }

  lemma NothingDescribed(own: set<string>)
    ensures Described(NOTHING.out, NOTHING.first, own)
  {
  }

  lemma NothingKept(own: set<string>, id: string)
    ensures FirstKept(Dedup([], own), [], id)
  {
  }

  lemma {:induction false} FirstLineSurvives(lines: seq<string>, own: set<string>, id: string)
    requires id !in own
    ensures FirstKept(Dedup(lines, own), lines, id)
  {
    hide *;
    if lines == [] {
      NothingKept(own, id);
    } else {
      var before, last := lines[..|lines| - 1], lines[|lines| - 1];
      DedupNext(lines, own);
      FirstLineSurvives(before, own, id);
      FirstCommentSurvives(before, own, id);
      FirstStep(Dedup(before, own), before, last, own, id);
      assert lines == before + [last];
    }
  }

  lemma StepOfKey(s: State, line: string, own: set<string>)
    requires InRange(s) && Parse(line).Some? && Parse(line).value.Id() !in own
    ensures var k, r := Parse(line).value, Step(s, line, own);
            if k.Id() !in s.first then r.out == s.out + [line] && r.first == s.first[k.Id() := Ref(|s.out|, k.comment, k.prefix)]
            else
              var ref := s.first[k.Id()];
              if ref.comment == "" && k.comment != ""
              then r.out == s.out[ref.idx := Adopted(ref.prefix, k.comment)] && r.first == s.first[k.Id() := ref.(comment := k.comment)]
              else r.out == s.out && r.first == s.first
  {
    hide Parse, Adopted;
  }

  /** A line for something else leaves a key's line alone. */
  lemma StepOfOther(s: State, line: string, own: set<string>, id: string)
    requires InRange(s) && Described(s.out, s.first, own)
    requires Parse(line).Some? ==> Parse(line).value.Id() != id
    ensures var r := Step(s, line, own);
            && (id in r.first <==> id in s.first)
            && (id in s.first ==> r.first[id] == s.first[id] && r.out[r.first[id].idx] == s.out[r.first[id].idx])
  {
    if Parse(line).Some? && Parse(line).value.Id() !in own {
      StepOfKey(s, line, own);
      var k := Parse(line).value.Id();
      hide Step, Parse, Adopted;
      if k in s.first && id in s.first {
        OtherIndex(s, own, id, k);
      }
    }
  }

  lemma OtherIndex(s: State, own: set<string>, a: string, b: string)
    requires Described(s.out, s.first, own) && a in s.first && b in s.first && a != b
    ensures s.first[a].idx != s.first[b].idx
  {
    hide Parse;
  }

  lemma FirstNext(before: seq<string>, line: string, id: string)
    ensures var k := Parse(line);
            var here := k.Some? && k.value.Id() == id;
            && FirstLine(before + [line], id) == (if FirstLine(before, id).None? && here then Some(line) else FirstLine(before, id))
            && FirstComment(before + [line], id)
               == if FirstComment(before, id) == "" && here then k.value.comment else FirstComment(before, id)
  {
    hide Parse;
    assert (before + [line])[..|before|] == before;
  }

  lemma FirstStep(s: State, before: seq<string>, line: string, own: set<string>, id: string)
    requires InRange(s) && Described(s.out, s.first, own) && id !in own && FirstKept(s, before, id)
    requires id !in s.first ==> FirstComment(before, id) == ""
    ensures FirstKept(Step(s, line, own), before + [line], id)
  {
    FirstNext(before, line, id);
    hide Parse, Adopted, Step, Described, FirstLine, FirstComment;
    if Parse(line).Some? && Parse(line).value.Id() == id {
      StepOfKey(s, line, own);
      hide Key.Id;
    } else {
      StepOfOther(s, line, own, id);
      hide Key.Id, Says;
    }
  }

  /** ... and its line is the first one for it, as it was, options and all; with that
      comment if it had none. */
  lemma SurvivorReads(lines: seq<string>, own: set<string>, i: nat)
    requires i < |Dedup(lines, own).out| && Parse(Dedup(lines, own).out[i]).Some?
    ensures var k := Parse(Dedup(lines, own).out[i]).value;
            && k.Id() !in own && k.comment == FirstComment(lines, k.Id()) && FirstLine(lines, k.Id()).Some?
            && Says(Dedup(lines, own).out[i], FirstLine(lines, k.Id()).value, k.comment)
  {
    PassDescribed(NOTHING, lines, own);
    var k := Parse(Dedup(lines, own).out[i]).value;
    hide Parse, Says;
    FirstCommentSurvives(lines, own, k.Id());
    FirstLineSurvives(lines, own, k.Id());
  }

  // ---------------------------------------------------------------------
  // Files and patterns
  // ---------------------------------------------------------------------

  function TrimNewlines(s: string): (r: string)
    ensures r == "" || r[|r| - 1] != '\n'
  {
    if s != "" && s[|s| - 1] == '\n' then TrimNewlines(s[..|s| - 1]) else s
  }

  function SplitFile(content: string): seq<string> {
    var t := TrimNewlines(content);
    if t == "" then [] else Split(t, '\n')
  }

  function JoinFile(lines: seq<string>): string { if lines == [] then "" else Join(lines, '\n') + "\n" }

  /** Lines written to a file are read back as they were, unless one holds a newline
      or the last is empty. */
  lemma FileRoundTrip(lines: seq<string>)
    ensures SplitFile(JoinFile(lines)) == lines
       <==> (forall l :: l in lines ==> '\n' !in l) && (lines != [] ==> lines[|lines| - 1] != "")
  {
    hide SplitFile, JoinFile;
    if (forall l :: l in lines ==> '\n' !in l) && lines != [] && lines[|lines| - 1] != "" {
      ReadsBack(lines);
    } else if lines == [] {
      NoLinesReadBack();
    } else {
      ReadLines(JoinFile(lines));
    }
  }

  lemma NoLinesReadBack()
    ensures SplitFile(JoinFile([])) == []
  {
  }

  lemma ReadsBack(lines: seq<string>)
    requires (forall l :: l in lines ==> '\n' !in l) && lines != [] && lines[|lines| - 1] != ""
    ensures SplitFile(JoinFile(lines)) == lines
  {
    var last := lines[|lines| - 1];
    LastOfJoin(lines);
    SplitJoin(lines, '\n');
    assert last in lines && last[|last| - 1] in last;
    hide Join, Split;
    var whole, j := JoinFile(lines), Join(lines, '\n');
    assert j[|j| - 1] != '\n' && whole[..|whole| - 1] == j;
    assert TrimNewlines(whole) == TrimNewlines(j) == j;
  }

  /** What is read holds no newline, and no empty last line. */
  lemma ReadLines(content: string)
    ensures var r := SplitFile(content); (forall l :: l in r ==> '\n' !in l) && (r != [] ==> r[|r| - 1] != "")
  {
    var text := TrimNewlines(content);
    hide Join;
    if text != "" {
      SplitParts(text, '\n');
      SplitLast(text);
    }
  }

  lemma {:induction false} LastOfJoin(lines: seq<string>)
    requires lines != [] && lines[|lines| - 1] != ""
    ensures var j, last := Join(lines, '\n'), lines[|lines| - 1]; j != "" && j[|j| - 1] == last[|last| - 1]
  {
    if |lines| > 1 {
      LastOfJoin(lines[1..]);
    }
  }

  lemma {:induction false} SplitLast(s: string)
    requires s != "" && s[|s| - 1] != '\n'
    ensures var p := Split(s, '\n'); p[|p| - 1] != ""
  {
    if |s| > 1 {
      SplitLast(s[1..]);
    }
  }

  datatype Revoked = Revoked(idx: nat) | NoMatch | Protected | Ambiguous

  /** The lines whose key or summary holds the pattern, which is what `matches` says. */
  method Hits(lines: seq<string>, matches: (string, Key) -> bool) returns (idxs: seq<nat>)
    ensures forall j: nat :: j in idxs <==> Hit(lines, j, matches)
    ensures forall a, b :: 0 <= a < b < |idxs| ==> idxs[a] != idxs[b]
  {
    idxs := [];
    for i := 0 to |lines|
      invariant forall j: nat :: j in idxs <==> j < i && Hit(lines, j, matches)
      invariant forall a, b :: 0 <= a < b < |idxs| ==> idxs[a] != idxs[b]
    {
      var k := Parse(lines[i]);
      ghost var before := idxs;
      assert (k.Some? && matches(lines[i], k.value)) == Hit(lines, i, matches);
      hide Parse, Hit;
      if k.Some? && matches(lines[i], k.value) {
        assert i !in before;
        idxs := idxs + [i];
      }
      assert forall j: nat :: j in idxs <==> j in before || (j == i && Hit(lines, i, matches));
    }
  }

  /** Revoke: the one line that matches, unless it is a protected key's. */
  method Revoke(lines: seq<string>, matches: (string, Key) -> bool, protected: set<string>) returns (r: Revoked)
    ensures r.Revoked? ==> Hit(lines, r.idx, matches) && Parse(lines[r.idx]).value.Id() !in protected
    ensures r.Revoked? || r.Protected? <==> exists i: nat :: Hit(lines, i, matches) && forall j: nat :: Hit(lines, j, matches) ==> j == i
    ensures r.Protected? ==> exists i: nat :: Hit(lines, i, matches) && Parse(lines[i]).value.Id() in protected
    ensures r.NoMatch? <==> forall i: nat :: !Hit(lines, i, matches)
  {
    hide Parse;
    var idxs := Hits(lines, matches);
    if |idxs| == 0 {
      return NoMatch;
    }
    assert idxs[0] in idxs && Hit(lines, idxs[0], matches);
    if |idxs| > 1 {
      assert idxs[1] in idxs && Hit(lines, idxs[1], matches) && idxs[0] != idxs[1];
      return Ambiguous;
    }
    assert forall j: nat :: Hit(lines, j, matches) ==> j in idxs && j == idxs[0];
    if Parse(lines[idxs[0]]).value.Id() in protected {
      return Protected;
    }
    return Revoked(idxs[0]);
  }

  ghost predicate Hit(lines: seq<string>, i: nat, matches: (string, Key) -> bool) {
    i < |lines| && Parse(lines[i]).Some? && matches(lines[i], Parse(lines[i]).value)
  }
}
