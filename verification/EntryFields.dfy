/** What an entry's lines in devvm.toml say, read key by key. */
module EntryFields {
  import opened Wrappers
  import opened Text
  import opened ConfigEdit
  import Toml
  import Version

  datatype Value = Str(text: string) | Bool(on: bool) | Num(n: nat)

  predicate Digits(s: string) { s != "" && forall i :: 0 <= i < |s| ==> Version.Digit(s[i]) }

  /** A quoted string, a boolean or a number. */
  function ValueOf(v: string): Option<Value> {
    if v == "true" then Some(Bool(true))
    else if v == "false" then Some(Bool(false))
    else if Digits(v) then Some(Num(Version.DigitsValue(v)))
    else if |v| < 2 || v[0] != '"' || v[|v| - 1] != '"' then None
    else match Toml.Unquote(v[1..|v| - 1])
         case None => None
         case Some(text) => Some(Str(text))
  }

  /** The key of a line, and its value. */
  function Pair(line: string): Option<(string, Value)> {
    var i := Toml.IndexOf(line, '=');
    if i == |line| then None
    else match ValueOf(TrimSpace(line[i + 1..]))
         case None => None
         case Some(v) => Some((TrimSpace(line[..i]), v))
  }

  /** What the first of the lines with this key says. */
  function Says(lines: seq<string>, key: string): Option<Value> {
    if lines == [] then None
    else match Pair(lines[0])
         case None => Says(lines[1..], key)
         case Some(p) => if p.0 == key then Some(p.1) else Says(lines[1..], key)
  }

  function TextOf(v: Option<Value>): string { if v.Some? && v.value.Str? then v.value.text else "" }

  function FlagOf(v: Option<Value>): Option<bool> { if v.Some? && v.value.Bool? then Some(v.value.on) else None }

  function NumberOf(v: Option<Value>): nat { if v.Some? && v.value.Num? then v.value.n else 0 }

  /** The entry the lines stand for: what is not said is not set. */
  function EntryOf(lines: seq<string>): Entry {
    Entry(TextOf(Says(lines, "backend")), FlagOf(Says(lines, "managed")), TextOf(Says(lines, "host")), TextOf(Says(lines, "user")),
          TextOf(Says(lines, "transport")), TextOf(Says(lines, "mosh_server")), TextOf(Says(lines, "identity")),
          NumberOf(Says(lines, "connect_timeout")))
  }

  /** A word to write before an equals sign. */
  predicate Key(k: string) { k != "" && forall i :: 0 <= i < |k| ==> 'a' <= k[i] <= 'z' || k[i] == '_' }

  lemma KeyPair(key: string, value: string, v: Value)
    requires Key(key) && ValueOf(value) == Some(v) && value != "" && !IsSpace(value[0]) && !IsSpace(value[|value| - 1])
    ensures Pair(key + " = " + value) == Some((key, v))
  {
    var line := key + " = " + value;
    var before, after := key + " ", " " + value;
    assert line == before + ("=" + after);
    assert forall i :: 0 <= i < |before| ==> before[i] != '=';
    Toml.IndexOfThen(before, "=" + after, '=');
    assert line[..|before|] == before && line[|before| + 1..] == after;
    TrimMore(key, " ");
    TrimNothing(key);
    assert TrimLeft(after) == TrimLeft(value) by { assert after[1..] == value; }
    TrimNothing(value);
    hide ValueOf, TrimLeft, TrimRight;
  }

  lemma StringPair(key: string, text: string)
    requires Key(key)
    ensures Pair(key + " = " + Toml.TomlString(text)) == Some((key, Str(text)))
  {
    var v := Toml.TomlString(text);
    Toml.UnquoteEscape(text);
    assert v[1..|v| - 1] == Toml.Escape(text);
    assert v[0] == '"' && v[|v| - 1] == '"';
    hide Toml.Unquote, Toml.Escape, Pair;
    KeyPair(key, v, Str(text));
  }

  lemma BoolPair(on: bool)
    ensures Pair(if on then "managed = true" else "managed = false") == Some(("managed", Bool(on)))
  {
    var v := if on then "true" else "false";
    KeyPair("managed", v, Bool(on));
    assert "managed" + " = " + v == if on then "managed = true" else "managed = false";
    hide Pair;
  }

  lemma NumberPair(n: nat)
    ensures Pair("connect_timeout = " + Version.Decimal(n)) == Some(("connect_timeout", Num(n)))
  {
    var v := Version.Decimal(n);
    assert Digits(v);
    hide Pair, Version.Decimal, Version.DigitsValue;
    KeyPair("connect_timeout", v, Num(n));
    assert "connect_timeout" + " = " + v == "connect_timeout = " + v;
  }

  function Either(a: Option<Value>, b: Option<Value>): Option<Value> { if a.Some? then a else b }

  lemma {:induction false} SaysBoth(a: seq<string>, b: seq<string>, key: string)
    ensures Says(a + b, key) == Either(Says(a, key), Says(b, key))
  {
    hide Pair;
    if a == [] {
      assert a + b == b;
    } else {
      assert (a + b)[1..] == a[1..] + b;
      SaysBoth(a[1..], b, key);
    }
  }

  /** What a line says of `key` that is there if `there`, and is for the key `own`. */
  function If(there: bool, own: string, v: Value, key: string): Option<Value> { if there && own == key then Some(v) else None }

  lemma OneSays(line: string, own: string, v: Value, key: string)
    requires Pair(line) == Some((own, v))
    ensures Says([line], key) == If(true, own, v, key)
  {
    hide Pair;
    assert [line][1..] == [];
  }

  lemma OptionalSays(own: string, text: string, key: string)
    requires Key(own)
    ensures Says(Optional(own, text), key) == If(text != "", own, Str(text), key)
  {
    StringPair(own, text);
    OneSays(own + " = " + Toml.TomlString(text), own, Str(text), key);
    hide Toml.TomlString, Pair;
  }

  function TimeoutLines(n: nat): seq<string> { if n == 0 then [] else ["connect_timeout = " + Version.Decimal(n)] }

  lemma TimeoutSays(n: nat, key: string)
    ensures Says(TimeoutLines(n), key) == If(n != 0, "connect_timeout", Num(n), key)
  {
    NumberPair(n);
    OneSays("connect_timeout = " + Version.Decimal(n), "connect_timeout", Num(n), key);
    hide Version.Decimal, Pair;
  }

  lemma FiveSay(l: seq<seq<string>>, key: string)
    requires |l| == 5
    ensures Says(l[0] + (l[1] + (l[2] + (l[3] + l[4]))), key)
            == Either(Says(l[0], key), Either(Says(l[1], key), Either(Says(l[2], key), Either(Says(l[3], key), Says(l[4], key)))))
  {
    hide Says, Either;
    SaysBoth(l[3], l[4], key);
    SaysBoth(l[2], l[3] + l[4], key);
    SaysBoth(l[1], l[2] + (l[3] + l[4]), key);
    SaysBoth(l[0], l[1] + (l[2] + (l[3] + l[4])), key);
  }

  lemma OptionalLinesSay(e: Entry, key: string)
    ensures Says(OptionalLines(e), key)
            == Either(If(e.user != "", "user", Str(e.user), key), Either(If(e.transport != "", "transport", Str(e.transport), key),
               Either(If(e.moshServer != "", "mosh_server", Str(e.moshServer), key),
               Either(If(e.identity != "", "identity", Str(e.identity), key),
                      If(e.connectTimeout != 0, "connect_timeout", Num(e.connectTimeout), key)))))
  {
    hide Says, Either, If, OptionalLines, Optional, TimeoutLines;
    OptionalLinesAre(e);
    OptionalSays("user", e.user, key);
    OptionalSays("transport", e.transport, key);
    OptionalSays("mosh_server", e.moshServer, key);
    OptionalSays("identity", e.identity, key);
    TimeoutSays(e.connectTimeout, key);
    FiveSay([Optional("user", e.user), Optional("transport", e.transport), Optional("mosh_server", e.moshServer),
             Optional("identity", e.identity), TimeoutLines(e.connectTimeout)], key);
  }

  lemma OptionalLinesAre(e: Entry)
    ensures OptionalLines(e)
            == Optional("user", e.user) + (Optional("transport", e.transport) + (Optional("mosh_server", e.moshServer)
               + (Optional("identity", e.identity) + TimeoutLines(e.connectTimeout))))
  {
    hide Optional, Version.Decimal;
  }

  /** managed as it is written: always there on a remote entry. */
  function Managed(e: Entry): Option<bool> { if e.managed.None? && e.backend == "remote" then Some(false) else e.managed }

  predicate On(m: Option<bool>) { m.Some? && m.value }

  function ManagedLines(m: Option<bool>): seq<string> {
    match m case None => [] case Some(on) => [if on then "managed = true" else "managed = false"]
  }

  lemma ManagedSays(m: Option<bool>, key: string)
    ensures Says(ManagedLines(m), key) == If(m.Some?, "managed", Bool(On(m)), key)
  {
    BoolPair(On(m));
    OneSays(if On(m) then "managed = true" else "managed = false", "managed", Bool(On(m)), key);
    hide Pair;
  }

  lemma KeyLinesAre(e: Entry)
    ensures KeyLines(e)
            == ["backend = " + Toml.TomlString(e.backend)]
               + (ManagedLines(Managed(e)) + (["host = " + Toml.TomlString(e.host)] + OptionalLines(e)))
  {
    hide Toml.TomlString, OptionalLines;
  }

  lemma TextSays(own: string, text: string, key: string)
    requires Key(own)
    ensures Says([own + " = " + Toml.TomlString(text)], key) == If(true, own, Str(text), key)
  {
    StringPair(own, text);
    hide Pair, Toml.TomlString;
    OneSays(own + " = " + Toml.TomlString(text), own, Str(text), key);
  }

  lemma KeyLinesSay(e: Entry, key: string)
    ensures Says(KeyLines(e), key)
            == Either(If(true, "backend", Str(e.backend), key), Either(If(Managed(e).Some?, "managed", Bool(On(Managed(e))), key),
               Either(If(true, "host", Str(e.host), key), Says(OptionalLines(e), key))))
  {
    hide Says, Either, If, OptionalLines, KeyLines, ManagedLines, Toml.TomlString;
    KeyLinesAre(e);
    TextSays("backend", e.backend, key);
    TextSays("host", e.host, key);
    ManagedSays(Managed(e), key);
    assert "backend" + " = " == "backend = " && "host" + " = " == "host = ";
    FourSay(["backend = " + Toml.TomlString(e.backend)], ManagedLines(Managed(e)), ["host = " + Toml.TomlString(e.host)],
            OptionalLines(e), key);
  }

  lemma FourSay(a: seq<string>, b: seq<string>, c: seq<string>, d: seq<string>, key: string)
    ensures Says(a + (b + (c + d)), key) == Either(Says(a, key), Either(Says(b, key), Either(Says(c, key), Says(d, key))))
  {
    hide Says, Either;
    SaysBoth(c, d, key);
    SaysBoth(b, c + d, key);
    SaysBoth(a, b + (c + d), key);
  }

  lemma FieldSays(e: Entry, key: string, v: Option<Value>)
    requires v == Either(If(true, "backend", Str(e.backend), key), Either(If(Managed(e).Some?, "managed", Bool(On(Managed(e))), key),
                  Either(If(true, "host", Str(e.host), key),
                  Either(If(e.user != "", "user", Str(e.user), key), Either(If(e.transport != "", "transport", Str(e.transport), key),
                  Either(If(e.moshServer != "", "mosh_server", Str(e.moshServer), key),
                  Either(If(e.identity != "", "identity", Str(e.identity), key),
                         If(e.connectTimeout != 0, "connect_timeout", Num(e.connectTimeout), key))))))))
    ensures Says(KeyLines(e), key) == v
  {
    hide *;
    KeyLinesSay(e, key);
    OptionalLinesSay(e, key);
  }

  /** The lines written for an entry, read key by key, are that entry: each field under
      its own key, whatever it holds, and what is not set is not said; a remote entry
      that does not say whether it is managed is written as not managed. */
  lemma EntryRoundTrip(e: Entry)
    ensures EntryOf(KeyLines(e)) == e.(managed := Managed(e))
  {
    hide KeyLines, Says;
    ApartKeys(e);
  }

  lemma ApartKeys(e: Entry)
    ensures Says(KeyLines(e), "backend") == Some(Str(e.backend)) && Says(KeyLines(e), "host") == Some(Str(e.host))
    ensures Says(KeyLines(e), "managed") == If(Managed(e).Some?, "managed", Bool(On(Managed(e))), "managed")
    ensures Says(KeyLines(e), "user") == If(e.user != "", "user", Str(e.user), "user")
    ensures Says(KeyLines(e), "transport") == If(e.transport != "", "transport", Str(e.transport), "transport")
    ensures Says(KeyLines(e), "mosh_server") == If(e.moshServer != "", "mosh_server", Str(e.moshServer), "mosh_server")
    ensures Says(KeyLines(e), "identity") == If(e.identity != "", "identity", Str(e.identity), "identity")
    ensures Says(KeyLines(e), "connect_timeout") == If(e.connectTimeout != 0, "connect_timeout", Num(e.connectTimeout), "connect_timeout")
  {
    hide KeyLines, Says, Managed;
    assert "backend"[0] != "managed"[0] && "host"[0] != "user"[0];
    FieldSays(e, "backend", Some(Str(e.backend)));
    FieldSays(e, "managed", If(Managed(e).Some?, "managed", Bool(On(Managed(e))), "managed"));
    FieldSays(e, "host", Some(Str(e.host)));
    FieldSays(e, "user", If(e.user != "", "user", Str(e.user), "user"));
    FieldSays(e, "transport", If(e.transport != "", "transport", Str(e.transport), "transport"));
    FieldSays(e, "mosh_server", If(e.moshServer != "", "mosh_server", Str(e.moshServer), "mosh_server"));
    FieldSays(e, "identity", If(e.identity != "", "identity", Str(e.identity), "identity"));
    FieldSays(e, "connect_timeout", If(e.connectTimeout != 0, "connect_timeout", Num(e.connectTimeout), "connect_timeout"));
  }
}
