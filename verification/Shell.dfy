/** Command lines through several shells: how they are quoted, and what the shells
    and `env` read back. */
module Shell {
  import opened Wrappers

  // ---------------------------------------------------------------------
  // Printing
  // ---------------------------------------------------------------------

  /** strings.ReplaceAll of a single quote by '\'' . */
  function EscapeQuotes(s: string): string {
    if s == [] then [] else (if s[0] == '\'' then "'\\''" else [s[0]]) + EscapeQuotes(s[1..])
  }

  function PosixQuote(s: string): string { "'" + EscapeQuotes(s) + "'" }

  function ShellJoin(toks: seq<string>): string {
    if toks == [] then "" else if |toks| == 1 then PosixQuote(toks[0]) else PosixQuote(toks[0]) + " " + ShellJoin(toks[1..])
  }

  lemma {:induction false} ShellJoinNext(toks: seq<string>, i: nat)
    requires i < |toks|
    ensures ShellJoin(toks[..i + 1]) == (if i == 0 then "" else ShellJoin(toks[..i]) + " ") + PosixQuote(toks[i])
  {
    if i > 0 {
      ShellJoinNext(toks[1..], i - 1);
      var a, b := toks[..i + 1], toks[..i];
      assert a[1..] == toks[1..][..i] && b[1..] == toks[1..][..i - 1];
      if i == 1 {
        assert ShellJoin(b) == PosixQuote(toks[0]);
      } else {
        assert PosixQuote(toks[0]) + " " + (ShellJoin(b[1..]) + " " + PosixQuote(toks[i]))
            == PosixQuote(toks[0]) + " " + ShellJoin(b[1..]) + " " + PosixQuote(toks[i]);
      }
    }
  }

  /** shellJoin: quote each token, join with spaces. */
  method Join(toks: seq<string>) returns (line: string)
    ensures line == ShellJoin(toks)
  {
    line := "";
    for i := 0 to |toks|
      invariant line == ShellJoin(toks[..i])
    {
      ShellJoinNext(toks, i);
      line := (if i == 0 then "" else line + " ") + PosixQuote(toks[i]);
    }
    assert toks[..|toks|] == toks;
  }

  // ---------------------------------------------------------------------
  // Reading: sections 2.2.1 and 2.2.2 of the Shell Command Language
  // ---------------------------------------------------------------------

  /** What means something to the shell when it is not quoted, blanks, single
      quotes and backslashes aside. */
  const SPECIAL := "|&;<>()$`\"*?[#~=%!{}\n"

  predicate Ordinary(c: char) { c !in SPECIAL && c != ' ' && c != '\t' && c != '\'' && c != '\\' }

  /** The words of one simple command, None for text that is more than that or is
      not whole. `word` is the word being read, None between words. */
  function Scan(s: string, quoted: bool, word: Option<string>): Option<seq<string>> {
    var sofar := if word.Some? then word.value else "";
    if s == [] then
      if quoted then None else Some(if word.Some? then [sofar] else [])
    else if quoted then
      if s[0] == '\'' then Scan(s[1..], false, Some(sofar)) else Scan(s[1..], true, Some(sofar + [s[0]]))
    else if s[0] == '\'' then Scan(s[1..], true, Some(sofar))
    else if s[0] == '\\' then
      if |s| == 1 then None
      else if s[1] == '\n' then Scan(s[2..], false, word)
      else Scan(s[2..], false, Some(sofar + [s[1]]))
    else if s[0] == ' ' || s[0] == '\t' then
      var rest := Scan(s[1..], false, None);
      if rest.None? || word.None? then rest else Some([sofar] + rest.value)
    else if s[0] in SPECIAL then None
    else Scan(s[1..], false, Some(sofar + [s[0]]))
  }

  function Words(s: string): Option<seq<string>> { Scan(s, false, None) }

  lemma {:induction false} ScanEscaped(s: string, rest: string, word: string)
    ensures Scan(EscapeQuotes(s) + "'" + rest, true, Some(word)) == Scan(rest, false, Some(word + s))
  {
    var all := EscapeQuotes(s) + "'" + rest;
    if s == [] {
      assert all == "'" + rest;
      assert word + s == word;
    } else {
      var tail := EscapeQuotes(s[1..]) + "'" + rest;
      assert word + [s[0]] + s[1..] == word + s;
      if s[0] == '\'' {
        assert all == "'\\''" + tail;
        var a, c := "\\''" + tail, "'" + tail;
        assert all[0] == '\'' && all[1..] == a;
        assert Scan(all, true, Some(word)) == Scan(a, false, Some(word));
        assert a[0] == '\\' && a[1] == '\'' && a[2..] == c;
        assert Scan(a, false, Some(word)) == Scan(c, false, Some(word + ['\'']));
        assert c[0] == '\'' && c[1..] == tail;
      } else {
        assert all == [s[0]] + tail;
        assert all[0] == s[0] && all[1..] == tail;
      }
      ScanEscaped(s[1..], rest, word + [s[0]]);
    }
  }

  /** A quoted token is read as one word, itself, wherever the next one begins. */
  lemma ScanQuoted(s: string, rest: string)
    ensures Scan(PosixQuote(s) + rest, false, None) == Scan(rest, false, Some(s))
  {
    var all := PosixQuote(s) + rest;
    assert all[0] == '\'' && all[1..] == EscapeQuotes(s) + "'" + rest;
    ScanEscaped(s, rest, "");
    assert "" + s == s;
  }

  /** Whatever is in the tokens, quotes, blanks, newlines, `$`, nothing at all: a
      joined line is read back as exactly those tokens. */
  lemma {:induction false} JoinReadBack(toks: seq<string>)
    ensures Words(ShellJoin(toks)) == Some(toks)
  {
    if |toks| == 1 {
      ScanQuoted(toks[0], "");
      assert PosixQuote(toks[0]) + "" == PosixQuote(toks[0]);
      assert [toks[0]] == toks;
    } else if |toks| > 1 {
      var rest := " " + ShellJoin(toks[1..]);
      ScanQuoted(toks[0], rest);
      assert PosixQuote(toks[0]) + rest == ShellJoin(toks);
      assert rest[1..] == ShellJoin(toks[1..]);
      JoinReadBack(toks[1..]);
      assert [toks[0]] + toks[1..] == toks;
    }
  }

  predicate PlainWord(w: string) {
    w != "" && forall i :: 0 <= i < |w| ==> Ordinary(w[i])
  }

  lemma {:induction false} ScanPlain(w: string, rest: string, word: Option<string>)
    requires forall i :: 0 <= i < |w| ==> Ordinary(w[i])
    requires word.Some? || w != ""
    ensures Scan(w + rest, false, word) == Scan(rest, false, Some((if word.Some? then word.value else "") + w))
  {
    var sofar := if word.Some? then word.value else "";
    if w == "" {
      assert w + rest == rest && sofar + w == sofar;
    } else {
      assert Ordinary(w[0]);
      assert (w + rest)[0] == w[0] && (w + rest)[1..] == w[1..] + rest;
      assert sofar + [w[0]] + w[1..] == sofar + w;
      ScanPlain(w[1..], rest, Some(sofar + [w[0]]));
    }
  }

  lemma PlainThen(w: string, rest: string)
    requires PlainWord(w) && Words(rest).Some?
    ensures Words(w + " " + rest) == Some([w] + Words(rest).value)
  {
    ScanPlain(w, " " + rest, None);
    assert w + " " + rest == w + (" " + rest);
    assert (" " + rest)[1..] == rest;
    assert "" + w == w;
  }

  // ---------------------------------------------------------------------
  // The ssh hop
  // ---------------------------------------------------------------------

  /** What of ExecOpts a command line depends on. */
  datatype Opts = Opts(login: bool, env: map<string, string>)

  function Assignments(env: map<string, string>, keys: seq<string>): seq<string>
    requires forall k :: k in keys ==> k in env
  {
    if keys == [] then [] else [keys[0] + "=" + env[keys[0]]] + Assignments(env, keys[1..])
  }

  function RootWrap(root: bool, argv: seq<string>): seq<string> { if root then ["sudo"] + argv else argv }

  /** The tokens remoteCommand joins, listing the environment in `keys` order. */
  function RemoteTokens(o: Opts, keys: seq<string>, argv: seq<string>): seq<string>
    requires forall k :: k in keys ==> k in o.env
  {
    if o.env != map[] then ["env"] + Assignments(o.env, keys) + argv else argv
  }

  function RemoteCommand(o: Opts, keys: seq<string>, argv: seq<string>): string
    requires forall k :: k in keys ==> k in o.env
  {
    var joined := ShellJoin(RemoteTokens(o, keys, argv));
    if o.login then "bash -lc " + PosixQuote(joined) else joined
  }

  const EXEC_SCRIPT := "exec \"${SHELL:-sh}\" -lc \"$0\""
  const TTY_SCRIPT := "trap : INT; \"${SHELL:-sh}\" -lc \"$0\""

  /** What runs in the end when a remote shell is handed `line`: its own words, or,
      when those hand a text on to a login shell (`bash -lc TEXT`, or `sh -c` with
      one of the two scripts, whose $0 is TEXT), the words that shell reads in it. */
  function Runs(line: string): Option<seq<string>> {
    var words := Words(line);
    if words.None? then None
    else
      var v := words.value;
      if |v| == 3 && v[..2] == ["bash", "-lc"] then Words(v[2])
      else if |v| == 4 && v[..2] == ["sh", "-c"] && (v[2] == EXEC_SCRIPT || v[2] == TTY_SCRIPT) then Words(v[3])
      else words
  }

  lemma RunsLogin(line: string, text: string)
    requires Words(line) == Some(["bash", "-lc", text])
    ensures Runs(line) == Words(text)
  {
    hide Words;
    assert ["bash", "-lc", text][..2] == ["bash", "-lc"];
  }

  lemma BashWords(text: string)
    ensures Words("bash -lc " + PosixQuote(text)) == Some(["bash", "-lc", text])
  {
    JoinReadBack([text]);
    var q := PosixQuote(text);
    hide Scan, PosixQuote;
    assert ShellJoin([text]) == q;
    PlainThen("-lc", q);
    PlainThen("bash", "-lc" + " " + q);
    assert "bash" + " " + ("-lc" + " " + q) == "bash -lc " + q;
    assert ["bash"] + (["-lc"] + [text]) == ["bash", "-lc", text];
  }

  /** A run on an ssh host runs exactly the command, after `env` and the assignments if
      an environment is passed along: read by the remote shell itself, or, for a login
      run, by the login shell that is handed the text. */
  lemma RemoteRunExact(o: Opts, keys: seq<string>, argv: seq<string>)
    requires forall k :: k in keys ==> k in o.env
    ensures var line, toks := RemoteCommand(o, keys, argv), (if o.env == map[] then [] else ["env"] + Assignments(o.env, keys)) + argv;
            if o.login then Runs(line) == Some(toks) else Words(line) == Some(toks)
  {
    var toks := RemoteTokens(o, keys, argv);
    assert toks == (if o.env == map[] then [] else ["env"] + Assignments(o.env, keys)) + argv;
    JoinReadBack(toks);
    if o.login {
      BashWords(ShellJoin(toks));
      RunsLogin(RemoteCommand(o, keys, argv), ShellJoin(toks));
    }
    hide Words, ShellJoin, PosixQuote, RemoteTokens, Runs;
  }

  // ---------------------------------------------------------------------
  // The hub hop
  // ---------------------------------------------------------------------

  const NO_SUBSCRIBE := "DEVVM_NO_SUBSCRIBE"

  function ProxyArgv(argv: seq<string>): seq<string> { ["env", NO_SUBSCRIBE + "=1", "devvm"] + argv }

  function LoginShellArgv(argv: seq<string>): seq<string> { ["sh", "-c", EXEC_SCRIPT, ShellJoin(argv)] }

  function TtyLoginShellArgv(argv: seq<string>): seq<string> { ["sh", "-c", TTY_SCRIPT, ShellJoin(argv)] }

  /** The line a proxied devvm command hands to ssh. */
  function ProxyLine(tty: bool, argv: seq<string>): string {
    var wrapped := if tty then TtyLoginShellArgv(ProxyArgv(argv)) else LoginShellArgv(ProxyArgv(argv));
    RemoteCommand(Opts(false, map[]), [], wrapped)
  }

  /** The hub runs exactly the proxied command line, whatever its tokens. */
  lemma ProxyExact(tty: bool, argv: seq<string>)
    ensures Runs(ProxyLine(tty, argv)) == Some(ProxyArgv(argv))
  {
    var text := ShellJoin(ProxyArgv(argv));
    var wrapped := ["sh", "-c", if tty then TTY_SCRIPT else EXEC_SCRIPT, text];
    JoinReadBack(ProxyArgv(argv));
    JoinReadBack(wrapped);
    hide Words, ShellJoin;
    assert wrapped[..2] == ["sh", "-c"];
  }

  predicate NameStart(c: char) { 'A' <= c <= 'Z' || 'a' <= c <= 'z' || c == '_' }

  /** A portable environment variable name. */
  predicate EnvName(k: string) {
    k != "" && NameStart(k[0]) && forall i :: 0 <= i < |k| ==> NameStart(k[i]) || '0' <= k[i] <= '9'
  }

  /** Byte-wise order. */
  predicate Before(a: string, b: string) {
    if a == "" then b != "" else if b == "" then false else a[0] < b[0] || (a[0] == b[0] && Before(a[1..], b[1..]))
  }

  /** ... that is, by the first byte that differs, a shorter one before its longer. */
  lemma {:induction false} BeforeByBytes(common: string, x: string, y: string)
    requires y != "" && (x == "" || x[0] < y[0])
    ensures Before(common + x, common + y) && !Before(common + y, common + x)
  {
    if common == "" {
      assert common + x == x && common + y == y;
    } else {
      assert (common + x)[1..] == common[1..] + x && (common + y)[1..] == common[1..] + y;
      BeforeByBytes(common[1..], x, y);
    }
  }

  ghost predicate Sorted(keys: seq<string>) { forall i, j :: 0 <= i < j < |keys| ==> Before(keys[i], keys[j]) }

  lemma {:induction false} BeforeOrder(a: string, b: string, c: string)
    ensures !Before(a, a)
    ensures a == b || Before(a, b) || Before(b, a)
    ensures Before(a, b) && Before(b, c) ==> Before(a, c)
  {
    if a != "" {
      BeforeOrder(a[1..], if b == "" then "" else b[1..], if c == "" then "" else c[1..]);
      if b != "" && a[0] == b[0] && a[1..] == b[1..] {
        assert a == [a[0]] + a[1..] && b == [b[0]] + b[1..];
      }
    }
  }

  function Insert(keys: seq<string>, k: string): seq<string> {
    if keys == [] || Before(k, keys[0]) then [k] + keys else [keys[0]] + Insert(keys[1..], k)
  }

  lemma {:induction false} InsertSorted(keys: seq<string>, k: string)
    requires Sorted(keys) && k !in keys
    ensures Sorted(Insert(keys, k))
    ensures forall x :: x in Insert(keys, k) <==> x in keys || x == k
  {
    if keys == [] {
    } else if Before(k, keys[0]) {
      forall i | 0 <= i < |keys| ensures Before(k, keys[i]) {
        BeforeOrder(k, keys[0], keys[i]);
      }
    } else {
      var rest := Insert(keys[1..], k);
      assert forall x :: x in keys <==> x == keys[0] || x in keys[1..];
      InsertSorted(keys[1..], k);
      BeforeOrder(keys[0], k, k);
      assert keys[0] in keys;
      forall i | 0 <= i < |rest| ensures Before(keys[0], rest[i]) {
        assert rest[i] in rest;
      }
    }
  }

  lemma SomeMember(b: seq<string>) returns (x: string)
    requires b != []
    ensures x in b
  {
    x := b[0];
  }

  lemma NoMembers(b: seq<string>)
    requires forall x :: x !in b
    ensures b == []
  {
    if b != [] {
      var x := SomeMember(b);
    }
  }

  /** Two sorted lists of the same names are the same list. */
  lemma {:induction false} SortedUnique(a: seq<string>, b: seq<string>)
    requires Sorted(a) && Sorted(b) && forall x :: x in a <==> x in b
    ensures a == b
  {
    if a == [] {
      NoMembers(b);
    } else {
      assert a[0] in a && a[0] in b;
      assert b[0] in b && b[0] in a;
      FirstIsLeast(a, b[0]);
      FirstIsLeast(b, a[0]);
      BeforeOrder(a[0], b[0], a[0]);
      forall x ensures x in a[1..] <==> x in b[1..] {
        FirstNotAgain(a, x);
        FirstNotAgain(b, x);
      }
      SortedUnique(a[1..], b[1..]);
    }
  }

  lemma FirstIsLeast(a: seq<string>, x: string)
    requires Sorted(a) && x in a
    ensures x == a[0] || Before(a[0], x)
  {
  }

  lemma FirstNotAgain(a: seq<string>, x: string)
    requires Sorted(a) && a != []
    ensures x in a[1..] <==> x in a && x != a[0]
  {
    if x in a[1..] {
      var i :| 0 <= i < |a[1..]| && a[1..][i] == x;
      assert Before(a[0], a[i + 1]);
      BeforeOrder(a[0], a[0], a[0]);
    }
  }

  /** The keys of `env`, in the one order guestEnvArgv lists them. */
  ghost predicate KeysOf(env: map<string, string>, keys: seq<string>) {
    Sorted(keys) && forall k :: k in keys <==> k in env
  }

  /** `env` and its assignments, or nothing for no environment. */
  function GuestTokens(env: map<string, string>, keys: seq<string>): seq<string>
    requires forall k :: k in keys ==> k in env
  {
    if env == map[] then [] else ["env"] + Assignments(env, keys)
  }

  /** guestEnvArgv: `env K=V ...` with the names sorted, nothing for no environment,
      refused for a name that is not one. */
  method GuestEnvArgv(env: map<string, string>) returns (argv: Option<seq<string>>, ghost keys: seq<string>)
    ensures argv.Some? <==> forall k :: k in env ==> EnvName(k)
    ensures argv.Some? ==> KeysOf(env, keys) && argv.value == GuestTokens(env, keys)
  {
    if env == map[] {
      return Some([]), [];
    }
    var names := [];
    var todo := env.Keys;
    while todo != {}
      invariant todo <= env.Keys && Sorted(names)
      invariant forall k :: k in names <==> k in env && k !in todo
      invariant forall k :: k in names ==> EnvName(k)
      decreases todo
    {
      var k :| k in todo;
      if !EnvName(k) {
        return None, [];
      }
      InsertSorted(names, k);
      names := Insert(names, k);
      todo := todo - {k};
    }
    keys := names;
    var out := ["env"];
    for i := 0 to |names|
      invariant out == ["env"] + Assignments(env, names[..i])
    {
      AssignmentsNext(env, names, i);
      out := out + [names[i] + "=" + env[names[i]]];
    }
    assert names[..|names|] == names;
    argv := Some(out);
  }

  lemma {:induction false} AssignmentsNext(env: map<string, string>, keys: seq<string>, i: nat)
    requires i < |keys| && forall k :: k in keys ==> k in env
    ensures Assignments(env, keys[..i + 1]) == Assignments(env, keys[..i]) + [keys[i] + "=" + env[keys[i]]]
  {
    if i == 0 {
      assert keys[..1][1..] == [];
    } else {
      AssignmentsNext(env, keys[1..], i - 1);
      assert keys[..i + 1][1..] == keys[1..][..i] && keys[..i][1..] == keys[1..][..i - 1];
    }
  }

  /** hubBackend.Run: the devvm command line it proxies. */
  function HubRunArgv(name: string, root: bool, envArgv: seq<string>, argv: seq<string>): seq<string> {
    ["exec", name, "--"] + RootWrap(root, envArgv + argv)
  }

  // ---------------------------------------------------------------------
  // What `env` makes of its arguments
  // ---------------------------------------------------------------------

  /** Where the first `=` is, |s| for none. */
  function Equals(s: string): (i: nat)
    ensures i <= |s| && (i < |s| ==> s[i] == '=') && forall j :: 0 <= j < i ==> s[j] != '='
  {
    if s == "" || s[0] == '=' then 0 else 1 + Equals(s[1..])
  }

  /** The arguments of `env` that are assignments, and the command after them. */
  function EnvReads(args: seq<string>, env: map<string, string>): (map<string, string>, seq<string>) {
    if args == [] || Equals(args[0]) == |args[0]| then (env, args)
    else
      var i := Equals(args[0]);
      EnvReads(args[1..], env[args[0][..i] := args[0][i + 1..]])
  }

  ghost function Listed(env: map<string, string>, keys: seq<string>): map<string, string> {
    map k | k in env && k in keys :: env[k]
  }

  lemma {:induction false} EnvReadsAssignments(env: map<string, string>, keys: seq<string>, argv: seq<string>, got: map<string, string>)
    requires forall k :: k in keys ==> k in env && EnvName(k)
    ensures EnvReads(Assignments(env, keys) + argv, got)
            == EnvReads(argv, got + Listed(env, keys))
  {
    if keys == [] {
      assert Assignments(env, keys) + argv == argv;
      assert got + Listed(env, keys) == got;
    } else {
      var k := keys[0];
      var v := env[k];
      ReadsOne(k, v, Assignments(env, keys[1..]) + argv, got);
      assert Assignments(env, keys) + argv == [k + "=" + v] + (Assignments(env, keys[1..]) + argv);
      hide EnvReads, Listed, EnvName;
      EnvReadsAssignments(env, keys[1..], argv, got[k := v]);
      ListedNext(env, keys, got);
    }
  }

  lemma ListedNext(env: map<string, string>, keys: seq<string>, got: map<string, string>)
    requires keys != [] && keys[0] in env
    ensures got[keys[0] := env[keys[0]]] + Listed(env, keys[1..]) == got + Listed(env, keys)
  {
    assert forall k :: k in keys <==> k == keys[0] || k in keys[1..];
  }

  lemma ReadsOne(k: string, v: string, args: seq<string>, got: map<string, string>)
    requires EnvName(k)
    ensures EnvReads([k + "=" + v] + args, got) == EnvReads(args, got[k := v])
  {
    var t := k + "=" + v;
    NoEquals(k);
    assert t[|k|] == '=' && forall j :: 0 <= j < |k| ==> t[j] == k[j];
    assert Equals(t) == |k|;
    assert t[..|k|] == k && t[|k| + 1..] == v;
    assert ([t] + args)[1..] == args;
  }

  lemma NoEquals(k: string)
    requires EnvName(k)
    ensures forall j :: 0 <= j < |k| ==> k[j] != '='
  {
  }

  /** The environment the guest sets and the command it runs: without `env` in
      front, the command as it is. */
  function InGuest(envArgv: seq<string>, argv: seq<string>): (map<string, string>, seq<string>) {
    if envArgv == [] then (map[], argv) else EnvReads(envArgv[1..] + argv, map[])
  }

  /** The guest gets exactly the environment and runs exactly the command, if and
      only if there is no environment or the command's own first word has no `=` for
      `env` to take too. */
  lemma GuestEnvExact(env: map<string, string>, keys: seq<string>, argv: seq<string>)
    requires KeysOf(env, keys) && forall k :: k in env ==> EnvName(k)
    ensures InGuest(GuestTokens(env, keys), argv) == (env, argv) <==> env == map[] || argv == [] || '=' !in argv[0]
  {
    assert env != map[] ==> GuestTokens(env, keys)[1..] == Assignments(env, keys);
    EnvReadsAssignments(env, keys, argv, map[]);
    assert map[] + Listed(env, keys) == env;
    if argv != [] {
      if Equals(argv[0]) < |argv[0]| {
        EnvReadsShorter(argv[1..], env[argv[0][..Equals(argv[0])] := argv[0][Equals(argv[0]) + 1..]]);
      }
    }
  }

  lemma {:induction false} EnvReadsShorter(args: seq<string>, env: map<string, string>)
    ensures |EnvReads(args, env).1| <= |args|
  {
    if args != [] && Equals(args[0]) < |args[0]| {
      EnvReadsShorter(args[1..], env[args[0][..Equals(args[0])] := args[0][Equals(args[0]) + 1..]]);
    }
  }

  lemma NoSubscribeName()
    ensures EnvName(NO_SUBSCRIBE)
  {
    var s := NO_SUBSCRIBE;
    forall i | 0 <= i < |s| ensures NameStart(s[i]) {
    }
  }

  /** A proxied exec, end to end: the hub runs devvm with exactly this command line
      after its `--`, under the one variable that keeps it from subscribing. */
  lemma HubRunExact(name: string, tty: bool, root: bool, envArgv: seq<string>, argv: seq<string>)
    ensures Runs(ProxyLine(tty, HubRunArgv(name, root, envArgv, argv)))
            == Some(["env", NO_SUBSCRIBE + "=1"] + (["devvm", "exec", name, "--"] + (if root then ["sudo"] else []) + envArgv + argv))
    ensures EnvReads([NO_SUBSCRIBE + "=1"] + (["devvm", "exec", name, "--"] + (if root then ["sudo"] else []) + envArgv + argv), map[])
            == (map[NO_SUBSCRIBE := "1"], ["devvm", "exec", name, "--"] + (if root then ["sudo"] else []) + envArgv + argv)
  {
    var rest := ["devvm", "exec", name, "--"] + RootWrap(root, envArgv + argv);
    assert rest == ["devvm", "exec", name, "--"] + (if root then ["sudo"] else []) + envArgv + argv;
    ProxyExact(tty, HubRunArgv(name, root, envArgv, argv));
    assert ProxyArgv(HubRunArgv(name, root, envArgv, argv)) == ["env", NO_SUBSCRIBE + "=1"] + rest;
    hide Runs, ProxyLine, RootWrap;
    NoSubscribeName();
    hide EnvName;
    ReadsOne(NO_SUBSCRIBE, "1", rest, map[]);
    assert NO_SUBSCRIBE + "=" + "1" == NO_SUBSCRIBE + "=1";
    assert Equals(rest[0]) == |rest[0]| by { assert rest[0] == "devvm"; }
  }
}
