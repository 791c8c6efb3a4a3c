/** A hub's listing: rows of tab-separated columns, and the cache that keeps them. */
module HubRows {
  import opened Wrappers
  import opened Lines
  import M = Migration
  import Watch

  datatype Row = Row(name: string, backend: string, state: string, forwards: string, managed: string, rest: string)

  const REMOTE := "remote"

  /** The one-axis backends of a hub older than the managed column. */
  function OldBackend(b: string): Option<string> {
    if b == "remote-managed" then Some("managed") else if b == "remote-unmanaged" then Some("unmanaged") else None
  }

  /** One line of a listing, or None for one that is not a row. */
  function RowOf(line: string): Option<Row> {
    var f := Split(line, '\t');
    if |f| < 3 || !M.ValidName(f[0]) then None
    else
      var managed := if |f| > 4 && f[4] != "" then f[4] else "-";
      var axis := OldBackend(f[1]);
      Some(Row(f[0],
               if axis.Some? then REMOTE else f[1],
               f[2],
               if |f| > 3 then f[3] else "-",
               if axis.Some? && managed == "-" then axis.value else managed,
               if |f| > 5 then Join(f[5..], '\t') else ""))
  }

  function Found(r: Option<Row>): seq<Row> {
    match r
    case None => []
    case Some(row) => [row]
  }

  function RowsOf(lines: seq<string>): seq<Row> {
    if lines == [] then [] else Found(RowOf(lines[0])) + RowsOf(lines[1..])
  }

  /** parseHubRows, as a value. */
  function Rows(text: string): seq<Row> { RowsOf(Split(text, '\n')) }

  lemma {:induction false} RowsOfNext(lines: seq<string>, i: nat)
    requires i < |lines|
    ensures RowsOf(lines[..i + 1]) == RowsOf(lines[..i]) + Found(RowOf(lines[i]))
  {
    hide RowOf, Found;
    if i == 0 {
      assert lines[..1][1..] == [] && lines[..0] == [];
    } else {
      RowsOfNext(lines[1..], i - 1);
      var a, b := lines[..i + 1], lines[..i];
      assert lines[1..][..i] == a[1..] && lines[1..][..i - 1] == b[1..];
      assert Found(RowOf(lines[0])) + (RowsOf(b[1..]) + Found(RowOf(lines[i]))) == RowsOf(b) + Found(RowOf(lines[i]));
    }
  }

  /** parseHubRows. */
  method ParseHubRows(text: string) returns (rows: seq<Row>)
    ensures rows == Rows(text)
  {
    rows := [];
    var lines := Split(text, '\n');
    for i := 0 to |lines|
      invariant rows == RowsOf(lines[..i])
    {
      RowsOfNext(lines, i);
      var f := Split(lines[i], '\t');
      if |f| < 3 || !M.ValidName(f[0]) {
        continue;
      }
      var r := Row(f[0], f[1], f[2], "-", "-", "");
      if |f| > 3 {
        r := r.(forwards := f[3]);
      }
      if |f| > 4 && f[4] != "" {
        r := r.(managed := f[4]);
      }
      if r.backend == "remote-managed" || r.backend == "remote-unmanaged" {
        if r.managed == "-" {
          r := r.(managed := if r.backend == "remote-managed" then "managed" else "unmanaged");
        }
        r := r.(backend := REMOTE);
      }
      if |f| > 5 {
        r := r.(rest := Join(f[5..], '\t'));
      }
      rows := rows + [r];
    }
    assert lines[..|lines|] == lines;
  }

  predicate Plain(s: string) { '\t' !in s && '\n' !in s }

  /** A blank line before a listing changes nothing. */
  lemma LeadingNewline(text: string)
    ensures Rows("\n" + text) == Rows(text)
  {
    SplitNext("", text, '\n');
    assert "" + ['\n'] + text == "\n" + text;
    SplitOne("", '\t');
  }

  /** What each line says: columns past the fifth are kept as one, missing ones read
      `-`. The two backends of an older hub are `remote`, and tell the managed column
      unless that one is there. Too few columns, or no machine's name, is no row. */
  lemma LineRead(cols: seq<string>, more: string)
    requires cols != [] && forall c :: c in cols ==> Plain(c)
    ensures Rows(Join(cols, '\t') + "\n" + more) == Rows(Join(cols, '\t')) + Rows(more)
    ensures var rows := Rows(Join(cols, '\t'));
            && (|cols| < 3 || !M.ValidName(cols[0]) ==> rows == [])
            && (|cols| >= 3 && M.ValidName(cols[0]) ==>
                  && |rows| == 1 && rows[0].name == cols[0] && rows[0].state == cols[2]
                  && rows[0].forwards == (if |cols| > 3 then cols[3] else "-")
                  && rows[0].rest == (if |cols| > 5 then Join(cols[5..], '\t') else "")
                  && (cols[1] == "remote-managed" || cols[1] == "remote-unmanaged" ==> rows[0].backend == "remote")
                  && (cols[1] != "remote-managed" && cols[1] != "remote-unmanaged" ==> rows[0].backend == cols[1])
                  && (|cols| > 4 && cols[4] != "" && cols[4] != "-" ==> rows[0].managed == cols[4])
                  && (|cols| <= 4 || cols[4] == "" || cols[4] == "-" ==>
                        rows[0].managed == if cols[1] == "remote-managed" then "managed"
                                           else if cols[1] == "remote-unmanaged" then "unmanaged" else "-"))
  {
    var line := Join(cols, '\t');
    JoinKeepsOut(cols, '\t', '\n');
    SplitJoin(cols, '\t');
    OneLine(line, more);
    hide M.ValidName, Join, Split, Rows, RowsOf;
  }

  /** The row of a hub whose devvm.toml does not parse names no machine. */
  lemma BrokenIsNoRow(more: string)
    ensures Rows(Watch.BROKEN_ROW + more) == Rows(more)
  {
    var cols := ["-", "-", "broken conf", "-", "-", "-"];
    assert Watch.BROKEN_ROW == Join(cols, '\t') + "\n";
    BrokenColumns(cols);
    hide *;
    LineRead(cols, more);
  }

  lemma BrokenColumns(cols: seq<string>)
    requires cols == ["-", "-", "broken conf", "-", "-", "-"]
    ensures cols != [] && !M.ValidName(cols[0]) && forall c :: c in cols ==> Plain(c)
  {
    assert cols[0][0] == '-';
  }

  lemma OneLine(line: string, more: string)
    requires '\n' !in line
    ensures Rows(line) == Found(RowOf(line)) && Rows(line + "\n" + more) == Rows(line) + Rows(more)
  {
    hide RowOf, Found, Split;
    SplitOne(line, '\n');
    SplitNext(line, more, '\n');
    assert line + ['\n'] + more == line + "\n" + more;
    assert ([line] + Split(more, '\n'))[1..] == Split(more, '\n');
    assert RowsOf([line]) == Found(RowOf(line)) + RowsOf([]);
  }

  lemma NoText()
    ensures Rows("") == []
  {
    SplitOne("", '\t');
  }

  // ---------------------------------------------------------------------
  // The cache
  // ---------------------------------------------------------------------

  function Columns(r: Row): seq<string> {
    [r.name, r.backend, r.state, r.forwards, r.managed] + if r.rest == "" then [] else [r.rest]
  }

  /** hubCacheText. */
  function CacheText(rows: seq<Row>): string {
    if rows == [] then "" else Join(Columns(rows[0]), '\t') + "\n" + CacheText(rows[1..])
  }

  /** What a row that was read from a line is like. */
  ghost predicate Read(r: Row) {
    && M.ValidName(r.name) && OldBackend(r.backend).None? && r.managed != ""
    && Plain(r.name) && Plain(r.backend) && Plain(r.state) && Plain(r.forwards) && Plain(r.managed) && '\n' !in r.rest
  }

  lemma RowIsRead(line: string)
    requires '\n' !in line && RowOf(line).Some?
    ensures Read(RowOf(line).value)
  {
    var f := Split(line, '\t');
    SplitParts(line, '\t');
    hide Split, M.ValidName;
    forall i | 0 <= i < |f| ensures Plain(f[i]) {
      assert f[i] in f;
    }
    if |f| > 5 {
      forall p | p in f[5..] ensures '\n' !in p {
        assert p in f;
      }
      JoinKeepsOut(f[5..], '\t', '\n');
    }
  }

  /** The columns of a row's line. */
  lemma ColumnsSplit(r: Row)
    requires Read(r)
    ensures var line := Join(Columns(r), '\t');
            && '\n' !in line
            && Split(line, '\t') == [r.name, r.backend, r.state, r.forwards, r.managed] + if r.rest == "" then [] else Split(r.rest, '\t')
  {
    hide M.ValidName, Join, Split;
    var five := [r.name, r.backend, r.state, r.forwards, r.managed];
    var more := Split(r.rest, '\t');
    var f := if r.rest == "" then five else five + more;
    SplitParts(r.rest, '\t');
    if r.rest == "" {
      assert Columns(r) == five;
    } else {
      assert Columns(r) == five + [r.rest];
      JoinAppend(five, more, '\t');
      JoinAppend(five, [r.rest], '\t');
      JoinOne(r.rest);
    }
    SplitJoin(f, '\t');
    JoinKeepsOut(Columns(r), '\t', '\n');
  }

  lemma JoinOne(s: string)
    ensures Join([s], '\t') == s
  {
  }

  /** A row written to the cache is read back as it was. */
  lemma RowRoundTrip(r: Row)
    requires Read(r)
    ensures RowOf(Join(Columns(r), '\t')) == Some(r) && '\n' !in Join(Columns(r), '\t')
  {
    hide M.ValidName, Join, Split, Columns;
    ColumnsSplit(r);
    SplitParts(r.rest, '\t');
    var f := Split(Join(Columns(r), '\t'), '\t');
    assert r.rest != "" ==> f[5..] == Split(r.rest, '\t');
  }

  lemma {:induction false} CacheTextReads(rows: seq<Row>)
    requires forall r :: r in rows ==> Read(r)
    ensures Rows(CacheText(rows)) == rows
  {
    if rows == [] {
      NoText();
    } else {
      var line := Join(Columns(rows[0]), '\t');
      RowRoundTrip(rows[0]);
      SplitNext(line, CacheText(rows[1..]), '\n');
      assert line + ['\n'] + CacheText(rows[1..]) == CacheText(rows);
      CacheTextReads(rows[1..]);
      var lines := [line] + Split(CacheText(rows[1..]), '\n');
      assert lines[1..] == Split(CacheText(rows[1..]), '\n');
    }
  }

  lemma {:induction false} RowsAreRead(lines: seq<string>)
    requires forall l :: l in lines ==> '\n' !in l
    ensures forall r :: r in RowsOf(lines) ==> Read(r)
  {
    if lines != [] {
      RowsAreRead(lines[1..]);
      if RowOf(lines[0]).Some? {
        RowIsRead(lines[0]);
      }
    }
  }

  /** Whatever text a hub sent, a banner in it, columns of a newer hub, the old
      backends: the rows taken from it and cached are the rows read back. */
  lemma CacheRoundTrip(text: string)
    ensures Rows(CacheText(Rows(text))) == Rows(text)
  {
    SplitParts(text, '\n');
    RowsAreRead(Split(text, '\n'));
    CacheTextReads(Rows(text));
  }
}
