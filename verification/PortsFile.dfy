/** The file one machine's saved forwards are kept in, and an edit of it while its
    lock is held. */
module PortsFile {
  import opened Lines
  import opened Text

  const INTRO := "# devvm saved forwards for "
  const OUTRO := " on this host: GUEST or HOST:GUEST per line"

  function Rows(ports: seq<string>): string { if ports == [] then "" else ports[0] + "\n" + Rows(ports[1..]) }

  /** writePortsFile. */
  function Render(display: string, ports: seq<string>): string { INTRO + display + OUTRO + "\n" + Rows(ports) }

  function Kept(line: string): seq<string> {
    var t := TrimSpace(line);
    if t == "" || t[0] == '#' then [] else [t]
  }

  function AllKept(lines: seq<string>): seq<string> {
    if lines == [] then [] else Kept(lines[0]) + AllKept(lines[1..])
  }

  /** parsePorts. */
  function Parse(text: string): seq<string> { AllKept(Split(text, '\n')) }

  lemma {:induction false} KeptNext(lines: seq<string>, i: nat)
    requires i < |lines|
    ensures AllKept(lines[..i + 1]) == AllKept(lines[..i]) + Kept(lines[i])
  {
    hide Kept;
    if i == 0 {
      assert lines[..1][1..] == [] && lines[..0] == [];
    } else {
      KeptNext(lines[1..], i - 1);
      var a, b := lines[..i + 1], lines[..i];
      assert a[1..] == lines[1..][..i] && b[1..] == lines[1..][..i - 1];
      assert Kept(lines[0]) + (AllKept(b[1..]) + Kept(lines[i])) == AllKept(b) + Kept(lines[i]);
    }
  }

  method ParsePorts(text: string) returns (ports: seq<string>)
    ensures ports == Parse(text)
  {
    ports := [];
    var lines := Split(text, '\n');
    for i := 0 to |lines|
      invariant ports == AllKept(lines[..i])
    {
      KeptNext(lines, i);
      var line := TrimSpace(lines[i]);
      if line == "" || line[0] == '#' {
        continue;
      }
      ports := ports + [line];
    }
    assert lines[..|lines|] == lines;
  }

  /** A forward that a line of the file can stand for. */
  predicate Forward(p: string) { p != "" && p[0] != '#' && !IsSpace(p[0]) && !IsSpace(p[|p| - 1]) && '\n' !in p }

  lemma KeptForward(p: string)
    requires Forward(p)
    ensures Kept(p) == [p]
  {
    TrimNothing(p);
  }

  lemma {:induction false} RowsRead(ports: seq<string>)
    requires forall p :: p in ports ==> Forward(p)
    ensures Parse(Rows(ports)) == ports
  {
    if ports == [] {
      SplitOne("", '\n');
      assert Kept("") == [];
    } else {
      var rest := Rows(ports[1..]);
      assert ports[0] in ports;
      SplitNext(ports[0], rest, '\n');
      KeptForward(ports[0]);
      RowsRead(ports[1..]);
      ParseFirst(ports[0], rest);
      assert [ports[0]] + ports[1..] == ports;
    }
  }

  lemma ParseFirst(line: string, rest: string)
    requires '\n' !in line
    ensures Parse(line + "\n" + rest) == Kept(line) + Parse(rest)
  {
    SplitNext(line, rest, '\n');
    hide Kept, Split;
    var lines := [line] + Split(rest, '\n');
    assert lines[1..] == Split(rest, '\n');
  }

  lemma {:induction false} ParsedAreForwards(lines: seq<string>)
    requires forall l :: l in lines ==> '\n' !in l
    ensures forall p :: p in AllKept(lines) ==> Forward(p)
  {
    if lines != [] {
      ParsedAreForwards(lines[1..]);
      assert lines[0] in lines;
      KeptIsForward(lines[0]);
      hide Kept, Forward;
    }
  }

  lemma KeptIsForward(line: string)
    requires '\n' !in line
    ensures forall p :: p in Kept(line) ==> Forward(p)
  {
    var t := TrimSpace(line);
    if t != "" {
      TrimStart(line);
      TrimLeftStart(line);
      TrimmedEnds(line);
    }
    hide TrimSpace, IsSpace;
  }

  lemma TrimmedEnds(line: string)
    requires TrimSpace(line) != ""
    ensures !IsSpace(TrimSpace(line)[|TrimSpace(line)| - 1])
    ensures forall c :: c in TrimSpace(line) ==> c in line
  {
    TrimRightEnd(TrimLeft(line));
    TrimLeftWithin(line);
  }

  lemma {:induction false} TrimRightEnd(s: string)
    ensures TrimRight(s) != "" ==> !IsSpace(TrimRight(s)[|TrimRight(s)| - 1])
    ensures forall c :: c in TrimRight(s) ==> c in s
  {
    if s != "" && IsSpace(s[|s| - 1]) {
      TrimRightEnd(s[..|s| - 1]);
    }
  }

  lemma {:induction false} TrimLeftWithin(s: string)
    ensures forall c :: c in TrimLeft(s) ==> c in s
  {
    if s != "" && IsSpace(s[0]) {
      TrimLeftWithin(s[1..]);
    }
  }

  lemma IntroIsComment(display: string)
    requires '\n' !in display
    ensures Kept(INTRO + display + OUTRO) == [] && '\n' !in INTRO + display + OUTRO
  {
    var l := INTRO + display + OUTRO;
    assert l[0] == '#' && TrimLeft(l) == l;
    TrimStart(l);
    assert '\n' !in INTRO && '\n' !in OUTRO;
  }

  /** A list written to the file is read back as it was, if and only if each of its
      entries is one a line can stand for. */
  lemma FileRoundTrip(display: string, ports: seq<string>)
    requires '\n' !in display
    ensures Parse(Render(display, ports)) == ports <==> forall p :: p in ports ==> Forward(p)
  {
    IntroIsComment(display);
    hide Kept, Forward;
    ParseFirst(INTRO + display + OUTRO, Rows(ports));
    assert [] + Parse(Rows(ports)) == Parse(Rows(ports));
    if forall p :: p in ports ==> Forward(p) {
      RowsRead(ports);
    } else {
      SplitParts(Rows(ports), '\n');
      ParsedAreForwards(Split(Rows(ports), '\n'));
    }
  }

  /** This host's ports files, by display name, and the machines stillThere knows. */
  class Host {
    var files: map<string, string>
    var there: set<string>

    ghost function Saved(name: string): seq<string> reads this {
      if name in files then Parse(files[name]) else []
    }

    method LoadPorts(name: string) returns (ports: seq<string>)
      ensures ports == Saved(name)
    {
      if name !in files {
        return [];
      }
      ports := ParsePorts(files[name]);
    }

    method SavePorts(name: string, ports: seq<string>)
      modifies this`files
      ensures files == if ports == [] then old(files) - {name} else old(files)[name := Render(name, ports)]
    {
      if ports == [] {
        files := files - {name};
      } else {
        files := files[name := Render(name, ports)];
      }
    }

    /** editPorts, once it holds the lock: `seen` is what it saw before. It refuses a
        machine deleted meanwhile; it writes nothing for an edit that changes
        nothing; and otherwise the list read back is the edited one. */
    method EditPorts(name: string, seen: bool, edit: seq<string> -> seq<string>) returns (ok: bool)
      requires '\n' !in name
      modifies this`files
      ensures ok == !(seen && name !in there)
      ensures !ok ==> files == old(files)
      ensures ok && edit(old(Saved(name))) == old(Saved(name)) ==> files == old(files)
      ensures ok && edit(old(Saved(name))) == [] != old(Saved(name)) ==> name !in files
      ensures ok && edit(old(Saved(name))) !in [old(Saved(name)), []] ==>
                name in files && files[name] == Render(name, edit(old(Saved(name))))
      ensures ok && (forall p :: p in edit(old(Saved(name))) ==> Forward(p)) ==> Saved(name) == edit(old(Saved(name)))
      ensures forall n :: n != name ==> (n in files <==> n in old(files)) && (n in files ==> files[n] == old(files)[n])
    {
      if seen && name !in there {
        return false;
      }
      var before := LoadPorts(name);
      var after := edit(before);
      if after != before {
        SavePorts(name, after);
        FileRoundTrip(name, after);
      }
      hide Parse, Render, Forward;
      return true;
    }
  }
}
