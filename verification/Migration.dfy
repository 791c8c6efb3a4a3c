/** The one-time seeding of the ports directory from the old confs, by any number
    of first runs at once, each of which may die at any step. */
module Migration {
  import opened Wrappers

  /** An old conf, as far as it was ever about ports. */
  datatype Conf = Conf(hub: bool, ports: seq<string>, machines: map<string, seq<string>>)

  /** machines/NAME.toml by NAME; None for one that does not parse. */
  type Legacy = map<string, Option<Conf>>

  type Files = map<string, seq<string>>

  predicate NameChar(c: char) { '0' <= c <= '9' || 'A' <= c <= 'Z' || 'a' <= c <= 'z' || c in "._-" }

  predicate ValidName(n: string) {
    n != [] && n[0] !in "._-" && forall i :: 0 <= i < |n| ==> NameChar(n[i])
  }

  /** Replace the first `from` in `s`. */
  function ReplaceFirst(s: string, from: char, to: char): string {
    if s == [] then [] else if s[0] == from then [to] + s[1..] else [s[0]] + ReplaceFirst(s[1..], from, to)
  }

  function JoinHubName(hub: string, machine: string): string { hub + "/" + machine }

  function RuntimeName(display: string): string { ReplaceFirst(display, '/', '@') }

  function DisplayName(runtime: string): string { ReplaceFirst(runtime, '@', '/') }

  /** The files one conf seeds. */
  function FilesOf(n: string, c: Conf): Files {
    RuntimeNamesApart(n);
    if !c.hub then if c.ports == [] then map[] else map[n := c.ports]
    else map m | m in c.machines && c.machines[m] != [] && ValidName(m) :: RuntimeName(JoinHubName(n, m)) := c.machines[m]
  }

  /** Replacing the first `/` leaves what follows the joining one as it was. */
  lemma {:induction false} TailKept(n: string, m: string)
    ensures var s := RuntimeName(JoinHubName(n, m)); |s| == |n| + 1 + |m| && s[|n| + 1..] == m
  {
    var s := JoinHubName(n, m);
    if n == [] {
      assert s[0] == '/' && s[1..] == m;
    } else {
      assert s[0] == n[0] && s[1..] == JoinHubName(n[1..], m);
      TailKept(n[1..], m);
    }
  }

  lemma RuntimeNamesApart(n: string)
    ensures forall a, b :: RuntimeName(JoinHubName(n, a)) == RuntimeName(JoinHubName(n, b)) ==> a == b
  {
    forall a: string, b: string | RuntimeName(JoinHubName(n, a)) == RuntimeName(JoinHubName(n, b)) ensures a == b {
      TailKept(n, a);
      TailKept(n, b);
    }
  }

  function ValidNames(legacy: Legacy): set<string> { set n | n in legacy && ValidName(n) }

  /** `files` is what the confs in `done` seed: theirs are all in it, as they have
      them, and nothing else is. */
  ghost predicate SeedOf(legacy: Legacy, done: set<string>, files: Files) {
    && (forall n :: n in done ==> n in legacy && legacy[n].Some?)
    && (forall n, f :: n in done && f in FilesOf(n, legacy[n].value) ==>
          f in files && files[f] == FilesOf(n, legacy[n].value)[f])
    && (forall f :: f in files ==> exists n :: n in done && f in FilesOf(n, legacy[n].value))
  }

  /** Every old conf's ports are in `files`, a plain conf's under its own name and those
      of a hub's machine under HUB@NAME, as the conf has them; and nothing else is. Empty
      lists, and machines without a valid name, leave no file. */
  ghost predicate Whole(legacy: Legacy, files: Files) {
    && (forall n :: n in legacy && ValidName(n) && legacy[n].Some? && !legacy[n].value.hub && legacy[n].value.ports != [] ==>
          n in files && files[n] == legacy[n].value.ports)
    && (forall n, m :: n in legacy && ValidName(n) && legacy[n].Some? && legacy[n].value.hub && m in legacy[n].value.machines
                       && ValidName(m) && legacy[n].value.machines[m] != [] ==>
          n + "@" + m in files && files[n + "@" + m] == legacy[n].value.machines[m])
    && (forall f :: f in files ==> PlainFile(legacy, f) || HubFile(legacy, f))
  }

  ghost predicate PlainFile(legacy: Legacy, f: string) {
    f in legacy && ValidName(f) && legacy[f].Some? && !legacy[f].value.hub && legacy[f].value.ports != []
  }

  ghost predicate HubFile(legacy: Legacy, f: string) {
    exists n, m :: f == n + "@" + m && HubMachine(legacy, n, m)
  }

  ghost predicate HubMachine(legacy: Legacy, n: string, m: string) {
    n in legacy && ValidName(n) && legacy[n].Some? && legacy[n].value.hub
    && m in legacy[n].value.machines && ValidName(m) && legacy[n].value.machines[m] != []
  }

  lemma SeedIsWhole(legacy: Legacy, files: Files)
    requires SeedOf(legacy, ValidNames(legacy), files)
    ensures Whole(legacy, files)
  {
    hide RuntimeName, ValidName, JoinHubName;
    forall n, m | HubMachine(legacy, n, m) ensures n + "@" + m in files && files[n + "@" + m] == legacy[n].value.machines[m] {
      RuntimeNameInverse(n, m);
      HubSeeds(n, legacy[n].value, m);
      assert n in ValidNames(legacy);
    }
    forall n | PlainFile(legacy, n) ensures n in files && files[n] == legacy[n].value.ports {
      assert n in ValidNames(legacy) && n in FilesOf(n, legacy[n].value);
    }
    forall f | f in files ensures PlainFile(legacy, f) || HubFile(legacy, f) {
      var n :| n in ValidNames(legacy) && f in FilesOf(n, legacy[n].value);
      if legacy[n].value.hub {
        var m := HubSeeded(n, legacy[n].value, f);
        RuntimeNameInverse(n, m);
        assert HubMachine(legacy, n, m);
      }
    }
  }

  lemma HubSeeds(n: string, c: Conf, m: string)
    requires c.hub && m in c.machines && c.machines[m] != [] && ValidName(m)
    ensures var f := RuntimeName(JoinHubName(n, m)); f in FilesOf(n, c) && FilesOf(n, c)[f] == c.machines[m]
  {
    RuntimeNamesApart(n);
    hide ValidName, RuntimeName, JoinHubName;
  }

  lemma HubSeeded(n: string, c: Conf, f: string) returns (m: string)
    requires c.hub && f in FilesOf(n, c)
    ensures m in c.machines && c.machines[m] != [] && ValidName(m) && f == RuntimeName(JoinHubName(n, m))
  {
    m :| m in c.machines && c.machines[m] != [] && ValidName(m) && f == RuntimeName(JoinHubName(n, m));
  }

  // ---------------------------------------------------------------------
  // Names
  // ---------------------------------------------------------------------

  lemma {:induction false} ReplaceFirstExact(a: string, from: char, b: string, to: char)
    requires from !in a
    ensures ReplaceFirst(a + [from] + b, from, to) == a + [to] + b
    ensures ReplaceFirst(a, from, to) == a
  {
    if a == [] {
      assert a + [from] + b == [from] + b;
      assert a + [to] + b == [to] + b;
    } else {
      var s := a + [from] + b;
      assert s[0] == a[0] && s[1..] == a[1..] + [from] + b;
      assert from !in a[1..];
      ReplaceFirstExact(a[1..], from, b, to);
      assert [a[0]] + (a[1..] + [to] + b) == a + [to] + b;
    }
  }

  lemma ValidChars(n: string)
    requires ValidName(n)
    ensures '/' !in n && '@' !in n
  {
    forall i | 0 <= i < |n| ensures n[i] != '/' && n[i] != '@' {
      assert NameChar(n[i]);
    }
  }

  /** HUB/NAME and HUB@NAME are one another's inverse, and a bare name is both. */
  lemma RuntimeNameInverse(hub: string, machine: string)
    requires ValidName(hub) && ValidName(machine)
    ensures RuntimeName(JoinHubName(hub, machine)) == hub + "@" + machine
    ensures DisplayName(RuntimeName(JoinHubName(hub, machine))) == JoinHubName(hub, machine)
    ensures RuntimeName(hub) == hub == DisplayName(hub)
  {
    ValidChars(hub);
    ReplaceFirstExact(hub, '/', machine, '@');
    ReplaceFirstExact(hub, '@', machine, '/');
  }

  function Owner(f: string): string {
    if f == [] || f[0] == '@' then [] else [f[0]] + Owner(f[1..])
  }

  lemma {:induction false} OwnerExact(n: string, rest: string)
    requires '@' !in n && (rest == [] || rest[0] == '@')
    ensures Owner(n + rest) == n
  {
    if n == [] {
      assert n + rest == rest;
    } else {
      assert (n + rest)[0] == n[0] && (n + rest)[1..] == n[1..] + rest;
      assert '@' !in n[1..];
      OwnerExact(n[1..], rest);
    }
  }

  /** No two confs seed the same file. */
  lemma FilesApart(n: string, c: Conf, f: string)
    requires ValidName(n) && f in FilesOf(n, c)
    ensures Owner(f) == n
  {
    ValidChars(n);
    if c.hub {
      var m :| m in c.machines && ValidName(m) && f == RuntimeName(JoinHubName(n, m));
      RuntimeNameInverse(n, m);
      OwnerExact(n, "@" + m);
      assert n + ("@" + m) == n + "@" + m;
    } else {
      OwnerExact(n, []);
      assert n + [] == n;
    }
  }

  // ---------------------------------------------------------------------
  // Building the directory under its temporary name
  // ---------------------------------------------------------------------

  lemma SeedNext(legacy: Legacy, done: set<string>, files: Files, n: string)
    requires SeedOf(legacy, done, files) && n in legacy && n !in done && legacy[n].Some?
    requires ValidName(n) && forall m :: m in done ==> ValidName(m)
    ensures SeedOf(legacy, done + {n}, files + FilesOf(n, legacy[n].value))
  {
    var more := FilesOf(n, legacy[n].value);
    forall m, f | m in done && f in FilesOf(m, legacy[m].value) ensures f !in more {
      FilesApart(m, legacy[m].value, f);
      if f in more {
        FilesApart(n, legacy[n].value, f);
      }
    }
  }

  /** The loop over the confs: every one read and written, or no directory. */
  method Build(legacy: Legacy) returns (files: Option<Files>)
    ensures files.Some? <==> forall n :: n in ValidNames(legacy) ==> legacy[n].Some?
    ensures files.Some? ==> Whole(legacy, files.value)
  {
    var names := ValidNames(legacy);
    var todo := names;
    var out: Files := map[];
    while todo != {}
      invariant todo <= names
      invariant SeedOf(legacy, names - todo, out)
      decreases todo
    {
      var n :| n in todo;
      if legacy[n].None? {
        return None;
      }
      SeedNext(legacy, names - todo, out, n);
      assert names - todo + {n} == names - (todo - {n});
      out := out + FilesOf(n, legacy[n].value);
      todo := todo - {n};
    }
    assert names - todo == names;
    SeedIsWhole(legacy, out);
    return Some(out);
  }

  // ---------------------------------------------------------------------
  // Racing first runs
  // ---------------------------------------------------------------------

  /** A run's way through MigratePorts. */
  datatype Phase =
    | Looking
    | Waiting
    | Rechecking
    | Building(temp: Files, todo: set<string>)
    | Leaving(ok: bool)
    | Ended(ok: bool)

  /** `dir` is the ports directory, None while there is none. */
  datatype World = World(legacy: Legacy, dir: Option<Files>, lock: Option<nat>, procs: map<nat, Phase>)

  /** Edit is whatever a ports command does in the directory once it exists; Quit
      is a crash, or an error returned, which closes the lock file. */
  datatype Step =
    | Begin(p: nat)
    | Look(p: nat)
    | Acquire(p: nat)
    | Recheck(p: nat)
    | SeedOne(p: nat, n: string)
    | Rename(p: nat)
    | Leave(p: nat)
    | Quit(p: nat)
    | Edit(files: Files)

  ghost predicate Enabled(w: World, step: Step) {
    match step
    case Begin(p) => p !in w.procs
    case Look(p) => p in w.procs && w.procs[p].Looking?
    case Acquire(p) => p in w.procs && w.procs[p].Waiting? && w.lock.None?
    case Recheck(p) => p in w.procs && w.procs[p].Rechecking?
    case SeedOne(p, n) => p in w.procs && w.procs[p].Building? && n in w.procs[p].todo && n in w.legacy
    case Rename(p) => p in w.procs && w.procs[p].Building? && w.procs[p].todo == {}
    case Leave(p) => p in w.procs && w.procs[p].Leaving?
    case Quit(p) => p in w.procs && !w.procs[p].Ended?
    case Edit(_) => w.dir.Some?
  }

  /** Rename replaces an existing directory only while it is empty. */
  ghost function Apply(w: World, step: Step): World
    requires Enabled(w, step)
  {
    match step
    case Begin(p) => w.(procs := w.procs[p := Looking])
    case Look(p) => w.(procs := w.procs[p := if w.dir.Some? then Ended(true) else Waiting])
    case Acquire(p) => w.(lock := Some(p), procs := w.procs[p := Rechecking])
    case Recheck(p) => w.(procs := w.procs[p := if w.dir.Some? then Leaving(true) else Building(map[], ValidNames(w.legacy))])
    case SeedOne(p, n) =>
      var f := w.procs[p];
      w.(procs := w.procs[p := if w.legacy[n].None? then Leaving(false)
                               else Building(f.temp + FilesOf(n, w.legacy[n].value), f.todo - {n})])
    case Rename(p) =>
      var taken := w.dir.Some? && w.dir.value != map[];
      w.(dir := if taken then w.dir else Some(w.procs[p].temp), procs := w.procs[p := Leaving(!taken)])
    case Leave(p) => w.(lock := if w.lock == Some(p) then None else w.lock, procs := w.procs[p := Ended(w.procs[p].ok)])
    case Quit(p) => w.(lock := if w.lock == Some(p) then None else w.lock, procs := w.procs[p := Ended(false)])
    case Edit(files) => w.(dir := Some(files))
  }

  ghost predicate InLock(f: Phase) { f.Rechecking? || f.Building? || f.Leaving? }

  ghost predicate Good(w: World) {
    && (forall p :: w.lock == Some(p) <==> p in w.procs && InLock(w.procs[p]))
    && (forall p :: p in w.procs && w.procs[p].Building? ==>
          w.dir.None? && w.procs[p].todo <= ValidNames(w.legacy)
          && SeedOf(w.legacy, ValidNames(w.legacy) - w.procs[p].todo, w.procs[p].temp))
    && (forall p :: p in w.procs && (w.procs[p] == Leaving(true) || w.procs[p] == Ended(true)) ==> w.dir.Some?)
  }

  lemma BuildKeepsGood(w: World, step: Step)
    requires Good(w) && Enabled(w, step) && (step.SeedOne? || step.Recheck?)
    ensures Good(Apply(w, step))
  {
    var names := ValidNames(w.legacy);
    if step.SeedOne? {
      var f, n := w.procs[step.p], step.n;
      if w.legacy[n].Some? {
        SeedNext(w.legacy, names - f.todo, f.temp, n);
        assert names - f.todo + {n} == names - (f.todo - {n});
      }
    } else {
      assert names - names == {};
      assert SeedOf(w.legacy, {}, map[]);
    }
    hide SeedOf, FilesOf;
  }

  lemma LockKeepsGood(w: World, step: Step)
    requires Good(w) && Enabled(w, step) && (step.Begin? || step.Look? || step.Acquire? || step.Leave? || step.Quit?)
    ensures Good(Apply(w, step))
  {
    hide SeedOf, FilesOf, ValidNames;
  }

  lemma DirKeepsGood(w: World, step: Step)
    requires Good(w) && Enabled(w, step) && (step.Rename? || step.Edit?)
    ensures Good(Apply(w, step))
  {
    hide SeedOf, FilesOf, ValidNames;
  }

  lemma StepKeepsGood(w: World, step: Step)
    requires Good(w) && Enabled(w, step)
    ensures Good(Apply(w, step))
  {
    hide Good, Enabled, Apply;
    match step {
      case SeedOne(_, _) => BuildKeepsGood(w, step);
      case Recheck(_) => BuildKeepsGood(w, step);
      case Rename(_) => DirKeepsGood(w, step);
      case Edit(_) => DirKeepsGood(w, step);
      case _ => LockKeepsGood(w, step);
    }
  }

  /** From a host where the directory is absent, or is there already. */
  ghost predicate Possible(legacy: Legacy, dir: Option<Files>, steps: seq<Step>)
    decreases |steps|, 0
  {
    var n := |steps|;
    n == 0 || (Possible(legacy, dir, steps[..n - 1]) && Enabled(End(legacy, dir, steps[..n - 1]), steps[n - 1]))
  }

  ghost function End(legacy: Legacy, dir: Option<Files>, steps: seq<Step>): (w: World)
    requires Possible(legacy, dir, steps)
    ensures Good(w) && w.legacy == legacy
    decreases |steps|, 1
  {
    var n := |steps|;
    if n == 0 then World(legacy, dir, None, map[])
    else
      var v := End(legacy, dir, steps[..n - 1]);
      StepKeepsGood(v, steps[n - 1]);
      Apply(v, steps[n - 1])
  }

  /** In every run the directory appears in one step, the rename that ends a first
      run's work, holding what every old conf had and nothing else; and once it is
      there no first run replaces it. */
  lemma SeededOnceAndWhole(legacy: Legacy, dir: Option<Files>, steps: seq<Step>, step: Step)
    requires Possible(legacy, dir, steps) && Enabled(End(legacy, dir, steps), step) && !step.Edit?
    ensures var w := End(legacy, dir, steps);
            var w' := Apply(w, step);
            && (w.dir.Some? ==> w'.dir == w.dir)
            && (w.dir.None? && w'.dir.Some? ==> Whole(legacy, w'.dir.value))
            && (step.Rename? ==> w.dir.None? && w'.dir.Some? && w'.procs[step.p] == Leaving(true))
  {
    var w := End(legacy, dir, steps);
    assert Good(w);
    hide SeedOf, FilesOf, Possible, End, Whole;
    if step.Rename? {
      assert ValidNames(legacy) - {} == ValidNames(legacy);
      SeedIsWhole(legacy, w.procs[step.p].temp);
    }
  }

  lemma Longer(legacy: Legacy, dir: Option<Files>, before: seq<Step>, step: Step)
    requires Possible(legacy, dir, before) && Enabled(End(legacy, dir, before), step)
    ensures Possible(legacy, dir, before + [step]) && End(legacy, dir, before + [step]) == Apply(End(legacy, dir, before), step)
  {
    hide Apply, Enabled, Good;
    assert (before + [step])[..|before|] == before;
  }

  /** While every old conf parses, a first run that builds the directory can finish: conf
      by conf, then the rename. */
  lemma {:induction false} FirstRunFinishes(legacy: Legacy, dir: Option<Files>, before: seq<Step>, p: nat, todo: set<string>)
    returns (more: seq<Step>)
    requires Possible(legacy, dir, before) && forall n :: n in ValidNames(legacy) ==> legacy[n].Some?
    requires var w := End(legacy, dir, before); p in w.procs && w.procs[p].Building? && w.procs[p].todo == todo
    ensures Possible(legacy, dir, before + more)
    ensures var w := End(legacy, dir, before + more);
            w.dir.Some? && Whole(legacy, w.dir.value) && p in w.procs && w.procs[p] == Leaving(true)
    decreases todo
  {
    hide *;
    BuildingIn(legacy, dir, before, p);
    if n :| n in todo {
      SeedOn(End(legacy, dir, before), p, n);
      Longer(legacy, dir, before, SeedOne(p, n));
      var rest := FirstRunFinishes(legacy, dir, before + [SeedOne(p, n)], p, todo - {n});
      more := [SeedOne(p, n)] + rest;
      assert before + more == before + [SeedOne(p, n)] + rest;
    } else {
      RenameOn(End(legacy, dir, before), p);
      Longer(legacy, dir, before, Rename(p));
      SeededOnceAndWhole(legacy, dir, before, Rename(p));
      more := [Rename(p)];
    }
  }

  lemma BuildingIn(legacy: Legacy, dir: Option<Files>, before: seq<Step>, p: nat)
    requires Possible(legacy, dir, before) && p in End(legacy, dir, before).procs && End(legacy, dir, before).procs[p].Building?
    ensures var w := End(legacy, dir, before);
            w.legacy == legacy && w.dir.None? && w.procs[p].todo <= ValidNames(legacy) && forall n :: n in ValidNames(legacy) ==> n in legacy
  {
    hide Possible, End, FilesOf, SeedOf;
    assert Good(End(legacy, dir, before));
  }

  lemma SeedOn(w: World, p: nat, n: string)
    requires p in w.procs && w.procs[p].Building? && n in w.procs[p].todo && w.procs[p].todo <= ValidNames(w.legacy) && w.legacy[n].Some?
    ensures Enabled(w, SeedOne(p, n))
    ensures var w' := Apply(w, SeedOne(p, n)); p in w'.procs && w'.procs[p].Building? && w'.procs[p].todo == w.procs[p].todo - {n}
  {
    hide FilesOf;
  }

  lemma RenameOn(w: World, p: nat)
    requires p in w.procs && w.procs[p].Building? && w.procs[p].todo == {}
    ensures Enabled(w, Rename(p)) && p in Apply(w, Rename(p)).procs
  {
  }

  /** Whoever is told that the migration is done finds a directory. */
  lemma DoneMeansThere(legacy: Legacy, dir: Option<Files>, steps: seq<Step>, p: nat)
    requires Possible(legacy, dir, steps) && p in End(legacy, dir, steps).procs && End(legacy, dir, steps).procs[p] == Ended(true)
    ensures End(legacy, dir, steps).dir.Some?
  {
    assert Good(End(legacy, dir, steps));
  }

  /** While one old conf does not parse, no run makes the directory. */
  lemma {:induction false} NoneUntilAllParse(legacy: Legacy, steps: seq<Step>, n: string)
    requires Possible(legacy, None, steps) && n in legacy && ValidName(n) && legacy[n].None?
    ensures End(legacy, None, steps).dir.None?
  {
    if steps != [] {
      var before, step := steps[..|steps| - 1], steps[|steps| - 1];
      NoneUntilAllParse(legacy, before, n);
      assert Possible(legacy, None, before) && Enabled(End(legacy, None, before), step);
      assert End(legacy, None, steps) == Apply(End(legacy, None, before), step);
      if !step.Edit? {
        SeededOnceAndWhole(legacy, None, before, step);
        assert n in ValidNames(legacy);
      }
    }
  }
}
