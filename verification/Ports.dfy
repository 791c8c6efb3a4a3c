/** One machine's saved forwards: edits by any number of processes and one
    deletion, over a file, a lock beside it and the record that says the machine
    is there. */
module Ports {
  import opened Wrappers

  type Edit = seq<string> -> seq<string>

  /** What is deleted: a config entry's own machine, a managed smol VM, a hub's
      machine (by `delete HUB/NAME`), or a hub's entry, which takes the files of
      its machines along. */
  datatype Kind = Entry | Smol | HubMachine | HubEntry

  /** An edit's way through editPorts. `seen` is what its first look said. */
  datatype Phase =
    | Waiting(seen: bool, edit: Edit)
    | Holding(seen: bool, edit: Edit, ticket: nat)
    | Checked(seen: bool, edit: Edit, ticket: nat)
    | Loaded(seen: bool, edit: Edit, ticket: nat, before: seq<string>)
    | Wrote(edit: Edit, ticket: nat)
    | Refused
    | Ended(landed: Option<(Edit, nat)>)

  datatype Deletion = Idle | Gone | Listed | Held | Removed | Unmarked | Finished | Aborted

  datatype Holder = Editor(p: nat) | Deleter

  datatype Change = Edited(p: nat, edit: Edit, ticket: nat) | Cleared

  /** `file` is None while there is none. `there` is what stillThere reads.
      `bySeen` says the file was written for the machine that was there (the one
      at the start counts), `ticket` counts the locks taken by edits, `log` lists
      what was done to the file. */
  datatype World = World(
    kind: Kind, file: Option<seq<string>>, bySeen: bool, lock: Option<Holder>, there: bool,
    procs: map<nat, Phase>, ticket: nat, log: seq<Change>, del: Deletion)

  datatype Step =
    | Begin(p: nat, edit: Edit)
    | Acquire(p: nat)
    | Check(p: nat)
    | Read(p: nat)
    | Write(p: nat)
    | Release(p: nat)
    | Quit(p: nat)
    | DelGone
    | DelList
    | DelAcquire
    | DelRemove
    | DelUnmark
    | DelRelease
    | DelQuit

  /** LoadPorts: no file is no forwards. */
  function Contents(file: Option<seq<string>>): seq<string> {
    match file
    case None => []
    case Some(ports) => ports
  }

  /** SavePorts: an empty list removes the file. */
  function Save(ports: seq<string>): Option<seq<string>> { if ports == [] then None else Some(ports) }

  ghost function Replay(start: seq<string>, log: seq<Change>): seq<string> {
    var n := |log|;
    if n == 0 then start
    else if log[n - 1].Edited? then log[n - 1].edit(Replay(start, log[..n - 1]))
    else []
  }

  ghost predicate InLock(f: Phase) { f.Holding? || f.Checked? || f.Loaded? || f.Wrote? || f.Refused? }

  ghost predicate Enabled(w: World, step: Step) {
    match step
    case Begin(p, _) => p !in w.procs
    case Acquire(p) => p in w.procs && w.procs[p].Waiting? && w.lock.None?
    case Check(p) => p in w.procs && w.procs[p].Holding?
    case Read(p) => p in w.procs && w.procs[p].Checked?
    case Write(p) => p in w.procs && w.procs[p].Loaded?
    case Release(p) => p in w.procs && (w.procs[p].Wrote? || w.procs[p].Refused?)
    case Quit(p) => p in w.procs && !w.procs[p].Ended?
    case DelGone => w.del.Idle? && (w.kind.Entry? || w.kind.HubEntry?)
    case DelList => w.del.Gone? && w.kind.HubEntry?
    case DelAcquire =>
      w.lock.None? && (match w.kind case Entry => w.del.Gone? case HubEntry => w.del.Listed? case _ => w.del.Idle?)
    case DelRemove => w.del.Held?
    case DelUnmark => w.del.Removed? && w.kind.Smol?
    case DelRelease => w.del.Unmarked? || (w.del.Removed? && !w.kind.Smol?)
    case DelQuit => !w.del.Finished? && !w.del.Aborted?
  }

  ghost function Free(w: World, h: Holder): Option<Holder> { if w.lock == Some(h) then None else w.lock }

  /** What a phase says of its edit: whether it reached the file. */
  ghost function Landed(f: Phase): Option<(Edit, nat)> {
    match f
    case Wrote(edit, ticket) => Some((edit, ticket))
    case Ended(landed) => landed
    case _ => None
  }

  /** An edit that changes nothing writes nothing, and is over all the same. */
  ghost function Apply(w: World, step: Step): World
    requires Enabled(w, step)
  {
    match step
    case Begin(p, edit) => w.(procs := w.procs[p := Waiting(w.there, edit)])
    case Acquire(p) =>
      w.(lock := Some(Editor(p)), ticket := w.ticket + 1,
         procs := w.procs[p := Holding(w.procs[p].seen, w.procs[p].edit, w.ticket)])
    case Check(p) =>
      var f := w.procs[p];
      w.(procs := w.procs[p := if f.seen && !w.there then Refused else Checked(f.seen, f.edit, f.ticket)])
    case Read(p) =>
      var f := w.procs[p];
      w.(procs := w.procs[p := Loaded(f.seen, f.edit, f.ticket, Contents(w.file))])
    case Write(p) =>
      var f := w.procs[p];
      var after := f.edit(f.before);
      w.(file := if after == f.before then w.file else Save(after),
         bySeen := if after == f.before then w.bySeen else f.seen,
         procs := w.procs[p := Wrote(f.edit, f.ticket)], log := w.log + [Edited(p, f.edit, f.ticket)])
    case Release(p) => w.(lock := Free(w, Editor(p)), procs := w.procs[p := Ended(Landed(w.procs[p]))])
    case Quit(p) => w.(lock := Free(w, Editor(p)), procs := w.procs[p := Ended(Landed(w.procs[p]))])
    case DelGone => w.(there := false, del := Gone)
    case DelList => w.(del := if w.file.None? then Finished else Listed)
    case DelAcquire => w.(lock := Some(Deleter), del := Held)
    case DelRemove => w.(file := None, del := Removed, log := w.log + [Cleared])
    case DelUnmark => w.(there := false, del := Unmarked)
    case DelRelease => w.(lock := Free(w, Deleter), del := Finished)
    case DelQuit => w.(lock := Free(w, Deleter), del := Aborted)
  }

  ghost function Start(kind: Kind, ports: seq<string>, there: bool): World {
    World(kind, Save(ports), true, None, there, map[], 0, [], Idle)
  }

  // ---------------------------------------------------------------------
  // The lock, and the file under it
  // ---------------------------------------------------------------------

  ghost predicate LockOk(w: World) {
    && (forall p :: w.lock == Some(Editor(p)) <==> p in w.procs && InLock(w.procs[p]))
    && (w.lock == Some(Deleter) <==> w.del.Held? || w.del.Removed? || w.del.Unmarked?)
    && (forall p :: p in w.procs && w.procs[p].Loaded? ==> w.procs[p].before == Contents(w.file))
    && w.file != Some([])
  }

  /** Where the deletion is, and what that says of the record and the file. */
  ghost predicate DeletionOk(w: World) {
    && (w.del.Gone? ==> w.kind.Entry? || w.kind.HubEntry?)
    && (w.del.Listed? ==> w.kind.HubEntry?)
    && (w.del.Unmarked? ==> w.kind.Smol?)
    && ((w.kind.Entry? || w.kind.HubEntry?) && !w.del.Idle? && !w.del.Aborted? ==> !w.there)
    && (w.kind.Smol? && (w.del.Unmarked? || w.del.Finished?) ==> !w.there)
    && (w.del.Removed? || w.del.Unmarked? ==> w.file.None?)
  }

  /** The log tells what the file holds. */
  ghost predicate FileOk(w: World, start: seq<string>) { Contents(w.file) == Replay(start, w.log) }

  /** It is in the order the locks were taken. */
  ghost predicate OrderOk(w: World) {
    && (forall i, j :: 0 <= i < j < |w.log| && w.log[i].Edited? && w.log[j].Edited? ==> w.log[i].ticket < w.log[j].ticket)
    && (forall i :: 0 <= i < |w.log| && w.log[i].Edited? ==> w.log[i].ticket < w.ticket)
    && (forall p :: p in w.procs && Working(w.procs[p]) ==> w.procs[p].ticket < w.ticket)
    && (forall p, i :: p in w.procs && Working(w.procs[p]) && 0 <= i < |w.log| && w.log[i].Edited? ==>
          w.log[i].ticket < w.procs[p].ticket)
  }

  ghost predicate Working(f: Phase) { f.Holding? || f.Checked? || f.Loaded? }

  /** An edit is in it exactly when it landed. */
  ghost predicate LandedOk(w: World) {
    && (forall c :: c in w.log && c.Edited? ==> c.p in w.procs && Landed(w.procs[c.p]) == Some((c.edit, c.ticket)))
    && (forall p :: p in w.procs && Landed(w.procs[p]).Some? ==>
          Edited(p, Landed(w.procs[p]).value.0, Landed(w.procs[p]).value.1) in w.log)
  }

  ghost predicate LogOk(w: World, start: seq<string>) { FileOk(w, start) && OrderOk(w) && LandedOk(w) }

  ghost predicate Good(w: World, start: seq<string>) { LockOk(w) && DeletionOk(w) && LogOk(w, start) }

  lemma ReplayNext(start: seq<string>, log: seq<Change>, c: Change)
    ensures Replay(start, log + [c]) == if c.Edited? then c.edit(Replay(start, log)) else []
  {
    assert (log + [c])[..|log|] == log;
  }

  lemma LockStep(w: World, step: Step)
    requires LockOk(w) && DeletionOk(w) && Enabled(w, step)
    ensures LockOk(Apply(w, step)) && DeletionOk(Apply(w, step))
  {
  }

  lemma FileStep(w: World, step: Step, start: seq<string>)
    requires LockOk(w) && FileOk(w, start) && Enabled(w, step)
    ensures FileOk(Apply(w, step), start)
  {
    hide Replay;
    if step.Write? {
      var f := w.procs[step.p];
      ReplayNext(start, w.log, Edited(step.p, f.edit, f.ticket));
      assert Contents(Save(f.edit(f.before))) == f.edit(f.before);
    } else if step.DelRemove? {
      ReplayNext(start, w.log, Cleared);
    } else {
      assert Apply(w, step).log == w.log && Apply(w, step).file == w.file;
    }
  }

  lemma OrderStep(w: World, step: Step)
    requires LockOk(w) && OrderOk(w) && Enabled(w, step)
    ensures OrderOk(Apply(w, step))
  {
    hide Contents, Save;
    var w' := Apply(w, step);
    if !step.Write? && !step.DelRemove? {
      assert w'.log == w.log;
    }
  }

  lemma LandedStep(w: World, step: Step)
    requires LockOk(w) && LandedOk(w) && Enabled(w, step)
    ensures LandedOk(Apply(w, step))
  {
    hide Contents, Save;
    if step.Write? {
      WriteLands(w, step.p);
    } else {
      hide LandedOk;
      LandedSame(w, Apply(w, step));
    }
  }

  /** No edit lands, and none that did is forgotten. */
  lemma LandedSame(w: World, w': World)
    requires LandedOk(w) && (w'.log == w.log || w'.log == w.log + [Cleared]) && w.procs.Keys <= w'.procs.Keys
    requires forall p :: p in w'.procs ==> Landed(w'.procs[p]) == if p in w.procs then Landed(w.procs[p]) else None
    ensures LandedOk(w')
  {
    assert forall c :: c in w'.log && c.Edited? ==> c in w.log;
    assert forall c :: c in w.log ==> c in w'.log;
  }

  lemma WriteLands(w: World, p: nat)
    requires LandedOk(w) && Enabled(w, Write(p))
    ensures LandedOk(Apply(w, Write(p)))
  {
    hide Contents, Save;
    var w', last := Apply(w, Write(p)), Edited(p, w.procs[p].edit, w.procs[p].ticket);
    assert forall c :: c in w'.log <==> c in w.log || c == last by { assert w'.log[|w.log|] == last; }
    assert w'.procs == w.procs[p := Wrote(last.edit, last.ticket)];
    hide Apply;
  }

  // ---------------------------------------------------------------------
  // Runs
  // ---------------------------------------------------------------------

  /** What there was at the start of a run. */
  datatype Origin = Origin(kind: Kind, ports: seq<string>, there: bool)

  ghost predicate Possible(o: Origin, steps: seq<Step>)
    decreases |steps|, 0
  {
    var n := |steps|;
    n == 0 || (Possible(o, steps[..n - 1]) && Enabled(End(o, steps[..n - 1]), steps[n - 1]))
  }

  ghost function End(o: Origin, steps: seq<Step>): (w: World)
    requires Possible(o, steps)
    ensures Good(w, o.ports) && w.kind == o.kind
    decreases |steps|, 1
  {
    var n := |steps|;
    if n == 0 then Start(o.kind, o.ports, o.there)
    else
      var v := End(o, steps[..n - 1]);
      LockStep(v, steps[n - 1]);
      FileStep(v, steps[n - 1], o.ports);
      OrderStep(v, steps[n - 1]);
      LandedStep(v, steps[n - 1]);
      Apply(v, steps[n - 1])
  }

  lemma Longer(o: Origin, before: seq<Step>, step: Step)
    requires Possible(o, before) && Enabled(End(o, before), step)
    ensures Possible(o, before + [step]) && End(o, before + [step]) == Apply(End(o, before), step)
  {
    hide Apply, Enabled, Good;
    assert (before + [step])[..|before|] == before;
  }

  /** `steps` can happen, and end in `w`. */
  ghost predicate Leads(o: Origin, steps: seq<Step>, w: World) { Possible(o, steps) && End(o, steps) == w }

  lemma LeadsOn(o: Origin, before: seq<Step>, v: World, step: Step)
    requires Leads(o, before, v) && Enabled(v, step)
    ensures Leads(o, before + [step], Apply(v, step))
  {
    hide Apply, Enabled, Good;
    Longer(o, before, step);
  }

  /** In every run the file holds the edits that landed, applied one by one in the
      order their locks were taken, from the last deletion on; none is lost, none
      counts twice. */
  lemma EditsInLockOrder(o: Origin, steps: seq<Step>)
    requires Possible(o, steps)
    ensures var w := End(o, steps);
            && Contents(w.file) == Replay(o.ports, w.log)
            && (forall i, j :: 0 <= i < j < |w.log| && w.log[i].Edited? && w.log[j].Edited? ==>
                  w.log[i].ticket < w.log[j].ticket && w.log[i].p != w.log[j].p)
            && (forall p :: p in w.procs && Landed(w.procs[p]).Some? ==>
                  Edited(p, Landed(w.procs[p]).value.0, Landed(w.procs[p]).value.1) in w.log)
            && (forall c :: c in w.log && c.Edited? ==>
                  c.p in w.procs && Landed(w.procs[c.p]) == Some((c.edit, c.ticket)))
  {
    hide LockOk, DeletionOk, Possible, End, Replay;
    var w := End(o, steps);
    assert Good(w, o.ports);
    forall i, j | 0 <= i < j < |w.log| && w.log[i].Edited? && w.log[j].Edited? ensures w.log[i].p != w.log[j].p {
      assert w.log[i] in w.log && w.log[j] in w.log;
    }
  }

  // ---------------------------------------------------------------------
  // Edits and the deletion
  // ---------------------------------------------------------------------

  /** An edit that saw the machine and may still write. */
  ghost predicate MayWrite(w: World, p: nat) {
    p in w.procs && (w.procs[p].Checked? || w.procs[p].Loaded?) && w.procs[p].seen
  }

  /** The deletion is over and left nothing of the machine, nor will an edit that
      is past its check. */
  ghost predicate Clean(w: World) {
    w.del.Finished? ==> (w.file.Some? ==> !w.bySeen) && forall p :: !MayWrite(w, p)
  }

  /** The step with which that is lost: a check by an edit that saw the machine,
      when all that was deleted is a hub's machine; or a hub entry's deletion that
      finds no file while such an edit is about to write one. */
  ghost predicate Slips(w: World, step: Step) {
    || (step.Check? && w.del.Finished? && w.there && step.p in w.procs && w.procs[step.p].Holding? && w.procs[step.p].seen)
    || (step.DelList? && w.file.None? && exists p :: MayWrite(w, p))
  }

  lemma CleanStep(w: World, step: Step)
    requires LockOk(w) && DeletionOk(w) && Clean(w) && Enabled(w, step)
    ensures Clean(Apply(w, step)) <==> !Slips(w, step)
  {
    hide Contents, Save;
    var w' := Apply(w, step);
    if step.Check? {
      assert MayWrite(w', step.p) <==> w.procs[step.p].seen && w.there;
      assert forall p :: p != step.p ==> (MayWrite(w', p) <==> MayWrite(w, p));
      if w.del.Finished? && !(w.procs[step.p].seen && w.there) {
        assert forall p :: !MayWrite(w', p);
      }
    } else {
      assert forall p :: MayWrite(w', p) ==> MayWrite(w, p);
      if step.DelList? && exists p :: MayWrite(w, p) {
        var p :| MayWrite(w, p);
        assert MayWrite(w', p);
      }
      if step.DelRelease? {
        assert forall p :: MayWrite(w, p) ==> w.lock == Some(Editor(p));
      }
      if step.Write? && w.del.Finished? {
        assert !MayWrite(w, step.p);
      }
    }
  }

  /** A deleted entry and a deleted smol VM stay deleted: in every run, once the
      deletion is over, no edit that saw the machine has left a file or will. */
  lemma {:induction false} DeletionFinal(o: Origin, steps: seq<Step>)
    requires Possible(o, steps) && (o.kind.Entry? || o.kind.Smol?)
    ensures Clean(End(o, steps))
  {
    if steps != [] {
      var before, step := steps[..|steps| - 1], steps[|steps| - 1];
      DeletionFinal(o, before);
      var w := End(o, before);
      assert Good(w, o.ports);
      hide Possible, LogOk;
      CleanStep(w, step);
    }
  }

  /** A hub's machine does not: whatever edit waits for the lock when the deletion
      is over finds the hub's entry and writes the file. */
  lemma HubMachineComesBack(o: Origin, steps: seq<Step>, p: nat)
    requires Possible(o, steps) && o.kind.HubMachine?
    requires var w := End(o, steps); w.del.Finished? && w.lock.None? && w.there && p in w.procs && w.procs[p].Waiting?
                                     && w.procs[p].seen && w.procs[p].edit(Contents(w.file)) !in [Contents(w.file), []]
    ensures var more := steps + [Acquire(p)] + [Check(p)] + [Read(p)] + [Write(p)];
            var w := End(o, steps);
            Possible(o, more) && !Clean(End(o, more))
            && End(o, more).file == Some(w.procs[p].edit(Contents(w.file)))
  {
    hide Possible, End, Good;
    Longer(o, steps, Acquire(p));
    Longer(o, steps + [Acquire(p)], Check(p));
    Longer(o, steps + [Acquire(p)] + [Check(p)], Read(p));
    Longer(o, steps + [Acquire(p)] + [Check(p)] + [Read(p)], Write(p));
  }

  /** A whole `delete HUB/NAME`. */
  lemma HubMachineDeleted(o: Origin, steps: seq<Step>, w: World) returns (v: World)
    requires Leads(o, steps, w) && w.kind.HubMachine? && w.del.Idle? && w.lock.None?
    ensures Leads(o, steps + [DelAcquire] + [DelRemove] + [DelRelease], v)
    ensures v == w.(file := None, del := Finished, log := w.log + [Cleared])
  {
    hide Leads;
    LeadsOn(o, steps, w, DelAcquire);
    var w1 := Apply(w, DelAcquire);
    LeadsOn(o, steps + [DelAcquire], w1, DelRemove);
    var w2 := Apply(w1, DelRemove);
    LeadsOn(o, steps + [DelAcquire] + [DelRemove], w2, DelRelease);
    v := Apply(w2, DelRelease);
  }

  /** Such a run: an edit begins, and `delete HUB/NAME` takes the lock first. */
  lemma HubMachineRun(ports: seq<string>, edit: Edit) returns (w: World)
    ensures Leads(Origin(HubMachine, ports, true), [Begin(1, edit)] + [DelAcquire] + [DelRemove] + [DelRelease], w)
    ensures w.del.Finished? && w.lock.None? && w.there && w.file.None? && 1 in w.procs && w.procs[1] == Waiting(true, edit)
  {
    var o := Origin(HubMachine, ports, true);
    var v := FirstBegin(o, edit);
    hide Leads;
    w := HubMachineDeleted(o, [Begin(1, edit)], v);
  }

  lemma FirstBegin(o: Origin, edit: Edit) returns (w: World)
    ensures Leads(o, [Begin(1, edit)], w)
    ensures w == Start(o.kind, o.ports, o.there).(procs := map[1 := Waiting(o.there, edit)])
  {
    var none: seq<Step> := [];
    assert Possible(o, none) && End(o, none) == Start(o.kind, o.ports, o.there);
    assert none + [Begin(1, edit)] == [Begin(1, edit)];
    hide Possible, End, Good;
    Longer(o, none, Begin(1, edit));
    w := Apply(Start(o.kind, o.ports, o.there), Begin(1, edit));
  }

  /** Nor does a hub's entry take every file along: an edit that holds the lock and
      is past its check writes the first forwards of HUB/NAME after the deletion
      has looked for files to clear, and found none. */
  lemma HubEntryLeavesFile(o: Origin, steps: seq<Step>, w: World, p: nat) returns (v: World)
    requires Leads(o, steps, w) && w.kind.HubEntry? && w.del.Idle? && w.file.None?
    requires p in w.procs && w.procs[p].Checked? && w.procs[p].seen && w.procs[p].edit([]) != []
    ensures Leads(o, steps + [DelGone] + [DelList] + [Read(p)] + [Write(p)], v)
    ensures v.del.Finished? && v.file == Some(w.procs[p].edit([])) && !Clean(v)
  {
    hide Leads;
    LeadsOn(o, steps, w, DelGone);
    var w1 := Apply(w, DelGone);
    LeadsOn(o, steps + [DelGone], w1, DelList);
    var w2 := Apply(w1, DelList);
    assert w2 == w.(there := false, del := Finished);
    LeadsOn(o, steps + [DelGone] + [DelList], w2, Read(p));
    var w3 := Apply(w2, Read(p));
    assert w3.procs[p] == Loaded(true, w.procs[p].edit, w.procs[p].ticket, []) && w3.file.None? && w3.del.Finished?;
    LeadsOn(o, steps + [DelGone] + [DelList] + [Read(p)], w3, Write(p));
    v := Apply(w3, Write(p));
  }

  /** Such a run: an edit begins, takes the lock and finds the entry. */
  lemma HubEntryRun(edit: Edit) returns (w: World)
    ensures Leads(Origin(HubEntry, [], true), [Begin(1, edit)] + [Acquire(1)] + [Check(1)], w)
    ensures w.kind.HubEntry? && w.del.Idle? && w.file.None? && w.procs == map[1 := Checked(true, edit, 0)]
  {
    var o := Origin(HubEntry, [], true);
    var s1 := [Begin(1, edit)];
    var w1 := FirstBegin(o, edit);
    hide Leads;
    LeadsOn(o, s1, w1, Acquire(1));
    var w2 := Apply(w1, Acquire(1));
    LeadsOn(o, s1 + [Acquire(1)], w2, Check(1));
    w := Apply(w2, Check(1));
  }
}
