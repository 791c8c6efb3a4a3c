/** The loop behind `status --watch`: events armed by a debounce, one refresh round
    in flight, and a block written only when the listing changed. */
module Watch {
  import opened Wrappers
  import opened Lines

  /** One filesystem event: whether it is in the config directory, whether it can
      change the listing, and whether it asks for a refresh. */
  datatype Event = Event(cfg: bool, relevant: bool, refresh: bool)

  /** The loop's variables. `target` is what devvm.toml was last seen to link to,
      `out` every block written. */
  datatype Loop = Loop(
    pending: bool, changed: bool, refreshWanted: bool, roundDone: Option<nat>,
    target: string, last: string, out: seq<string>)

  /** A snapshot: a listing, a devvm.toml that does not parse, or a failure. */
  datatype Snapshot = Listing(text: string) | BrokenConf | Failed

  const BROKEN_ROW := Join(["-", "-", "broken conf", "-", "-", "-"], '\t') + "\n"

  /** take: the block a snapshot stands for, if any. */
  function Take(s: Snapshot): Option<string> {
    match s
    case Listing(text) => Some(text)
    case BrokenConf => Some(BROKEN_ROW)
    case Failed => None
  }

  function Retarget(l: Loop, link: string): Loop {
    if link == l.target then l else l.(target := link, changed := true)
  }

  /** A filesystem event; `link` is where devvm.toml links to now. */
  function OnEvent(l: Loop, e: Event, link: string): Loop {
    var a := if e.cfg then Retarget(l, link).(pending := true) else l;
    if !e.relevant then a
    else a.(changed := true, refreshWanted := a.refreshWanted || e.refresh, pending := true)
  }

  function OnWake(l: Loop): Loop { l.(changed := true, pending := true) }

  function OnError(l: Loop, link: string): Loop { Retarget(l, link).(changed := true, pending := true) }

  /** The debounce fires: the loop, and whether it emits. `round` is the number a
      refresh round would get. */
  function OnPending(l: Loop, link: string, round: nat): (Loop, bool) {
    var a := Retarget(l.(pending := false), link);
    if !a.changed then (a, false)
    else
      (a.(changed := false, refreshWanted := false,
          roundDone := if a.refreshWanted && a.roundDone.None? then Some(round) else a.roundDone), true)
  }

  function OnRoundDone(l: Loop): Loop { l.(roundDone := None) }

  /** emit, given what take returned. */
  function Emit(l: Loop, block: Option<string>): Loop {
    match block
    case None => l
    case Some(s) => if s == l.last then l else l.(last := s, out := l.out + [s])
  }

  /** The loop itself: each case of its select. */
  class Watcher {
    var pending: bool
    var changed: bool
    var refreshWanted: bool
    var roundDone: Option<nat>
    var target: string
    var last: string
    var out: seq<string>

    ghost function Abs(): Loop reads this { Loop(pending, changed, refreshWanted, roundDone, target, last, out) }

    /** The first block is unconditional. */
    constructor (link: string, first: string)
      ensures Abs() == Loop(false, false, false, None, link, first, [first])
    {
      pending, changed, refreshWanted, roundDone := false, false, false, None;
      target, last, out := link, first, [first];
    }

    method RetargetNow(link: string) returns (moved: bool)
      modifies this`target
      ensures moved == (link != old(target)) && target == link
    {
      moved := link != target;
      target := link;
    }

    method Event(e: Event, link: string)
      modifies this
      ensures Abs() == OnEvent(old(Abs()), e, link)
    {
      if e.cfg {
        var moved := RetargetNow(link);
        if moved {
          changed := true;
        }
        if !pending {
          pending := true;
        }
      }
      if !e.relevant {
        return;
      }
      changed := true;
      if e.refresh {
        refreshWanted := true;
      }
      if !pending {
        pending := true;
      }
    }

    method Wake()
      modifies this
      ensures Abs() == OnWake(old(Abs()))
    {
      changed := true;
      if !pending {
        pending := true;
      }
    }

    method Error(link: string)
      modifies this
      ensures Abs() == OnError(old(Abs()), link)
    {
      var _ := RetargetNow(link);
      changed := true;
      if !pending {
        pending := true;
      }
    }

    method Pending(link: string, round: nat) returns (emit: bool)
      modifies this
      ensures (Abs(), emit) == OnPending(old(Abs()), link, round)
    {
      pending := false;
      var moved := RetargetNow(link);
      if moved {
        changed := true;
      }
      if !changed {
        return false;
      }
      changed := false;
      if refreshWanted && roundDone.None? {
        roundDone := Some(round);
      }
      refreshWanted := false;
      return true;
    }

    method EmitBlock(s: Snapshot)
      modifies this
      ensures Abs() == Emit(old(Abs()), Take(s))
    {
      var block := match s case Listing(text) => Some(text) case BrokenConf => Some(BROKEN_ROW) case Failed => None;
      if block.Some? && block.value != last {
        last := block.value;
        out := out + [last];
      }
    }
  }

  // ---------------------------------------------------------------------
  // The loop among everything else
  // ---------------------------------------------------------------------

  /** Between select cases; inside one, about to snapshot and write, `moved` telling
      whether anything changed since the case began; or over. */
  datatype Mode = Idle | Emitting(moved: bool) | Stopped

  /** `now` is what a snapshot would see, `link` where devvm.toml links to, `queue`
      the events not taken yet, `woken` and `errors` the other two channels.
      `running` are the rounds whose goroutine has not ended, `rounds` counts them.
      `failed` says the last snapshot taken failed. */
  datatype World = World(
    loop: Loop, mode: Mode, now: Snapshot, link: string,
    queue: seq<Event>, woken: bool, errors: nat,
    running: set<nat>, rounds: nat, failed: bool)

  /** Change, WakeChange, Lost and Relink are the ways a listing comes to change: an
      event of its own, a nudge from a hub's pipe, a watcher error in place of lost
      events, and a relink of devvm.toml away from where the loop looks, which on
      some systems raises nothing but an unrelated event in the config directory
      before it. A round changes caches as it runs. */
  datatype Step =
    | Change(to: Snapshot, e: Event, link: string)
    | Noise(e: Event)
    | WakeChange(to: Snapshot)
    | Lost(to: Snapshot)
    | Relink(to: Snapshot, link: string)
    | RoundWork(to: Snapshot)
    | RoundEnd(round: nat)
    | TakeEvent
    | TakeWake
    | TakeError
    | Fire
    | RoundDone
    | Write(s: Snapshot)
    | Stop

  ghost predicate HasCfg(queue: seq<Event>) { exists e :: e in queue && e.cfg }

  ghost predicate HasRelevant(queue: seq<Event>) { exists e :: e in queue && e.relevant }

  ghost predicate Enabled(w: World, step: Step) {
    match step
    case Change(_, e, link) => e.relevant && (link == w.link || e.cfg)
    case Noise(e) => !e.relevant
    case Relink(_, link) => link != w.loop.target && (w.loop.pending || HasCfg(w.queue))
    case RoundWork(_) => w.running != {}
    case RoundEnd(r) => r in w.running
    case TakeEvent => w.mode.Idle? && w.queue != []
    case TakeWake => w.mode.Idle? && w.woken
    case TakeError => w.mode.Idle? && w.errors > 0
    case Fire => w.mode.Idle? && w.loop.pending
    case RoundDone => w.mode.Idle? && w.loop.roundDone.Some? && w.loop.roundDone.value !in w.running
    case Write(s) => w.mode.Emitting? && (s == w.now || w.mode.moved)
    case _ => true
  }

  function Moved(m: Mode): Mode { if m.Emitting? then Emitting(true) else m }

  ghost function Apply(w: World, step: Step): World
    requires Enabled(w, step)
  {
    match step
    case Change(to, e, link) => w.(now := to, link := link, queue := w.queue + [e], mode := Moved(w.mode))
    case Noise(e) => w.(queue := w.queue + [e])
    case WakeChange(to) => w.(now := to, woken := true, mode := Moved(w.mode))
    case Lost(to) => w.(now := to, errors := w.errors + 1, mode := Moved(w.mode))
    case Relink(to, link) => w.(now := to, link := link, mode := Moved(w.mode))
    case RoundWork(to) => w.(now := to, mode := Moved(w.mode))
    case RoundEnd(r) => w.(running := w.running - {r})
    case TakeEvent => w.(loop := OnEvent(w.loop, w.queue[0], w.link), queue := w.queue[1..])
    case TakeWake => w.(loop := OnWake(w.loop), woken := false)
    case TakeError => w.(loop := OnError(w.loop, w.link), errors := w.errors - 1)
    case Fire =>
      var (l, emits) := OnPending(w.loop, w.link, w.rounds);
      var starts := emits && l.roundDone != w.loop.roundDone;
      w.(loop := l, mode := if emits then Emitting(false) else Idle,
         running := if starts then w.running + {w.rounds} else w.running,
         rounds := if starts then w.rounds + 1 else w.rounds)
    case RoundDone => w.(loop := OnRoundDone(w.loop), mode := Emitting(false))
    case Write(s) => w.(loop := Emit(w.loop, Take(s)), failed := Take(s).None?, mode := Idle)
    case Stop => w.(mode := Stopped)
  }

  ghost function Start(now: Snapshot, link: string): World
    requires Take(now).Some?
  {
    var first := Take(now).value;
    World(Loop(false, false, false, None, link, first, [first]), Idle, now, link, [], false, 0, {}, 0, false)
  }

  /** A change the loop has not taken account of is one it is going to hear of. */
  ghost predicate WillHear(w: World) {
    || HasRelevant(w.queue) || w.woken || w.errors > 0 || w.loop.roundDone.Some?
    || (w.link != w.loop.target && (w.loop.pending || HasCfg(w.queue)))
  }

  ghost predicate Shown(w: World) { Take(w.now) == Some(w.loop.last) }

  ghost predicate FlagsOk(w: World) {
    && (w.loop.refreshWanted ==> w.loop.changed)
    && (w.loop.changed ==> w.loop.pending)
    && (forall r :: r in w.running ==> r < w.rounds && w.loop.roundDone == Some(r))
    && (w.loop.roundDone.Some? ==> w.loop.roundDone.value < w.rounds)
  }

  ghost predicate BlocksOk(l: Loop) {
    && l.out != [] && l.last == l.out[|l.out| - 1]
    && forall i :: 0 <= i < |l.out| - 1 ==> l.out[i] != l.out[i + 1]
  }

  ghost predicate HearOk(w: World) {
    && (w.link != w.loop.target ==> w.loop.pending || HasCfg(w.queue))
    && (w.mode.Idle? ==> WillHear(w) || w.loop.changed || w.failed || Shown(w))
    && (w.mode.Emitting? && w.mode.moved ==> WillHear(w))
  }

  ghost predicate Good(w: World) { FlagsOk(w) && BlocksOk(w.loop) && HearOk(w) }

  lemma StepKeepsGood(w: World, step: Step)
    requires Good(w) && Enabled(w, step)
    ensures Good(Apply(w, step))
  {
    FlagsStep(w, step);
    BlocksStep(w, step);
    HearStep(w, step);
    hide FlagsOk, BlocksOk, HearOk, Apply, Enabled;
  }

  lemma FlagsStep(w: World, step: Step)
    requires FlagsOk(w) && Enabled(w, step)
    ensures FlagsOk(Apply(w, step))
  {
    hide HasCfg, HasRelevant;
  }

  lemma BlocksStep(w: World, step: Step)
    requires BlocksOk(w.loop) && Enabled(w, step)
    ensures BlocksOk(Apply(w, step).loop)
  {
    if step.Write? {
      hide Enabled;
    } else {
      hide BlocksOk;
      OutSame(w, step);
      hide Apply, Enabled;
      BlocksSame(w.loop, Apply(w, step).loop);
    }
  }

  lemma OutSame(w: World, step: Step)
    requires Enabled(w, step) && !step.Write?
    ensures Apply(w, step).loop.out == w.loop.out && Apply(w, step).loop.last == w.loop.last
  {
    hide HasCfg, HasRelevant, OnEvent, OnWake, OnError, OnPending, OnRoundDone;
    HandlersKeepOut(w.loop, if w.queue == [] then Event(false, false, false) else w.queue[0], w.link, w.rounds);
  }

  lemma HandlersKeepOut(l: Loop, e: Event, link: string, round: nat)
    ensures OnEvent(l, e, link).out == l.out && OnEvent(l, e, link).last == l.last
    ensures OnWake(l).out == l.out && OnWake(l).last == l.last && OnError(l, link).out == l.out && OnError(l, link).last == l.last
    ensures OnPending(l, link, round).0.out == l.out && OnPending(l, link, round).0.last == l.last
    ensures OnRoundDone(l).out == l.out && OnRoundDone(l).last == l.last
  {
  }

  lemma BlocksSame(l: Loop, r: Loop)
    requires BlocksOk(l) && r.out == l.out && r.last == l.last
    ensures BlocksOk(r)
  {
  }

  lemma HearStep(w: World, step: Step)
    requires FlagsOk(w) && HearOk(w) && Enabled(w, step)
    ensures HearOk(Apply(w, step))
  {
    hide HasCfg, HasRelevant;
    var w' := Apply(w, step);
    match step {
      case Change(_, e, _) => QueueLonger(w.queue, e);
      case Noise(e) => QueueLonger(w.queue, e);
      case TakeEvent => QueueShorter(w.queue);
      case RoundWork(_) =>
        var r :| r in w.running;
        assert WillHear(w');
      case _ =>
    }
  }

  lemma QueueLonger(queue: seq<Event>, e: Event)
    ensures HasCfg(queue + [e]) <==> HasCfg(queue) || e.cfg
    ensures HasRelevant(queue + [e]) <==> HasRelevant(queue) || e.relevant
  {
    var q := queue + [e];
    assert q[|queue|] == e;
    assert forall x :: x in q <==> x in queue || x == e;
  }

  lemma QueueShorter(queue: seq<Event>)
    requires queue != []
    ensures HasCfg(queue) <==> HasCfg(queue[1..]) || queue[0].cfg
    ensures HasRelevant(queue) <==> HasRelevant(queue[1..]) || queue[0].relevant
  {
    assert forall x :: x in queue <==> x in queue[1..] || x == queue[0];
  }

  ghost predicate Possible(now: Snapshot, link: string, steps: seq<Step>)
    requires Take(now).Some?
    decreases |steps|, 0
  {
    var n := |steps|;
    n == 0 || (Possible(now, link, steps[..n - 1]) && Enabled(End(now, link, steps[..n - 1]), steps[n - 1]))
  }

  ghost function End(now: Snapshot, link: string, steps: seq<Step>): (w: World)
    requires Take(now).Some? && Possible(now, link, steps)
    ensures Good(w)
    decreases |steps|, 1
  {
    var n := |steps|;
    if n == 0 then Start(now, link)
    else
      var v := End(now, link, steps[..n - 1]);
      StepKeepsGood(v, steps[n - 1]);
      Apply(v, steps[n - 1])
  }

  /** In every run: a refresh asked for means a change, a change means an armed
      debounce; at most one round runs; no block repeats the one before it. */
  lemma LoopInvariants(now: Snapshot, link: string, steps: seq<Step>)
    requires Take(now).Some? && Possible(now, link, steps)
    ensures var w := End(now, link, steps);
            && (w.loop.refreshWanted ==> w.loop.changed) && (w.loop.changed ==> w.loop.pending)
            && (forall r, q :: r in w.running && q in w.running ==> r == q)
            && (forall i :: 0 <= i < |w.loop.out| - 1 ==> w.loop.out[i] != w.loop.out[i + 1])
  {
    hide Possible, End;
    assert Good(End(now, link, steps));
  }

  /** In every run: when nothing is armed, queued or running and the last snapshot
      did not fail, the last block is what a snapshot now would give. */
  lemma NeverMissesAChange(now: Snapshot, link: string, steps: seq<Step>)
    requires Take(now).Some? && Possible(now, link, steps)
    requires var w := End(now, link, steps);
             w.mode.Idle? && !w.loop.pending && w.queue == [] && !w.woken && w.errors == 0 && w.loop.roundDone.None? && !w.failed
    ensures var w := End(now, link, steps);
            Take(w.now) == Some(w.loop.out[|w.loop.out| - 1])
  {
    hide Possible, End;
    assert Good(End(now, link, steps));
  }

  /** Every listing the loop saw: the first, and that of each snapshot that gave one;
      of a devvm.toml that does not parse it is the one row that says so. */
  ghost function Seen(now: Snapshot, steps: seq<Step>): (r: seq<string>)
    requires !now.Failed?
    ensures r != []
  {
    var n := |steps|;
    if n == 0 then [if now.Listing? then now.text else BROKEN_ROW]
    else
      match steps[n - 1]
      case Write(Listing(text)) => Seen(now, steps[..n - 1]) + [text]
      case Write(BrokenConf) => Seen(now, steps[..n - 1]) + [BROKEN_ROW]
      case _ => Seen(now, steps[..n - 1])
  }

  /** `ls` without those that say what the one before says. */
  function Fresh(ls: seq<string>): seq<string> {
    var n := |ls|;
    if n < 2 then ls else if ls[n - 1] == ls[n - 2] then Fresh(ls[..n - 1]) else Fresh(ls[..n - 1]) + [ls[n - 1]]
  }

  lemma FreshNext(ls: seq<string>, l: string)
    requires ls != []
    ensures Fresh(ls + [l]) == if l == ls[|ls| - 1] then Fresh(ls) else Fresh(ls) + [l]
  {
    var all := ls + [l];
    assert all[..|ls|] == ls && all[|all| - 2] == ls[|ls| - 1];
  }

  /** What a step adds to the listings seen. */
  function Adds(step: Step): seq<string> {
    if step.Write? && step.s.Listing? then [step.s.text]
    else if step.Write? && step.s.BrokenConf? then [BROKEN_ROW] else []
  }

  lemma SeenNext(now: Snapshot, before: seq<Step>, step: Step)
    requires !now.Failed?
    ensures Seen(now, before + [step]) == Seen(now, before) + Adds(step)
  {
    assert (before + [step])[..|before|] == before;
  }

  /** The blocks written are the listings seen without repeats. */
  ghost predicate Shows(l: Loop, seen: seq<string>) { seen != [] && l.out == Fresh(seen) && l.last == seen[|seen| - 1] }

  lemma ShowsNext(v: World, seen: seq<string>, step: Step)
    requires Enabled(v, step) && Shows(v.loop, seen)
    ensures Shows(Apply(v, step).loop, seen + Adds(step))
  {
    if step.Write? {
      WriteShows(v, step.s);
      hide Apply, Enabled, Fresh;
      if !step.s.Failed? {
        FreshNext(seen, Take(step.s).value);
      } else {
        assert seen + Adds(step) == seen;
      }
    } else {
      OutSame(v, step);
      hide Apply, Enabled, Fresh;
      assert seen + Adds(step) == seen;
    }
  }

  lemma StartShows(now: Snapshot, link: string)
    requires !now.Failed?
    ensures Possible(now, link, []) && Shows(End(now, link, []).loop, Seen(now, []))
  {
  }

  /** In every run the blocks written are exactly the listings seen, without those
      that repeat the one before. */
  lemma {:induction false} BlocksExactly(now: Snapshot, link: string, steps: seq<Step>)
    requires !now.Failed? && Possible(now, link, steps)
    ensures Shows(End(now, link, steps).loop, Seen(now, steps))
  {
    hide Possible, End, Apply, Enabled, Seen, Shows;
    StartShows(now, link);
    if steps != [] {
      var before, step := steps[..|steps| - 1], steps[|steps| - 1];
      LastStep(now, link, steps);
      BlocksExactly(now, link, before);
      assert steps == before + [step];
      SeenNext(now, before, step);
      ShowsNext(End(now, link, before), Seen(now, before), step);
    }
  }

  lemma WriteShows(v: World, s: Snapshot)
    requires Enabled(v, Write(s))
    ensures var l := Apply(v, Write(s)).loop;
            if s.Failed? || Take(s).value == v.loop.last then l.out == v.loop.out && l.last == v.loop.last
            else l.out == v.loop.out + [Take(s).value] && l.last == Take(s).value
  {
  }

  // ---------------------------------------------------------------------
  // Refresh rounds
  // ---------------------------------------------------------------------

  lemma LastStep(now: Snapshot, link: string, steps: seq<Step>)
    requires Take(now).Some? && Possible(now, link, steps) && steps != []
    ensures var before, step := steps[..|steps| - 1], steps[|steps| - 1];
            && Possible(now, link, before) && Enabled(End(now, link, before), step) && Good(End(now, link, before))
            && End(now, link, steps) == Apply(End(now, link, before), step)
  {
    hide Apply, Enabled, FlagsOk, BlocksOk, HearOk;
  }

  /** The event the loop takes next asks for a refresh. */
  ghost predicate AsksNow(w: World) { w.queue != [] && w.queue[0].relevant && w.queue[0].refresh }

  /** Since the debounce last fired, an event that asks for a refresh was taken. */
  ghost predicate Asked(now: Snapshot, link: string, steps: seq<Step>)
    requires Take(now).Some? && Possible(now, link, steps)
  {
    var n := |steps|;
    n > 0
    && var before := steps[..n - 1];
       match steps[n - 1]
       case Fire => false
       case TakeEvent => Asked(now, link, before) || AsksNow(End(now, link, before))
       case _ => Asked(now, link, before)
  }

  /** A round was started and its end has not been taken account of. */
  ghost predicate InFlight(now: Snapshot, link: string, steps: seq<Step>)
    requires Take(now).Some? && Possible(now, link, steps)
  {
    var n := |steps|;
    n > 0
    && var before := steps[..n - 1];
       match steps[n - 1]
       case Fire => InFlight(now, link, before) || Asked(now, link, before)
       case RoundDone => false
       case _ => InFlight(now, link, before)
  }

  /** The step tells the loop of a change. */
  ghost predicate Tells(v: World, step: Step) {
    || step.TakeWake? || step.TakeError?
    || (step.TakeEvent? && v.queue != [] && (v.queue[0].relevant || (v.queue[0].cfg && v.link != v.loop.target)))
  }

  /** Since the debounce last fired the loop was told of a change: by an event, a
      nudge, an error, or a devvm.toml found to link elsewhere. */
  ghost predicate Told(now: Snapshot, link: string, steps: seq<Step>)
    requires Take(now).Some? && Possible(now, link, steps)
  {
    var n := |steps|;
    n > 0
    && var before := steps[..n - 1];
       !steps[n - 1].Fire? && (Told(now, link, before) || Tells(End(now, link, before), steps[n - 1]))
  }

  lemma ChangedOnce(v: World, step: Step)
    requires Enabled(v, step)
    ensures Apply(v, step).loop.changed <==> !step.Fire? && (v.loop.changed || Tells(v, step))
  {
    hide HasCfg, HasRelevant;
  }

  lemma {:induction false} ChangedSays(now: Snapshot, link: string, steps: seq<Step>)
    requires Take(now).Some? && Possible(now, link, steps)
    ensures End(now, link, steps).loop.changed <==> Told(now, link, steps)
  {
    if steps != [] {
      var before, step := steps[..|steps| - 1], steps[|steps| - 1];
      LastStep(now, link, steps);
      ChangedSays(now, link, before);
      ChangedOnce(End(now, link, before), step);
      hide Possible, End, Good, Apply, Enabled, Tells;
    }
  }

  /** In every run a firing debounce takes a snapshot exactly if the loop was told of
      a change since it last fired, or finds the link moved now. */
  lemma SnapshotsOnChange(now: Snapshot, link: string, before: seq<Step>)
    requires Take(now).Some? && Possible(now, link, before) && Enabled(End(now, link, before), Fire)
    ensures var v, steps := End(now, link, before), before + [Fire];
            && Possible(now, link, steps)
            && (End(now, link, steps).mode == Emitting(false) <==> Told(now, link, before) || v.link != v.loop.target)
  {
    assert (before + [Fire])[..|before|] == before;
    ChangedSays(now, link, before);
    assert End(now, link, before + [Fire]) == Apply(End(now, link, before), Fire);
    hide Possible, End, Told, Good;
  }

  /** What one step does to the two flags, and to the rounds. */
  lemma FlagsOnce(v: World, step: Step)
    requires Good(v) && Enabled(v, step)
    ensures var w := Apply(v, step);
            && (w.loop.refreshWanted <==>
                  !step.Fire? && (v.loop.refreshWanted || (step.TakeEvent? && v.queue[0].relevant && v.queue[0].refresh)))
            && (w.loop.roundDone.Some? <==>
                  !step.RoundDone? && (v.loop.roundDone.Some? || (step.Fire? && v.loop.refreshWanted)))
            && (v.loop.refreshWanted ==> v.loop.pending && (step.Fire? ==> w.mode == Emitting(false)))
            && (if step.Fire? && v.loop.refreshWanted && v.loop.roundDone.None?
                then w.running == {v.rounds} && w.loop.roundDone == Some(v.rounds)
                else w.running == v.running - (if step.RoundEnd? then {step.round} else {})
                     && w.loop.roundDone == if step.RoundDone? then None else v.loop.roundDone)
  {
    hide BlocksOk, HearOk, HasCfg, HasRelevant;
  }

  lemma {:induction false} FlagsSay(now: Snapshot, link: string, steps: seq<Step>)
    requires Take(now).Some? && Possible(now, link, steps)
    ensures var w := End(now, link, steps);
            (w.loop.refreshWanted <==> Asked(now, link, steps)) && (w.loop.roundDone.Some? <==> InFlight(now, link, steps))
  {
    if steps != [] {
      var before, step := steps[..|steps| - 1], steps[|steps| - 1];
      LastStep(now, link, steps);
      FlagsSay(now, link, before);
      FlagsOnce(End(now, link, before), step);
      assert step.TakeEvent? ==> End(now, link, before).queue != [];
      hide Possible, End, Good, Apply, Enabled;
    }
  }

  /** A refresh asked for is never dropped, and none runs that was not: from the
      event on the debounce stays armed; when it fires, and at no other step, a round
      starts, exactly if one was asked for and none is in flight. */
  lemma RefreshRunsOrJoins(now: Snapshot, link: string, before: seq<Step>, step: Step)
    requires Take(now).Some? && Possible(now, link, before) && Enabled(End(now, link, before), step)
    ensures var v, steps := End(now, link, before), before + [step];
            && Possible(now, link, steps)
            && var w := End(now, link, steps);
               && (Asked(now, link, before) ==> v.loop.pending && (step.Fire? ==> w.mode == Emitting(false) && w.loop.roundDone.Some?))
               && (if step.Fire? && Asked(now, link, before) && !InFlight(now, link, before)
                   then w.running == {v.rounds} && w.loop.roundDone == Some(v.rounds)
                   else w.running == v.running - (if step.RoundEnd? then {step.round} else {})
                        && w.loop.roundDone == if step.RoundDone? then None else v.loop.roundDone)
  {
    assert (before + [step])[..|before|] == before;
    FlagsSay(now, link, before);
    FlagsOnce(End(now, link, before), step);
    assert End(now, link, before + [step]) == Apply(End(now, link, before), step);
    hide Possible, End, Good, Apply, Enabled, Asked, InFlight;
  }

  lemma {:induction false} StaysAsked(now: Snapshot, link: string, before: seq<Step>, between: seq<Step>)
    requires Take(now).Some? && Possible(now, link, before) && AsksNow(End(now, link, before))
    requires Possible(now, link, before + [TakeEvent] + between) && Fire !in between
    ensures Asked(now, link, before + [TakeEvent] + between)
  {
    var n := |between|;
    var steps := before + [TakeEvent] + between;
    hide End, Apply, Enabled;
    if n == 0 {
      assert steps[..|steps| - 1] == before;
    } else {
      assert steps[..|steps| - 1] == before + [TakeEvent] + between[..n - 1];
      StaysAsked(now, link, before, between[..n - 1]);
      assert between[n - 1] in between;
    }
  }

  /** So when an event that asks for a refresh is taken, whatever happens before the
      debounce fires next, then a round is running that started after it, or one that
      was in flight is joined. */
  lemma RefreshAnswered(now: Snapshot, link: string, before: seq<Step>, between: seq<Step>)
    requires Take(now).Some? && Possible(now, link, before) && AsksNow(End(now, link, before)) && Fire !in between
    requires var steps := before + [TakeEvent] + between;
             Possible(now, link, steps) && Enabled(End(now, link, steps), Fire)
    ensures var steps := before + [TakeEvent] + between;
            && Possible(now, link, steps + [Fire])
            && var v, w := End(now, link, steps), End(now, link, steps + [Fire]);
               && w.mode == Emitting(false) && w.loop.roundDone.Some?
               && if InFlight(now, link, steps) then w.running == v.running && w.loop.roundDone == v.loop.roundDone
                  else w.running == {v.rounds} && w.loop.roundDone == Some(v.rounds)
  {
    hide *;
    StaysAsked(now, link, before, between);
    RefreshRunsOrJoins(now, link, before + [TakeEvent] + between, Fire);
  }
}
