/** A browser bridge that opens after the attach stopped waiting for it: kept for
    the rest of the attach, and closed once, however the hand-off interleaves with
    the attach's end. */
module LateBridge {
  import opened Wrappers

  /** lateBridge: the session it keeps, whether the attach let go, and how often the
      stop channel was closed (a second time would panic). */
  datatype Holder = Holder(s: Option<nat>, released: bool, stops: nat)

  /** adopt's critical section, and the session it leaves to be closed. */
  function Adopt(h: Holder, s: nat): (Holder, Option<nat>) {
    if h.released then (h, Some(s)) else (h.(s := Some(s)), None)
  }

  /** release's. */
  function Release(h: Holder): (Holder, Option<nat>) {
    (Holder(None, true, if h.released then h.stops else h.stops + 1), h.s)
  }

  class Late {
    var s: Option<nat>
    var released: bool
    var stops: nat

    ghost function Abs(): Holder reads this { Holder(s, released, stops) }

    constructor ()
      ensures Abs() == Holder(None, false, 0)
    {
      s, released, stops := None, false, 0;
    }

    method AdoptSession(session: nat) returns (close: Option<nat>)
      modifies this
      ensures (Abs(), close) == Adopt(old(Abs()), session)
    {
      if released {
        return Some(session);
      }
      s := Some(session);
      return None;
    }

    method ReleaseSession() returns (close: Option<nat>)
      modifies this
      ensures (Abs(), close) == Release(old(Abs()))
    {
      close := s;
      if !released {
        stops := stops + 1;
      }
      s, released := None, true;
    }
  }

  /** Until the attach lets go an adopted session is kept, and after it closed; and an
      adopt forgets a session exactly when it finds another one kept. */
  lemma AdoptLosesNothing(h: Holder, s: nat)
    requires h.s != Some(s)
    ensures var (h', close) := Adopt(h, s); if h.released then close == Some(s) && h' == h else h'.s == Some(s) && !h'.released
    ensures var (h', close) := Adopt(h, s);
            (forall x :: h.s == Some(x) || x == s ==> h'.s == Some(x) || close == Some(x)) <==> h.released || h.s.None?
  {
    var (h', close) := Adopt(h, s);
    if !h.released && h.s.Some? {
      var x := h.s.value;
      assert h.s == Some(x) && h'.s != Some(x) && close != Some(x);
    }
  }

  // ---------------------------------------------------------------------
  // Runs
  // ---------------------------------------------------------------------

  /** The goroutine behind one holder: its first open still in flight, or a retry
      waiting, about to open, or opening, with `left` waits to go; a session in its
      hand; or over. */
  datatype Opener =
    | Opening(left: nat)
    | Waiting(left: nat)
    | Checking(left: nat)
    | Holding(s: nat)
    | Done

  /** `next` numbers the sessions; `taken` are those taken out of the holder or
      refused by it, not closed yet; `closed` lists every close. */
  datatype World = World(holder: Holder, opener: Opener, next: nat, taken: seq<nat>, closed: seq<nat>)

  /** Whoever opened a session hands it on, or closes it (its daemon has no agent). */
  datatype Step =
    | OpenOk
    | OpenFails(forGood: bool)
    | TimerFires
    | StopSeen
    | GoesOn
    | HandOver
    | DropIt
    | LetGo
    | CloseOne(i: nat)

  ghost predicate Enabled(w: World, step: Step) {
    match step
    case OpenOk => w.opener.Opening?
    case OpenFails(_) => w.opener.Opening?
    case TimerFires => w.opener.Waiting? && w.opener.left > 0
    case StopSeen => (w.opener.Waiting? || w.opener.Checking?) && w.holder.released
    case GoesOn => w.opener.Checking? && !w.holder.released
    case HandOver => w.opener.Holding?
    case DropIt => w.opener.Holding?
    case LetGo => true
    case CloseOne(i) => i < |w.taken|
  }

  ghost function Take(w: World, s: Option<nat>): seq<nat> { if s.Some? then w.taken + [s.value] else w.taken }

  ghost function Apply(w: World, step: Step): World
    requires Enabled(w, step)
  {
    match step
    case OpenOk => w.(opener := Holding(w.next), next := w.next + 1)
    case OpenFails(forGood) => w.(opener := if forGood || w.opener.left == 0 then Done else Waiting(w.opener.left))
    case TimerFires => w.(opener := Checking(w.opener.left - 1))
    case StopSeen => w.(opener := Done)
    case GoesOn => w.(opener := Opening(w.opener.left))
    case HandOver =>
      var (h, close) := Adopt(w.holder, w.opener.s);
      w.(holder := h, opener := Done, taken := Take(w, close))
    case DropIt => w.(opener := Done, taken := w.taken + [w.opener.s])
    case LetGo =>
      var (h, close) := Release(w.holder);
      w.(holder := h, taken := Take(w, close))
    case CloseOne(i) => w.(taken := w.taken[..i] + w.taken[i + 1..], closed := w.closed + [w.taken[i]])
  }

  ghost function One(b: bool): nat { if b then 1 else 0 }

  /** In how many places session `s` is. */
  ghost function Places(w: World, s: nat): nat {
    One(w.opener == Holding(s)) + One(w.holder.s == Some(s)) + multiset(w.taken)[s] + multiset(w.closed)[s]
  }

  ghost predicate Good(w: World) {
    && (forall s: nat :: Places(w, s) == One(s < w.next))
    && (w.holder.released ==> w.holder.s.None?)
    && w.holder.stops == One(w.holder.released)
    && (w.holder.s.Some? ==> w.opener.Done?)
  }

  lemma StepKeepsGood(w: World, step: Step)
    requires Good(w) && Enabled(w, step)
    ensures Good(Apply(w, step))
  {
    forall s: nat ensures Places(Apply(w, step), s) == One(s < Apply(w, step).next) {
      PlacesStep(w, step, s);
    }
    hide Places;
  }

  lemma PlacesStep(w: World, step: Step, s: nat)
    requires Good(w) && Enabled(w, step)
    ensures Places(Apply(w, step), s) == One(s < Apply(w, step).next)
  {
    assert Places(w, s) == One(s < w.next);
    match step {
      case CloseOne(i) =>
        assert w.taken == w.taken[..i] + [w.taken[i]] + w.taken[i + 1..];
      case _ =>
    }
  }

  ghost predicate Possible(waits: nat, steps: seq<Step>)
    decreases |steps|, 0
  {
    var n := |steps|;
    n == 0 || (Possible(waits, steps[..n - 1]) && Enabled(End(waits, steps[..n - 1]), steps[n - 1]))
  }

  /** From a first open that is still in flight, with `waits` retries after it. */
  ghost function End(waits: nat, steps: seq<Step>): (w: World)
    requires Possible(waits, steps)
    ensures Good(w)
    decreases |steps|, 1
  {
    var n := |steps|;
    if n == 0 then World(Holder(None, false, 0), Opening(waits), 0, [], [])
    else
      var v := End(waits, steps[..n - 1]);
      StepKeepsGood(v, steps[n - 1]);
      Apply(v, steps[n - 1])
  }

  /** In every run each session that was opened is in one place, so none is closed
      twice and none is lost; the stop channel is closed once, by the first release;
      and nothing is kept after it. */
  lemma EachInOnePlace(waits: nat, steps: seq<Step>, s: nat)
    requires Possible(waits, steps)
    ensures var w := End(waits, steps);
            && Places(w, s) == One(s < w.next)
            && multiset(w.closed)[s] <= 1
            && (w.holder.released ==> w.holder.s.None?) && w.holder.stops == One(w.holder.released)
  {
    hide Possible, End;
    assert Good(End(waits, steps));
    assert Places(End(waits, steps), s) == One(s < End(waits, steps).next);
  }

  /** When the attach has let go, its opener is over and every close has run, every
      session ever opened has been closed, exactly once. */
  lemma ClosedOnceAtTheEnd(waits: nat, steps: seq<Step>, s: nat)
    requires Possible(waits, steps)
    requires var w := End(waits, steps); w.holder.released && w.opener.Done? && w.taken == [] && s < w.next
    ensures multiset(End(waits, steps).closed)[s] == 1
  {
    hide Possible, End;
    assert Good(End(waits, steps));
    assert Places(End(waits, steps), s) == 1;
  }
}
