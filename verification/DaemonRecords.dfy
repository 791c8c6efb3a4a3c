/** What the daemon's records say, step by step and in every run: who is registered
    and subscribed, who holds a forward and at which port, which event is awaited. */
module DaemonRecords {
  import opened Wrappers
  import opened Daemon
  import opened DaemonRuns

  // ---------------------------------------------------------------------
  // One add
  // ---------------------------------------------------------------------

  predicate Accepted(out: AddOutcome) { out.Recorded? || out.Claimed? }

  /** Who holds the guest port, and until when. */
  function Holders(c: Core, g: nat): map<Owner, int> { if g in c.forwards then c.forwards[g].owners else map[] }

  function Later(a: int, b: int): int { if a < b then b else a }

  /** An add that is answered records its owner, until the later time if it was there
      already, and changes nothing else about who holds what; one that is refused, or
      has to wait, changes nothing. */
  lemma AddRecords(c: Core, q: AddRequest)
    ensures var (d, out), was := Add(c, q), Holders(c, q.guest);
            if !Accepted(out) then d == c
            else
              && d == c.(forwards := d.forwards, nextFwd := d.nextFwd)
              && d.forwards.Keys == c.forwards.Keys + {q.guest}
              && (forall g :: g in c.forwards && g != q.guest ==> d.forwards[g] == c.forwards[g])
              && (forall o :: o in Holders(d, q.guest) <==> o in was || o == q.own)
              && (forall o :: o in was && o != q.own ==> Holders(d, q.guest)[o] == was[o])
              && Holders(d, q.guest)[q.own] == (if q.own in was then Later(was[q.own], q.expires) else q.expires)
              && (out.added <==> q.own !in was)
  {
    hide HeldPorts;
  }

  /** ... and answers for the record: a live forward's own port, or a claim to bind it;
      an exact add with the port it asked for, or not at all. A record keeps its
      identity, port and listener. */
  lemma AddAnswers(c: Core, q: AddRequest)
    ensures var (d, out) := Add(c, q);
            && (q.exact && out.Recorded? ==> out.host == q.pref && d.forwards[q.guest].exact)
            && (q.exact && out.Claimed? ==> out.target == q.pref && out.exact)
            && (out.PortBusy? ==> q.exact && q.guest in c.forwards && c.forwards[q.guest].host != q.pref)
            && (out.Wait? ==> q.guest in c.forwards && c.forwards[q.guest].binding)
            && (out.SessionGone? <==> q.own.ConnOwner? && q.own.id !in c.sessions)
            && (Accepted(out) ==>
                  var f := d.forwards[q.guest];
                  && !(q.guest in c.forwards && c.forwards[q.guest].binding)
                  && (if q.guest in c.forwards
                      then f.id == c.forwards[q.guest].id && f.host == c.forwards[q.guest].host
                           && f.closer == c.forwards[q.guest].closer && (c.forwards[q.guest].exact ==> f.exact)
                           && d.nextFwd == c.nextFwd
                      else f.id == c.nextFwd && f.host == q.pref && f.closer.None? && d.nextFwd == c.nextFwd + 1)
                  && (f.binding <==> out.Claimed?)
                  && (out.Claimed? <==> f.closer.None? && c.up && c.tr.Some?)
                  && (f.exact <==> (q.guest in c.forwards && c.forwards[q.guest].exact) || (q.exact && out.Recorded?))
                  && (if out.Claimed?
                      then out.fid == f.id && Some(out.tr) == c.tr && (out.exact <==> f.exact || q.exact)
                           && out.target == (if f.exact then f.host else q.pref)
                      else out.host == f.host && (out.pending <==> f.closer.None?)))
  {
    hide HeldPorts, AddOwner;
    AddOwnerKeeps(c, q);
  }

  lemma AddOwnerKeeps(c: Core, q: AddRequest)
    ensures q.guest in c.forwards ==> var f := c.forwards[q.guest]; AddOwner(f, q.own, q.expires) == f.(owners := AddOwner(f, q.own, q.expires).owners)
  {
  }

  /** A capped add makes a new forward only while fewer than twenty ports are held
      for the browser, so that it never leaves more than twenty; only then is it not
      admitted. */
  lemma AddAdmits(c: Core, q: AddRequest)
    ensures var (d, out) := Add(c, q);
            && (out.NotAdmitted? ==> q.capped && q.guest !in c.forwards && |HeldPorts(c)| >= MAX_EPHEMERAL)
            && (Accepted(out) && q.capped && q.guest !in c.forwards ==> |HeldPorts(d)| <= MAX_EPHEMERAL)
  {
    var (d, out) := Add(c, q);
    if Accepted(out) && q.capped && q.guest !in c.forwards {
      assert |HeldPorts(c)| < MAX_EPHEMERAL;
      AddRecords(c, q);
      hide Add;
      HeldSame(c, d, q.guest);
    }
    hide HeldPorts;
  }

  lemma HeldSame(c: Core, d: Core, g: nat)
    requires d.sessions == c.sessions && d.sess == c.sess
    requires forall h :: h in d.forwards && h != g ==> h in c.forwards && d.forwards[h] == c.forwards[h]
    ensures |HeldPorts(d)| <= |HeldPorts(c)| + 1
  {
    forall h | h in HeldPorts(d) ensures h in HeldPorts(c) + {g} {
    }
    Smaller(HeldPorts(d), HeldPorts(c) + {g});
    assert |HeldPorts(c) + {g}| <= |HeldPorts(c)| + 1;
  }

  lemma {:induction false} Smaller(a: set<nat>, b: set<nat>)
    requires a <= b
    ensures |a| <= |b|
  {
    if x :| x in a {
      Smaller(a - {x}, b - {x});
    }
  }

  // ---------------------------------------------------------------------
  // Owners over steps
  // ---------------------------------------------------------------------

  /** The step takes the forward of `g` away from `own`: its session closes or dies
      with its transport, it is removed, conf owners are dropped, its time ran out, or
      it is what a failed bind's own add had recorded. */
  ghost predicate Takes(w: World, step: Step, g: nat, own: Owner) {
    match step
    case Close(s) => own == ConnOwner(s)
    case TransportDies => own.ConnOwner? && own.id in w.core.sessions && Relay(w.core, own.id)
    case RemoveOwner(guest, o) => guest == g && o == own
    case DropConf => own == ConfOwner
    case ExpireTtl(now) => own == TtlOwner && own in Holders(w.core, g) && 0 != Holders(w.core, g)[own] <= now
    case BindFails(k, dead) =>
      k in w.claims && var m := w.claims[k];
                       m.guest == g && m.own == Some(own) && m.added && !dead && w.core.up && w.core.tr == Some(m.tr)
    case _ => false
  }

  ghost predicate Gives(w: World, step: Step, g: nat, own: Owner) {
    step.AddSlot? && step.q.guest == g && step.q.own == own && Accepted(Add(w.core, step.q).1)
  }

  /** `own` holds `g` after exactly if it held it and was not `taken` away, or was
      `given` it; the record is then the same one, and held no shorter. */
  ghost predicate Passed(c: Core, d: Core, g: nat, own: Owner, taken: bool, given: bool) {
    && (own in Holders(d, g) <==> (own in Holders(c, g) && !taken) || given)
    && (own in Holders(c, g) && own in Holders(d, g) ==>
          Holders(d, g)[own] >= Holders(c, g)[own] && d.forwards[g].id == c.forwards[g].id)
  }

  lemma AddPasses(c: Core, q: AddRequest, g: nat, own: Owner)
    ensures Passed(c, Add(c, q).0, g, own, false, q.guest == g && q.own == own && Accepted(Add(c, q).1))
  {
    AddRecords(c, q);
    AddAnswers(c, q);
    hide Add;
  }

  lemma DropPasses(c: Core, c1: Core, gone: set<Owner>, g: nat, own: Owner)
    requires c1.forwards == c.forwards
    ensures Passed(c, DropOwners(c1, gone), g, own, own in gone, false)
  {
    DropOwnersExact(c1, gone);
    hide DropOwners;
    var d := DropOwners(c1, gone);
    if g in c.forwards && g !in d.forwards && own !in gone {
      assert own !in c.forwards[g].owners - gone;
    }
  }

  lemma ExpirePasses(c: Core, now: int, g: nat, own: Owner)
    ensures Passed(c, Expire(c, now), g, own, own == TtlOwner && own in Holders(c, g) && 0 != Holders(c, g)[own] <= now, false)
  {
    ExpireExact(c, now);
    hide Expire;
    if g in c.forwards && g !in Expire(c, now).forwards && own !in Lapsed(c.forwards[g], now) {
      assert own !in c.forwards[g].owners - Lapsed(c.forwards[g], now);
    }
  }

  lemma RemovePasses(c: Core, guest: nat, o: Owner, g: nat, own: Owner)
    ensures Passed(c, Remove(c, guest, o), g, own, guest == g && o == own, false)
  {
    if g in c.forwards && own in c.forwards[g].owners && own != o {
      assert own in c.forwards[g].owners - {o};
    }
  }

  lemma SettlePasses(c: Core, guest: nat, fid: nat, g: nat, own: Owner)
    ensures Passed(c, Settle(c, guest, fid), g, own, false, false)
  {
  }

  lemma AdoptPasses(c: Core, m: Claim, host: int, closer: nat, g: nat, own: Owner)
    ensures Passed(c, Adopt(c, m.guest, m.fid, m.tr, host, closer, m.exact).0, g, own, false, false)
  {
    SettlePasses(c, m.guest, m.fid, g, own);
    hide Settle;
  }

  lemma FailPasses(c: Core, m: Claim, o: Owner, dead: bool, g: nat, own: Owner)
    requires Current(c, m.guest, m.fid) && c.forwards[m.guest].closer.None?
    ensures Passed(c, BindFailed(c, m.guest, m.fid, m.tr, o, m.added, dead).0, g, own,
                   m.guest == g && o == own && m.added && !dead && c.up && c.tr == Some(m.tr), false)
  {
    SettlePasses(c, m.guest, m.fid, g, own);
    SettleSame(c, m.guest, m.fid);
    hide Settle;
    var d := Settle(c, m.guest, m.fid);
    if g in d.forwards && own != o {
      OthersStay(d.forwards[g].owners, own, o);
    }
  }

  lemma OthersStay(owners: map<Owner, int>, own: Owner, o: Owner)
    requires own != o
    ensures own in owners <==> own in owners - {o}
    ensures own in owners ==> (owners - {o})[own] == owners[own] && owners - {o} != map[]
  {
    assert own in owners ==> own in owners - {o};
  }

  lemma SettleSame(c: Core, guest: nat, fid: nat)
    requires Current(c, guest, fid) && c.forwards[guest].closer.None?
    ensures var d := Settle(c, guest, fid);
            && d == c.(forwards := d.forwards)
            && (guest in d.forwards ==> Current(d, guest, fid) && d.forwards[guest].closer.None?)
  {
  }

  lemma DiesPasses(c: Core, g: nat, own: Owner)
    ensures Passed(c, OnDead(c), g, own, own.ConnOwner? && own.id in c.sessions && Relay(c, own.id), false)
  {
    var relays := Relays(c);
    DropPasses(c, c.(up := false, sessions := c.sessions - relays, subs := RemoveAll(c.subs, relays)), ConnOwners(relays), g, own);
    hide DropOwners, RemoveAll;
  }

  lemma ClaimIdle(w: World, k: nat)
    requires Good(w) && k in w.claims
    ensures Current(w.core, w.claims[k].guest, w.claims[k].fid) && w.core.forwards[w.claims[k].guest].closer.None?
    ensures w.core.forwards[w.claims[k].guest].binding
  {
  }

  lemma OtherPasses(w: World, step: Step, g: nat, own: Owner)
    requires Good(w) && Enabled(w, step) && Sound(w)
    requires !step.AddSlot? && !step.AdoptSlot? && !step.BindFails? && !step.RemoveOwner? && !step.DropConf? && !step.ExpireTtl?
    requires !step.Close? && !step.TransportDies?
    ensures Passed(w.core, Apply(w, step).core, g, own, false, false)
  {
    hide Good, RemoveSess;
  }

  lemma BindPasses(w: World, step: Step, g: nat, own: Owner)
    requires Good(w) && Enabled(w, step) && Sound(w) && (step.AddSlot? || step.AdoptSlot? || step.BindFails?)
    ensures Passed(w.core, Apply(w, step).core, g, own, Takes(w, step, g, own), Gives(w, step, g, own))
  {
    var c := w.core;
    hide Good, Sound, Add, Adopt, BindFailed, Settle, Passed, Current;
    match step {
      case AddSlot(q) => AddPasses(c, q, g, own);
      case AdoptSlot(k) => AdoptPasses(c, w.claims[k], w.claims[k].got.value.0, w.claims[k].got.value.1, g, own);
      case BindFails(k, dead) =>
        var m := w.claims[k];
        if m.own.None? {
          SettlePasses(c, m.guest, m.fid, g, own);
        } else {
          ClaimIdle(w, k);
          FailPasses(c, m, m.own.value, dead, g, own);
        }
    }
  }

  lemma DropsPass(w: World, step: Step, g: nat, own: Owner)
    requires Enabled(w, step) && Sound(w)
    requires step.RemoveOwner? || step.DropConf? || step.ExpireTtl? || step.Close? || step.TransportDies?
    ensures Passed(w.core, Apply(w, step).core, g, own, Takes(w, step, g, own), Gives(w, step, g, own))
  {
    var c := w.core;
    assert step.Close? ==> step.s in c.sess;
    hide Sound, Remove, DropOwners, Expire, OnDead, Passed, Released, LapsedListeners, RemoveSess;
    match step {
      case RemoveOwner(guest, o) => RemovePasses(c, guest, o, g, own);
      case DropConf => DropPasses(c, c, {ConfOwner}, g, own);
      case ExpireTtl(now) => ExpirePasses(c, now, g, own);
      case Close(s) =>
        DropPasses(c, c.(sessions := c.sessions - {s}, subs := RemoveSess(c.subs, s), sess := c.sess[s := c.sess[s].(pending := {})]),
                   {ConnOwner(s)}, g, own);
      case TransportDies => DiesPasses(c, g, own);
    }
  }

  /** In any state a run reaches: after a step a forward is held by exactly those who
      held it and were not taken it away, and the one a step gives it to. Its record
      is then the same one, and no time it is held until was shortened. */
  lemma OwnersExactly(w: World, step: Step, g: nat, own: Owner)
    requires Good(w) && Enabled(w, step)
    ensures Sound(w) && Passed(w.core, Apply(w, step).core, g, own, Takes(w, step, g, own), Gives(w, step, g, own))
  {
    GoodSound(w);
    hide Good, Sound, Passed, Apply, Enabled;
    if step.AddSlot? || step.AdoptSlot? || step.BindFails? {
      BindPasses(w, step, g, own);
    } else if step.RemoveOwner? || step.DropConf? || step.ExpireTtl? || step.Close? || step.TransportDies? {
      DropsPass(w, step, g, own);
    } else {
      OtherPasses(w, step, g, own);
    }
  }

  /** Step `i` of the run gives `own` the forward. */
  ghost predicate GivenAt(tr: nat, steps: seq<Step>, i: nat, g: nat, own: Owner) {
    i < |steps| && Possible(tr, steps[..i]) && Gives(End(tr, steps[..i]), steps[i], g, own)
  }

  ghost predicate TakenAt(tr: nat, steps: seq<Step>, i: nat, g: nat, own: Owner) {
    i < |steps| && Possible(tr, steps[..i]) && Takes(End(tr, steps[..i]), steps[i], g, own)
  }

  /** An add was answered for `own` at step `i`, and no step up to `n` took it. */
  ghost predicate GivenAndKept(tr: nat, steps: seq<Step>, i: nat, n: nat, g: nat, own: Owner) {
    i < n && GivenAt(tr, steps, i, g, own) && forall j: nat :: i < j < n ==> !TakenAt(tr, steps, j, g, own)
  }

  /** The run after `n + 1` steps. */
  lemma OneMore(tr: nat, steps: seq<Step>, n: nat, g: nat, own: Owner)
    requires n < |steps| && Possible(tr, steps[..n + 1])
    ensures Possible(tr, steps[..n])
    ensures own in Holders(End(tr, steps[..n + 1]).core, g) <==>
            (own in Holders(End(tr, steps[..n]).core, g) && !TakenAt(tr, steps, n, g, own)) || GivenAt(tr, steps, n, g, own)
  {
    hide Apply, Enabled, Takes, Gives, Holders, Good, Sound, Possible, End;
    var before, step := steps[..n], steps[n];
    assert steps[..n + 1][..n] == before;
    LastStep(tr, steps[..n + 1]);
    EndGood(tr, before);
    OwnersExactly(End(tr, before), step, g, own);
  }

  lemma EndGood(tr: nat, steps: seq<Step>)
    requires Possible(tr, steps)
    ensures Good(End(tr, steps))
  {
  }

  lemma {:induction false} HeldAfter(tr: nat, steps: seq<Step>, n: nat, g: nat, own: Owner)
    requires n <= |steps| && Possible(tr, steps[..n])
    ensures own in Holders(End(tr, steps[..n]).core, g) <==> exists i: nat :: GivenAndKept(tr, steps, i, n, g, own)
  {
    hide Apply, Enabled, Takes, Gives, Good, Sound;
    if n == 0 {
      assert End(tr, steps[..0]) == Start(tr);
    } else {
      hide Possible, End, Holders;
      OneMore(tr, steps, n - 1, g, own);
      HeldAfter(tr, steps, n - 1, g, own);
      KeptOneMore(tr, steps, n - 1, n, g, own);
    }
  }

  lemma KeptOneMore(tr: nat, steps: seq<Step>, m: nat, n: nat, g: nat, own: Owner)
    requires n == m + 1
    ensures (exists i: nat :: GivenAndKept(tr, steps, i, n, g, own)) <==>
            ((exists i: nat :: GivenAndKept(tr, steps, i, m, g, own)) && !TakenAt(tr, steps, m, g, own))
            || GivenAt(tr, steps, m, g, own)
  {
    hide GivenAt, TakenAt;
    if i: nat :| GivenAndKept(tr, steps, i, n, g, own) {
      if i < m {
        assert GivenAndKept(tr, steps, i, m, g, own);
      }
    }
    if i: nat :| GivenAndKept(tr, steps, i, m, g, own) {
      if !TakenAt(tr, steps, m, g, own) {
        assert GivenAndKept(tr, steps, i, n, g, own);
      }
    }
    if GivenAt(tr, steps, m, g, own) {
      assert GivenAndKept(tr, steps, m, n, g, own);
    }
  }

  /** In every run a forward is held by exactly those whom an add was answered for
      it, and from whom no step took it since. */
  lemma HeldExactly(tr: nat, steps: seq<Step>, g: nat, own: Owner)
    requires Possible(tr, steps)
    ensures own in Holders(End(tr, steps).core, g) <==>
            exists i: nat :: GivenAndKept(tr, steps, i, |steps|, g, own)
  {
    hide *;
    assert steps[..|steps|] == steps;
    HeldAfter(tr, steps, |steps|, g, own);
  }

  // ---------------------------------------------------------------------
  // Records and their ports
  // ---------------------------------------------------------------------

  /** What became of the record of `g`: port, listener and exactness. */
  ghost predicate Became(c: Core, d: Core, g: nat, host: int, closer: Option<nat>, exact: bool) {
    g in c.forwards && g in d.forwards ==>
      d.forwards[g].id == c.forwards[g].id && d.forwards[g].host == host && d.forwards[g].closer == closer && d.forwards[g].exact == exact
  }

  ghost predicate BecameSame(c: Core, d: Core, g: nat) {
    g in c.forwards ==> Became(c, d, g, c.forwards[g].host, c.forwards[g].closer, c.forwards[g].exact)
  }

  /** The step binds `g`: the claim on it comes back with a listener on the transport
      that is still the current one. */
  ghost predicate Binds(w: World, step: Step, g: nat) {
    step.AdoptSlot? && step.k in w.claims && w.claims[step.k].guest == g && w.claims[step.k].got.Some?
    && w.core.tr == Some(w.claims[step.k].tr)
  }

  ghost predicate AsksExact(w: World, step: Step, g: nat) { step.AddSlot? && step.q.guest == g && step.q.exact && Add(w.core, step.q).1.Recorded? }

  lemma AddBecomes(c: Core, q: AddRequest, g: nat)
    requires g in c.forwards
    ensures Became(c, Add(c, q).0, g, c.forwards[g].host, c.forwards[g].closer,
                   c.forwards[g].exact || (q.guest == g && q.exact && Add(c, q).1.Recorded?))
  {
    AddRecords(c, q);
    hide HeldPorts, AddOwner;
    AddOwnerKeeps(c, q);
  }

  lemma DropBecomes(c: Core, c1: Core, gone: set<Owner>, now: int, g: nat)
    requires c1.forwards == c.forwards
    ensures BecameSame(c, DropOwners(c1, gone), g) && BecameSame(c, Expire(c, now), g)
  {
    DropOwnersExact(c1, gone);
    ExpireExact(c, now);
    hide DropOwners, Expire;
  }

  lemma FailBecomes(c: Core, m: Claim, o: Owner, dead: bool, g: nat)
    ensures BecameSame(c, Settle(c, m.guest, m.fid), g)
    ensures BecameSame(c, BindFailed(c, m.guest, m.fid, m.tr, o, m.added, dead).0, g)
  {
  }

  lemma AdoptBecomes(c: Core, m: Claim, g: nat)
    requires Current(c, m.guest, m.fid) && c.forwards[m.guest].closer.None? && m.got.Some? && g in c.forwards
    ensures var d, f := Adopt(c, m.guest, m.fid, m.tr, m.got.value.0, m.got.value.1, m.exact).0, c.forwards[g];
            if m.guest == g && c.tr == Some(m.tr) then Became(c, d, g, m.got.value.0, Some(m.got.value.1), f.exact || m.exact)
               else BecameSame(c, d, g)
  {
  }

  lemma DiesBecomes(c: Core, g: nat)
    requires g in c.forwards
    ensures Became(c, OnDead(c), g, c.forwards[g].host, None, c.forwards[g].exact)
    ensures Became(c, Detach(c), g, c.forwards[g].host, None, c.forwards[g].exact)
  {
    var relays := Relays(c);
    DropBecomes(c, c.(up := false, sessions := c.sessions - relays, subs := RemoveAll(c.subs, relays)), ConnOwners(relays), 0, g);
    hide DropOwners, RemoveAll;
  }

  lemma OtherBecomes(w: World, step: Step, g: nat)
    requires Good(w) && Enabled(w, step) && Sound(w)
    requires !step.AddSlot? && !step.AdoptSlot? && !step.BindFails? && !step.DropConf? && !step.ExpireTtl?
    requires !step.Close? && !step.TransportDies? && !step.Shutdown?
    ensures BecameSame(w.core, Apply(w, step).core, g)
  {
    hide Good, RemoveSess;
  }

  lemma DropRecords(w: World, step: Step, g: nat)
    requires Good(w) && Enabled(w, step) && Sound(w)
    requires step.BindFails? || step.DropConf? || step.ExpireTtl? || step.Close?
    ensures BecameSame(w.core, Apply(w, step).core, g)
  {
    var c := w.core;
    hide Good, Became, BecameSame, DropOwners, Expire, BindFailed, Settle, Released, LapsedListeners, RemoveSess;
    match step {
      case BindFails(k, dead) =>
        var m := w.claims[k];
        FailBecomes(c, m, if m.own.Some? then m.own.value else ConfOwner, dead, g);
      case DropConf => DropBecomes(c, c, {ConfOwner}, 0, g);
      case ExpireTtl(now) => DropBecomes(c, c, {}, now, g);
      case Close(s) =>
        DropBecomes(c, c.(sessions := c.sessions - {s}, subs := RemoveSess(c.subs, s), sess := c.sess[s := c.sess[s].(pending := {})]),
                    {ConnOwner(s)}, 0, g);
    }
  }

  /** What a step makes of a record that stays: a port changes only when its bind comes
      back, to the port and the listener bound; a listener goes only with its transport;
      and a record becomes exact only when a bind, or the port it has, honours a request
      for it. */
  ghost predicate Fate(w: World, step: Step, g: nat, d: Core)
    requires g in w.core.forwards
  {
    var c, f := w.core, w.core.forwards[g];
    if Binds(w, step, g) then
      var m := w.claims[step.k];
      Became(c, d, g, m.got.value.0, Some(m.got.value.1), f.exact || m.exact)
    else Became(c, d, g, f.host, if step.TransportDies? || step.Shutdown? then None else f.closer, f.exact || AsksExact(w, step, g))
  }

  lemma FateSame(w: World, step: Step, g: nat, d: Core)
    requires g in w.core.forwards && BecameSame(w.core, d, g)
    requires !step.AddSlot? && !step.AdoptSlot? && !step.TransportDies? && !step.Shutdown?
    ensures Fate(w, step, g, d)
  {
    hide Became;
  }

  lemma FateAdopted(w: World, k: nat, g: nat)
    requires Good(w) && Enabled(w, AdoptSlot(k)) && Sound(w) && g in w.core.forwards
    ensures Fate(w, AdoptSlot(k), g, Apply(w, AdoptSlot(k)).core)
  {
    ClaimIdle(w, k);
    AdoptBecomes(w.core, w.claims[k], g);
    hide Good, Sound, Became, Adopt;
  }

  lemma FateOther(w: World, step: Step, g: nat)
    requires Good(w) && Enabled(w, step) && Sound(w) && g in w.core.forwards
    requires step.AddSlot? || step.TransportDies? || step.Shutdown?
    ensures Fate(w, step, g, Apply(w, step).core)
  {
    hide Good, Sound, Became, Add, OnDead, Detach;
    match step {
      case AddSlot(q) => AddBecomes(w.core, q, g);
      case TransportDies => DiesBecomes(w.core, g);
      case Shutdown => DiesBecomes(w.core, g);
    }
  }

  lemma RecordsExactly(w: World, step: Step, g: nat)
    requires Good(w) && Enabled(w, step) && g in w.core.forwards
    ensures Sound(w) && Fate(w, step, g, Apply(w, step).core)
  {
    GoodSound(w);
    hide *;
    if step.AdoptSlot? {
      FateAdopted(w, step.k, g);
    } else if step.AddSlot? || step.TransportDies? || step.Shutdown? {
      FateOther(w, step, g);
    } else {
      if step.BindFails? || step.DropConf? || step.ExpireTtl? || step.Close? {
        DropRecords(w, step, g);
      } else {
        OtherBecomes(w, step, g);
      }
      FateSame(w, step, g, Apply(w, step).core);
    }
  }

  /** While somebody holds a forward that is live, its listener stays open, at its
      port, until the transport goes: closing one session, or any other step that takes
      somebody else's hold, leaves it where it is. */
  lemma HeldStaysOpen(w: World, step: Step, g: nat, own: Owner)
    requires Good(w) && Enabled(w, step) && own in Holders(w.core, g) && !Takes(w, step, g, own)
    requires w.core.forwards[g].closer.Some? && !step.TransportDies? && !step.Shutdown?
    ensures Sound(w)
    ensures var w', f := Apply(w, step), w.core.forwards[g];
            && own in Holders(w'.core, g) && w'.core.forwards[g].host == f.host && w'.core.forwards[g].closer == f.closer
            && f.closer.value !in w'.closed
  {
    OwnersExactly(w, step, g, own);
    RecordsExactly(w, step, g);
    NotBinding(w, step, g);
    StepKeepsGood(w, step);
    GoodTable(Apply(w, step), g);
    hide Good, Sound, Apply, Enabled, Takes, Gives, Binds;
  }

  lemma NotBinding(w: World, step: Step, g: nat)
    requires Good(w) && g in w.core.forwards && w.core.forwards[g].closer.Some?
    ensures !Binds(w, step, g)
  {
    if Binds(w, step, g) {
      ClaimIdle(w, step.k);
    }
    hide Good;
  }

  lemma GoodTable(w: World, g: nat)
    requires Good(w)
    ensures g in w.core.forwards && w.core.forwards[g].closer.Some? ==> w.core.forwards[g].closer.value !in w.closed
  {
  }

  /** What the binders know of the records they bind: an exact one is bound at its own
      port, and a bind comes back with a port in reach. */
  ghost predicate PortsOk(w: World) { forall k :: k in w.claims ==> PortOk(w, w.claims[k]) }

  ghost predicate PortOk(w: World, m: Claim) {
    m.guest in w.core.forwards ==>
      && (w.core.forwards[m.guest].exact ==> m.exact && m.target == w.core.forwards[m.guest].host)
      && (m.got.Some? ==> InReach(m, m.got.value.0))
  }

  lemma ClaimNumber(w: World, k: nat)
    requires Good(w) && k in w.claims
    ensures k < w.nextClaim
  {
  }

  /** A claim that a step leaves. */
  lemma ClaimStays(w: World, step: Step, k: nat)
    requires Enabled(w, step) && Sound(w) && k in Apply(w, step).claims && k in w.claims && k < w.nextClaim
    ensures !(step.AdoptSlot? && step.k == k)
    ensures Apply(w, step).claims[k] == if step.BindReturns? && step.k == k then w.claims[k].(got := Some((step.host, w.nextListener)))
                                        else w.claims[k]
  {
    hide Add, Adopt, BindFailed, DropOwners, Expire, Remove, Settle, Detach, OnDead, CloseSession, RemoveSess, Released, LapsedListeners, Sound;
  }

  /** A claim that a step makes. */
  lemma ClaimMade(w: World, step: Step, k: nat)
    requires Enabled(w, step) && Sound(w) && k in Apply(w, step).claims && k !in w.claims
    ensures PortOk(Apply(w, step), Apply(w, step).claims[k])
  {
    if step.AddSlot? {
      AddAnswers(w.core, step.q);
    }
    hide Add, Adopt, BindFailed, DropOwners, Expire, Remove, Settle, Detach, OnDead, CloseSession, RemoveSess, Released, LapsedListeners, Sound;
  }

  /** A slot that is being bound is not touched by an add, and by no other bind. */
  lemma OneHand(w: World, step: Step, k: nat)
    requires Good(w) && k in w.claims && !(step.AdoptSlot? && step.k == k)
    ensures !Binds(w, step, w.claims[k].guest) && !AsksExact(w, step, w.claims[k].guest)
  {
    ClaimIdle(w, k);
    hide SubsOk, OwnersOk, ListenersOk, EventsOk;
  }

  lemma ClaimKept(w: World, step: Step, k: nat)
    requires Good(w) && Enabled(w, step) && Sound(w) && PortsOk(w) && k in w.claims && k in Apply(w, step).claims
    ensures PortOk(Apply(w, step), Apply(w, step).claims[k])
  {
    hide Good, Apply, Sound, Binds, AsksExact;
    ClaimNumber(w, k);
    ClaimStays(w, step, k);
    OneHand(w, step, k);
    ClaimIdle(w, k);
    RecordsExactly(w, step, w.claims[k].guest);
    assert step.BindReturns? ==> InReach(w.claims[step.k], step.host);
    assert PortOk(w, w.claims[k]);
    hide Enabled;
  }

  lemma PortsStep(w: World, step: Step)
    requires Good(w) && Enabled(w, step) && PortsOk(w)
    ensures Sound(w) && PortsOk(Apply(w, step))
  {
    hide Good, Apply, Enabled, PortOk, Sound;
    GoodSound(w);
    var w' := Apply(w, step);
    forall k | k in w'.claims ensures PortOk(w', w'.claims[k]) {
      if k in w.claims {
        ClaimKept(w, step, k);
      } else {
        ClaimMade(w, step, k);
      }
    }
  }

  lemma {:induction false} PortsInRuns(tr: nat, steps: seq<Step>)
    requires Possible(tr, steps)
    ensures Good(End(tr, steps)) && PortsOk(End(tr, steps))
  {
    EndGood(tr, steps);
    if steps == [] {
      assert End(tr, steps) == Start(tr);
    } else {
      LastStep(tr, steps);
      PortsInRuns(tr, steps[..|steps| - 1]);
      PortsStep(End(tr, steps[..|steps| - 1]), steps[|steps| - 1]);
      hide *;
    }
  }

  /** Only adds make records. */
  ghost predicate NoneNew(c: Core, d: Core) { d.nextFwd == c.nextFwd && d.forwards.Keys <= c.forwards.Keys }

  lemma BindNoneNew(c: Core, m: Claim, host: int, closer: nat, own: Owner, dead: bool)
    ensures NoneNew(c, Settle(c, m.guest, m.fid))
    ensures NoneNew(c, Adopt(c, m.guest, m.fid, m.tr, host, closer, m.exact).0)
    ensures NoneNew(c, BindFailed(c, m.guest, m.fid, m.tr, own, m.added, dead).0)
  {
  }

  lemma DropNoneNew(c: Core, gone: set<Owner>, now: int, guest: nat, own: Owner, s: nat)
    ensures NoneNew(c, DropOwners(c, gone)) && NoneNew(c, Expire(c, now)) && NoneNew(c, Remove(c, guest, own))
    ensures NoneNew(c, OnDead(c)) && NoneNew(c, Detach(c)) && (s in c.sess ==> NoneNew(c, CloseSession(c, s)))
  {
    hide Relays, Lapsed, RemoveSess, RemoveAll;
  }

  lemma OtherNoneNew(w: World, step: Step)
    requires Enabled(w, step) && Sound(w) && !step.AddSlot?
    ensures NoneNew(w.core, Apply(w, step).core)
  {
    hide NoneNew, Adopt, BindFailed, Settle, DropOwners, Expire, Remove, OnDead, Detach, CloseSession, Released, LapsedListeners, RemoveSess;
    match step {
      case AdoptSlot(k) => BindNoneNew(w.core, w.claims[k], w.claims[k].got.value.0, w.claims[k].got.value.1, ConfOwner, false);
      case BindFails(k, dead) =>
        BindNoneNew(w.core, w.claims[k], 0, 0, if w.claims[k].own.Some? then w.claims[k].own.value else ConfOwner, dead);
      case DropConf => DropNoneNew(w.core, {ConfOwner}, 0, 0, ConfOwner, 0);
      case ExpireTtl(now) => DropNoneNew(w.core, {}, now, 0, ConfOwner, 0);
      case RemoveOwner(guest, own) => DropNoneNew(w.core, {}, 0, guest, own, 0);
      case Close(s) => DropNoneNew(w.core, {}, 0, 0, ConfOwner, s);
      case TransportDies => DropNoneNew(w.core, {}, 0, 0, ConfOwner, 0);
      case Shutdown => DropNoneNew(w.core, {}, 0, 0, ConfOwner, 0);
      case _ => PlainNoneNew(w, step);
    }
  }

  lemma PlainNoneNew(w: World, step: Step)
    requires Enabled(w, step) && Sound(w) && !step.AddSlot?
    requires !step.AdoptSlot? && !step.BindFails? && !step.DropConf? && !step.ExpireTtl? && !step.RemoveOwner?
    requires !step.Close? && !step.TransportDies? && !step.Shutdown?
    ensures NoneNew(w.core, Apply(w, step).core)
  {
    hide RemoveSess;
  }

  lemma NewRecord(w: World, step: Step, g: nat)
    requires Good(w) && Enabled(w, step) && Sound(w)
    ensures var c, d := w.core, Apply(w, step).core;
            c.nextFwd <= d.nextFwd && (g in d.forwards && g !in c.forwards ==> d.forwards[g].id == c.nextFwd < d.nextFwd)
  {
    hide Good, Add;
    if step.AddSlot? {
      AddRecords(w.core, step.q);
      AddAnswers(w.core, step.q);
    } else {
      OtherNoneNew(w, step);
      hide Apply;
    }
  }

  /** The record `fid` is exact at `host`, or gone for good. */
  ghost predicate ExactAt(c: Core, g: nat, fid: nat, host: int) {
    fid < c.nextFwd && (Current(c, g, fid) ==> c.forwards[g].exact && c.forwards[g].host == host)
  }

  lemma ExactStep(w: World, step: Step, g: nat, fid: nat, host: int)
    requires Good(w) && PortsOk(w) && Enabled(w, step) && ExactAt(w.core, g, fid, host)
    ensures Sound(w) && ExactAt(Apply(w, step).core, g, fid, host)
  {
    GoodSound(w);
    NewRecord(w, step, g);
    if g in w.core.forwards {
      RecordsExactly(w, step, g);
      if Binds(w, step, g) {
        assert InReach(w.claims[step.k], w.claims[step.k].got.value.0);
      }
    }
    hide Good, Apply, Enabled, AsksExact;
  }

  lemma ExactNow(w: World, g: nat, fid: nat)
    requires Good(w) && Current(w.core, g, fid) && w.core.forwards[g].exact
    ensures ExactAt(w.core, g, fid, w.core.forwards[g].host)
  {
  }

  lemma {:induction false} ExactAfter(tr: nat, before: seq<Step>, after: seq<Step>, g: nat, fid: nat, host: int)
    requires Possible(tr, before) && Possible(tr, before + after) && ExactAt(End(tr, before).core, g, fid, host)
    ensures ExactAt(End(tr, before + after).core, g, fid, host)
  {
    hide *;
    var n := |after|;
    if n == 0 {
      assert before + after == before;
    } else {
      var steps, less := before + after, before + after[..n - 1];
      assert steps[..|steps| - 1] == less;
      LastStep(tr, steps);
      PortsInRuns(tr, less);
      ExactAfter(tr, before, after[..n - 1], g, fid, host);
      ExactStep(End(tr, less), after[n - 1], g, fid, host);
    }
  }

  /** In every run: a forward that is exact keeps its port for as long as its record is
      in the table, whatever transports die and whatever is bound again. */
  lemma ExactKeepsPort(tr: nat, before: seq<Step>, after: seq<Step>, g: nat)
    requires Possible(tr, before) && Possible(tr, before + after)
    requires g in End(tr, before).core.forwards && End(tr, before).core.forwards[g].exact
    ensures var f, d := End(tr, before).core.forwards[g], End(tr, before + after).core;
            Current(d, g, f.id) ==> d.forwards[g].exact && d.forwards[g].host == f.host
  {
    EndGood(tr, before);
    var w := End(tr, before);
    hide Possible, End, Good;
    ExactNow(w, g, w.core.forwards[g].id);
    ExactAfter(tr, before, after, g, w.core.forwards[g].id, w.core.forwards[g].host);
  }

  /** A daemon with one forward and at most one bind in flight. */
  ghost function One(t: Option<nat>, up: bool, g: nat, f: Fwd, claims: map<nat, Claim>, next: nat, made: map<nat, nat>, dropped: set<nat>,
                     nextTr: nat): World
  {
    World(Core(t, up, map[g := f], map[], {}, [], 0, 0, 1), {}, claims, next, made, |made|, {}, dropped, nextTr, map[], [], {})
  }

  /** The claim a re-bind makes. */
  ghost function RebindClaim(w: World, g: nat): Claim
    requires g in w.core.forwards && w.core.tr.Some?
  {
    Claim(g, w.core.forwards[g].id, w.core.tr.value, None, w.core.forwards[g].host, w.core.forwards[g].exact, false, None)
  }

  lemma RebindStarts(w: World, g: nat)
    requires Enabled(w, Rebind(g)) && Sound(w)
    ensures var v := Apply(w, Rebind(g));
            && v.core == w.core.(forwards := w.core.forwards[g := w.core.forwards[g].(binding := true)])
            && w.nextClaim in v.claims && v.claims[w.nextClaim] == RebindClaim(w, g) && v.nextListener == w.nextListener
  {
  }

  lemma BindGoesOn(w: World, k: nat, host: int)
    requires Enabled(w, BindReturns(k, host)) && Sound(w)
    ensures var v := Apply(w, BindReturns(k, host));
            v.core == w.core && k in v.claims && v.claims[k] == w.claims[k].(got := Some((host, w.nextListener)))
  {
  }

  lemma AdoptEnds(w: World, k: nat)
    requires Enabled(w, AdoptSlot(k)) && Sound(w)
    requires var m := w.claims[k];
             && m.guest in w.core.forwards && w.core.tr == Some(m.tr)
             && var f := w.core.forwards[m.guest];
                f.id == m.fid && f.owners != map[] && f.closer.None? && (m.exact <==> f.exact)
    ensures var m, v := w.claims[k], Apply(w, AdoptSlot(k));
            v.core == w.core.(forwards := w.core.forwards[m.guest := w.core.forwards[m.guest].(binding := false, host := m.got.value.0, closer := Some(m.got.value.1))])
  {
    var m := w.claims[k];
    var d := Settle(w.core, m.guest, m.fid);
    assert d.forwards[m.guest] == w.core.forwards[m.guest].(binding := false);
    var e := Adopt(w.core, m.guest, m.fid, m.tr, m.got.value.0, m.got.value.1, m.exact).0;
    assert e.forwards == w.core.forwards[m.guest := w.core.forwards[m.guest].(binding := false, host := m.got.value.0, closer := Some(m.got.value.1))];
  }

  predicate InReachOf(f: Fwd, host: int) { if f.exact then host == f.host else f.host <= host < f.host + BIND_TRIES }

  lemma BindAllowed(w: World, k: nat, g: nat, u: World, host: int)
    requires g in u.core.forwards && u.core.tr.Some? && InReachOf(u.core.forwards[g], host)
    requires k in w.claims && w.claims[k] == RebindClaim(u, g)
    ensures Enabled(w, BindReturns(k, host))
  {
  }

  lemma AdoptAllowed(w: World, k: nat)
    requires k in w.claims && w.claims[k].got.Some?
    ensures Enabled(w, AdoptSlot(k))
  {
  }

  /** The three steps that bring a forward back. */
  lemma BackSteps(w: World, g: nat, host: int)
    requires Good(w) && Enabled(w, Rebind(g)) && g in w.core.forwards && w.core.tr.Some? && InReachOf(w.core.forwards[g], host)
    requires var f := w.core.forwards[g]; f.owners != map[] && f.closer.None? && !f.binding
    ensures Sound(w)
    ensures var w1 := Apply(w, Rebind(g));
            && Sound(w1) && Enabled(w1, BindReturns(w.nextClaim, host))
            && var w2 := Apply(w1, BindReturns(w.nextClaim, host));
               && Sound(w2) && Enabled(w2, AdoptSlot(w.nextClaim))
               && Apply(w2, AdoptSlot(w.nextClaim)).core.forwards
                  == w.core.forwards[g := w.core.forwards[g].(host := host, closer := Some(w.nextListener))]
  {
    hide Good, Apply, Enabled;
    var f, k := w.core.forwards[g], w.nextClaim;
    StepKeepsGood(w, Rebind(g));
    RebindStarts(w, g);
    var w1 := Apply(w, Rebind(g));
    GoodSound(w1);
    BindAllowed(w1, k, g, w, host);
    StepKeepsGood(w1, BindReturns(k, host));
    BindGoesOn(w1, k, host);
    var w2 := Apply(w1, BindReturns(k, host));
    GoodSound(w2);
    AdoptAllowed(w2, k);
    AdoptEnds(w2, k);
    assert f.(binding := true).(binding := false, host := host, closer := Some(w.nextListener))
           == f.(host := host, closer := Some(w.nextListener));
  }

  /** In every run: while there is a transport, a pending forward that nobody is
      binding can be bound again exactly if somebody other than relays holds it; and
      then it can come back, with all its owners, at its own port if it is exact, and
      else at any port the bind tries. */
  lemma ComesBack(tr: nat, steps: seq<Step>, g: nat, host: int)
    requires Possible(tr, steps)
    requires var c := End(tr, steps).core;
             c.tr.Some? && g in c.forwards && c.forwards[g].closer.None? && !c.forwards[g].binding
    ensures var c := End(tr, steps).core;
            Enabled(End(tr, steps), Rebind(g)) <==>
            exists o :: o in Holders(c, g) && (o.ConnOwner? ==> !Relay(c, o.id))
    ensures var w := End(tr, steps);
            var f, k := w.core.forwards[g], w.nextClaim;
            var more := steps + [Rebind(g)] + [BindReturns(k, host)] + [AdoptSlot(k)];
            Enabled(w, Rebind(g)) && InReachOf(f, host) ==>
              Possible(tr, more) && End(tr, more).core.forwards == w.core.forwards[g := f.(host := host, closer := Some(w.nextListener))]
  {
    var w := End(tr, steps);
    EndGood(tr, steps);
    RebindableExactly(w, g);
    if Enabled(w, Rebind(g)) && InReachOf(w.core.forwards[g], host) {
      BackSteps(w, g, host);
      ThreeMore(tr, steps, Rebind(g), BindReturns(w.nextClaim, host), AdoptSlot(w.nextClaim));
    }
    hide *;
  }

  lemma ThreeMore(tr: nat, steps: seq<Step>, a: Step, b: Step, c: Step)
    requires Possible(tr, steps) && Enabled(End(tr, steps), a) && Sound(End(tr, steps))
    requires var w1 := Apply(End(tr, steps), a);
             && Enabled(w1, b) && Sound(w1)
             && Enabled(Apply(w1, b), c) && Sound(Apply(w1, b))
    ensures var more := steps + [a] + [b] + [c];
            Possible(tr, more) && End(tr, more) == Apply(Apply(Apply(End(tr, steps), a), b), c)
  {
    hide Possible, End, Apply, Enabled, Sound;
    Longer(tr, steps, a);
    Longer(tr, steps + [a], b);
    Longer(tr, steps + [a] + [b], c);
  }

  lemma RebindableExactly(w: World, g: nat)
    requires Good(w) && w.core.tr.Some? && g in w.core.forwards && w.core.forwards[g].closer.None? && !w.core.forwards[g].binding
    ensures w.core.forwards[g].owners != map[]
    ensures Enabled(w, Rebind(g)) <==> exists o :: o in Holders(w.core, g) && (o.ConnOwner? ==> !Relay(w.core, o.id))
  {
    var owners := w.core.forwards[g].owners;
    assert forall s :: ConnOwner(s) in owners ==> s in w.core.sessions;
    assert Holders(w.core, g) == owners;
    if owners != map[] {
      hide SubsOk, OwnersOk, ClaimsOk, ListenersOk, EventsOk, Relay;
    }
  }

  /** The forward as the config file alone holds it. */
  ghost function Conf(host: int, closer: Option<nat>, binding: bool): Fwd { Fwd(0, host, false, closer, binding, map[ConfOwner := 0]) }

  lemma LostClaim(tr: nat, host: int, g: nat)
    ensures var q := AddRequest(host, g, true, ConfOwner, 0, false);
            var w := One(Some(tr), true, g, Conf(host, None, true), map[0 := Claim(g, 0, tr, Some(ConfOwner), host, true, true, None)], 1, map[], {}, tr + 1);
            && Sound(Start(tr)) && Apply(Start(tr), AddSlot(q)) == w && Add(Start(tr).core, q).1.Claimed?
            && Enabled(w, BindFails(0, true)) && Apply(w, BindFails(0, true)) == One(Some(tr), true, g, Conf(host, None, false), map[], 1, map[], {}, tr + 1)
  {
    var w := Start(tr);
    assert w.core.forwards == map[];
    var w1 := One(Some(tr), true, g, Conf(host, None, true), map[0 := Claim(g, 0, tr, Some(ConfOwner), host, true, true, None)], 1, map[], {}, tr + 1);
    assert w1.claims - {0} == map[];
  }

  lemma NothingDropped(c: Core, g: nat)
    requires c.sessions == {} && c.subs == [] && c.forwards.Keys == {g} && c.forwards[g].owners != map[]
    ensures OnDead(c) == c.(up := false, tr := None, forwards := map[g := c.forwards[g].(closer := None)])
  {
    var c1 := c.(up := false);
    assert Relays(c) == {} && ConnOwners({}) == {};
    assert c.forwards[g].owners - {} == c.forwards[g].owners;
    DropOwnersExact(c1, {});
    hide DropOwners;
    assert DropOwners(c1, {}).forwards == c.forwards;
  }

  lemma LostTransport(tr: nat, host: int, g: nat)
    ensures var w := One(Some(tr), true, g, Conf(host, None, false), map[], 1, map[], {}, tr + 1);
            Enabled(w, TransportDies) && Apply(w, TransportDies) == One(None, false, g, Conf(host, None, false), map[], 1, map[], {tr}, tr + 1)
  {
    var w := One(Some(tr), true, g, Conf(host, None, false), map[], 1, map[], {}, tr + 1);
    assert ConfOwner in w.core.forwards[g].owners;
    NothingDropped(w.core, g);
    hide OnDead;
    assert w.dropped + {tr} == {tr};
  }

  lemma LostAgain(tr: nat, host: int, g: nat)
    ensures var v := One(None, false, g, Conf(host, None, false), map[], 1, map[], {tr}, tr + 1);
            && Enabled(v, Restore) && Apply(v, Restore) == One(Some(tr + 1), false, g, Conf(host, None, false), map[], 1, map[], {tr}, tr + 2)
            && var u := Apply(v, Restore);
               Enabled(u, SetUp) && Apply(u, SetUp) == One(Some(tr + 1), true, g, Conf(host, None, false), map[], 1, map[], {tr}, tr + 2)
  {
  }

  lemma LostRebind(tr: nat, host: int, g: nat)
    ensures var w := One(Some(tr + 1), true, g, Conf(host, None, false), map[], 1, map[], {tr}, tr + 2);
            var m := Claim(g, 0, tr + 1, None, host, false, false, None);
            && Enabled(w, Rebind(g)) && Apply(w, Rebind(g)) == One(Some(tr + 1), true, g, Conf(host, None, true), map[1 := m], 2, map[], {tr}, tr + 2)
  {
    assert ConfOwner in Conf(host, None, false).owners;
  }

  lemma LostBind(tr: nat, host: int, g: nat)
    ensures var m := Claim(g, 0, tr + 1, None, host, false, false, None);
            var v := One(Some(tr + 1), true, g, Conf(host, None, true), map[1 := m], 2, map[], {tr}, tr + 2);
            var u := One(Some(tr + 1), true, g, Conf(host, None, true), map[1 := m.(got := Some((host + 1, 0)))], 2, map[0 := tr + 1], {tr}, tr + 2);
            && Enabled(v, BindReturns(1, host + 1)) && Apply(v, BindReturns(1, host + 1)) == u
            && Enabled(u, AdoptSlot(1)) && Apply(u, AdoptSlot(1)).core.forwards == map[g := Conf(host + 1, Some(0), false)]
  {
  }

  /** A request for an exact port that was claimed, but whose transport died under the
      bind, leaves a record that is not exact: the forward can come up elsewhere. */
  lemma ExactLost(tr: nat, host: int, guest: nat)
    ensures var q := AddRequest(host, guest, true, ConfOwner, 0, false);
            var steps := [AddSlot(q)] + [BindFails(0, true)] + [TransportDies] + [Restore] + [SetUp]
                         + [Rebind(guest)] + [BindReturns(1, host + 1)] + [AdoptSlot(1)];
            && Possible(tr, steps) && Add(Start(tr).core, q).1.Claimed?
            && var c := End(tr, steps).core;
               ConfOwner in Holders(c, guest) && guest in c.forwards && c.forwards[guest].host == host + 1 && c.forwards[guest].closer.Some?
  {
    var q := AddRequest(host, guest, true, ConfOwner, 0, false);
    var none: seq<Step> := [];
    LostStart(tr, q);
    LostClaim(tr, host, guest);
    LostTransport(tr, host, guest);
    LostAgain(tr, host, guest);
    LostRebind(tr, host, guest);
    LostBind(tr, host, guest);
    hide *;
    assert none + [AddSlot(q)] == [AddSlot(q)];
    Longer(tr, none, AddSlot(q));
    Longer(tr, [AddSlot(q)], BindFails(0, true));
    var s := [AddSlot(q)] + [BindFails(0, true)];
    Longer(tr, s, TransportDies);
    Longer(tr, s + [TransportDies], Restore);
    Longer(tr, s + [TransportDies] + [Restore], SetUp);
    var t := s + [TransportDies] + [Restore] + [SetUp];
    Longer(tr, t, Rebind(guest));
    Longer(tr, t + [Rebind(guest)], BindReturns(1, host + 1));
    Longer(tr, t + [Rebind(guest)] + [BindReturns(1, host + 1)], AdoptSlot(1));
    LostEnd(End(tr, t + [Rebind(guest)] + [BindReturns(1, host + 1)] + [AdoptSlot(1)]).core, guest, host + 1);
  }

  lemma LostStart(tr: nat, q: AddRequest)
    ensures Possible(tr, []) && End(tr, []) == Start(tr) && Enabled(Start(tr), AddSlot(q))
  {
  }

  lemma LostEnd(c: Core, g: nat, host: int)
    requires c.forwards == map[g := Conf(host, Some(0), false)]
    ensures ConfOwner in Holders(c, g) && g in c.forwards && c.forwards[g].host == host && c.forwards[g].closer.Some?
  {
  }

  // ---------------------------------------------------------------------
  // Sessions, subscribers and events
  // ---------------------------------------------------------------------

  /** A step that changes nothing of the daemon's state but the table of forwards. */
  ghost predicate TableStep(step: Step) {
    || step.AddSlot? || step.AdoptSlot? || step.BindFails? || step.DropConf? || step.ExpireTtl? || step.RemoveOwner? || step.Rebind?
  }

  lemma BindTable(c: Core, m: Claim, host: int, closer: nat, own: Owner, dead: bool)
    ensures var d := Settle(c, m.guest, m.fid); d == c.(forwards := d.forwards)
    ensures var d := Adopt(c, m.guest, m.fid, m.tr, host, closer, m.exact).0; d == c.(forwards := d.forwards)
    ensures var d := BindFailed(c, m.guest, m.fid, m.tr, own, m.added, dead).0; d == c.(forwards := d.forwards)
  {
  }

  ghost predicate OnlyTable(w: World, w': World) {
    w'.core == w.core.(forwards := w'.core.forwards, nextFwd := w'.core.nextFwd) && w'.sending == w.sending
  }

  lemma BindOnly(w: World, step: Step)
    requires Enabled(w, step) && Sound(w) && (step.AdoptSlot? || step.BindFails?)
    ensures OnlyTable(w, Apply(w, step))
  {
    hide Adopt, BindFailed, Settle, Sound;
    match step {
      case AdoptSlot(k) => BindTable(w.core, w.claims[k], w.claims[k].got.value.0, w.claims[k].got.value.1, ConfOwner, false);
      case BindFails(k, dead) =>
        BindTable(w.core, w.claims[k], 0, 0, if w.claims[k].own.Some? then w.claims[k].own.value else ConfOwner, dead);
    }
  }

  lemma TableOnly(w: World, step: Step)
    requires Enabled(w, step) && Sound(w) && TableStep(step)
    ensures OnlyTable(w, Apply(w, step))
  {
    if step.AdoptSlot? || step.BindFails? {
      hide *;
      BindOnly(w, step);
    } else {
      hide Add, DropOwners, Expire, Released, LapsedListeners, Without, Sound;
      match step {
        case AddSlot(q) => AddRecords(w.core, q);
        case DropConf => DropOwnersExact(w.core, {ConfOwner});
        case ExpireTtl(now) => ExpireExact(w.core, now);
        case _ =>
      }
    }
  }

  /** The step ends the registration of session `s`. */
  ghost predicate Ends(w: World, step: Step, s: nat) { step == Close(s) || (step.TransportDies? && Relay(w.core, s)) }

  /** The step opens session `s`: a relay only while the transport is up. */
  ghost predicate Opens(w: World, step: Step, s: nat) {
    step.Open? && s == w.core.nextConn + 1 && (step.relay ==> w.core.up && w.core.tr.Some?)
  }

  /** Who is registered and subscribed after a step. */
  ghost predicate Attends(w: World, step: Step, s: nat, d: Core) {
    var c := w.core;
    && (s in d.sessions <==> (s in c.sessions && !Ends(w, step, s)) || Opens(w, step, s))
    && (s in d.subs <==> (s in c.subs && step != Unsub(s) && step != Close(s) && !(step.TransportDies? && s in c.sessions && Relay(c, s)))
                         || step == Sub(s))
    && (Opens(w, step, s) ==> s !in c.sess && s !in c.sessions && s in d.sess && d.sess[s] == Sess(step.relay, {}))
  }

  lemma SameAttends(w: World, step: Step, s: nat, w': World)
    requires !SessionStep(step) && SessionsSame(w, w')
    ensures Attends(w, step, s, w'.core)
  {
  }

  lemma SubAttends(w: World, step: Step, s: nat)
    requires Enabled(w, step) && Sound(w) && (step.Sub? || step.Unsub? || step.Close?)
    ensures Attends(w, step, s, Apply(w, step).core)
  {
    hide RemoveSess, Sound, Released, Without;
    RemoveSessExact(w.core.subs, step.s);
  }

  lemma OpenAttends(w: World, step: Step, s: nat)
    requires Enabled(w, step) && Sound(w) && step.Open?
    requires w.core.sessions <= w.core.sess.Keys && forall t :: t in w.core.sess ==> t <= w.core.nextConn
    ensures Attends(w, step, s, Apply(w, step).core)
  {
    hide Sound;
  }

  lemma SessionAttends(w: World, step: Step, s: nat)
    requires OwnersOk(w.core) && Enabled(w, step) && Sound(w) && SessionStep(step)
    ensures Attends(w, step, s, Apply(w, step).core)
  {
    var c := w.core;
    assert c.sessions <= c.sess.Keys && forall t :: t in c.sess ==> t <= c.nextConn;
    hide OwnersOk, Sound, Attends, OnDead, Enabled;
    match step {
      case Open(_) => OpenAttends(w, step, s);
      case TransportDies => DeadStep(w, s);
      case _ => SubAttends(w, step, s);
    }
  }

  lemma DeadStep(w: World, s: nat)
    requires Enabled(w, TransportDies) && Sound(w)
    ensures Attends(w, TransportDies, s, Apply(w, TransportDies).core)
  {
    hide OnDead, Attends;
    DeadAttends(w, s);
  }

  lemma DeadAttends(w: World, s: nat)
    ensures Attends(w, TransportDies, s, OnDead(w.core))
  {
    RemoveAllExact(w.core.subs, Relays(w.core));
    hide DropOwners, RemoveAll;
    var c, relays := w.core, Relays(w.core);
    DropOwnersExact(c.(up := false, sessions := c.sessions - relays, subs := RemoveAll(c.subs, relays)), ConnOwners(relays));
  }

  /** A session is registered from its opening until it is closed, or is a relay whose
      transport dies; it is subscribed from its last subscribe until it unsubscribes, is
      closed, or dies while registered; and its number was nobody's before. */
  lemma SessionsExactly(w: World, step: Step, s: nat)
    requires Good(w) && Enabled(w, step)
    ensures Sound(w) && Attends(w, step, s, Apply(w, step).core)
  {
    GoodSound(w);
    hide Apply, Enabled, Attends, SubsOk, OwnersOk, ClaimsOk, ListenersOk, EventsOk, Sound;
    if SessionStep(step) {
      SessionAttends(w, step, s);
    } else {
      OtherStepsKeepSessions(w, step);
      SameAttends(w, step, s, Apply(w, step));
    }
  }

  /** The step gives up waiting for event `id` of session `s`, or answers it. */
  ghost predicate Settles(w: World, step: Step, s: nat, id: nat) {
    step == Close(s) || (step.RouteReply? && step.s == s && step.id == id)
    || (step.EndDelivery? && step.id == id && id in w.deliveries && w.deliveries[id].s == s)
  }

  ghost predicate Awaited(w: World, step: Step, s: nat, id: nat, w': World)
    requires s in w.core.sess
  {
    && s in w'.core.sess
    && (id in w'.core.sess[s].pending <==>
          (id in w.core.sess[s].pending && !Settles(w, step, s, id))
          || (step == Deliver(s) && s in w.core.sessions && id == w.core.nextEvent + 1))
  }

  lemma DropAwaited(w: World, step: Step, s: nat, id: nat)
    requires Good(w) && Enabled(w, step) && Sound(w) && s in w.core.sess && (step.Close? || step.TransportDies? || step.Shutdown?)
    ensures Awaited(w, step, s, id, Apply(w, step))
  {
    hide Good, RemoveSess, RemoveAll, Released, Relays;
  }

  lemma PlainAwaited(w: World, step: Step, s: nat, id: nat)
    requires Good(w) && Enabled(w, step) && Sound(w) && s in w.core.sess
    requires !TableStep(step) && !step.Close? && !step.TransportDies? && !step.Shutdown?
    ensures Awaited(w, step, s, id, Apply(w, step))
  {
    hide ClaimsOk, ListenersOk, EventsOk, RemoveSess;
  }

  lemma TableAwaited(w: World, step: Step, s: nat, id: nat, w': World)
    requires s in w.core.sess && TableStep(step) && w'.core.sess == w.core.sess
    ensures Awaited(w, step, s, id, w')
  {
  }

  lemma OnlyTableSess(w: World, w': World)
    requires OnlyTable(w, w')
    ensures w'.core.sess == w.core.sess
  {
  }

  lemma ReplySent(w: World, step: Step)
    requires Enabled(w, step) && Sound(w) && step.RouteReply?
    ensures step.s in w.core.sess
    ensures Apply(w, step).sending == w.sending + if step.id in w.core.sess[step.s].pending then [Sending(step.id, step.data)] else []
  {
    assert w.sending + [] == w.sending;
  }

  /** An event is awaited from a session from its delivery, to a registered one, until
      it is answered, given up, or the session closes; and the answer that finds it
      awaited, and no other, goes on its way to the delivery. */
  lemma AwaitedExactly(w: World, step: Step, s: nat, id: nat)
    requires Good(w) && Enabled(w, step) && s in w.core.sess
    ensures Sound(w) && Awaited(w, step, s, id, Apply(w, step))
    ensures step.RouteReply? ==>
              step.s in w.core.sess
              && Apply(w, step).sending == w.sending + if step.id in w.core.sess[step.s].pending then [Sending(step.id, step.data)] else []
  {
    GoodSound(w);
    hide *;
    if step.RouteReply? {
      ReplySent(w, step);
    }
    if TableStep(step) {
      TableOnly(w, step);
      OnlyTableSess(w, Apply(w, step));
      TableAwaited(w, step, s, id, Apply(w, step));
    } else if step.Close? || step.TransportDies? || step.Shutdown? {
      DropAwaited(w, step, s, id);
    } else {
      PlainAwaited(w, step, s, id);
    }
  }

  ghost predicate RelaysUp(c: Core) { forall s :: s in c.sessions && Relay(c, s) ==> c.up }

  lemma RelaysUpStep(w: World, step: Step)
    requires Good(w) && Enabled(w, step) && RelaysUp(w.core)
    ensures Sound(w) && RelaysUp(Apply(w, step).core)
  {
    GoodSound(w);
    if TableStep(step) {
      TableOnly(w, step);
      hide Apply, Good;
    } else if step.TransportDies? {
      NoRelays(w.core);
      hide Good, OnDead, RelaysUp;
    } else {
      hide Good, OnDead, Detach, DropOwners, RemoveSess, RemoveAll, Released;
    }
  }

  lemma NoRelays(c: Core)
    ensures RelaysUp(OnDead(c))
  {
    var relays := Relays(c);
    DropOwnersExact(c.(up := false, sessions := c.sessions - relays, subs := RemoveAll(c.subs, relays)), ConnOwners(relays));
    hide DropOwners, RemoveAll;
  }

  /** In every run: while a relay is registered the daemon has not seen its transport
      die. */
  lemma {:induction false} RelaysOnlyUp(tr: nat, steps: seq<Step>)
    requires Possible(tr, steps)
    ensures RelaysUp(End(tr, steps).core)
  {
    if steps == [] {
      assert End(tr, steps) == Start(tr);
    } else {
      LastStep(tr, steps);
      EndGood(tr, steps[..|steps| - 1]);
      hide *;
      RelaysOnlyUp(tr, steps[..|steps| - 1]);
      RelaysUpStep(End(tr, steps[..|steps| - 1]), steps[|steps| - 1]);
    }
  }

  // ---------------------------------------------------------------------
  // The transport
  // ---------------------------------------------------------------------

  /** What a step does to the transport and the state. */
  ghost predicate Carries(w: World, step: Step, d: Core) {
    && (d.up <==> step.SetUp? || (w.core.up && !step.TransportDies?))
    && d.tr == if step.TransportDies? || step.Shutdown? then None else if step.Restore? then Some(w.nextTr) else w.core.tr
  }

  lemma DeadCarries(c: Core)
    ensures !OnDead(c).up && OnDead(c).tr == None
  {
    var relays := Relays(c);
    DropOwnersExact(c.(up := false, sessions := c.sessions - relays, subs := RemoveAll(c.subs, relays)), ConnOwners(relays));
    hide DropOwners, RemoveAll, Relays;
  }

  lemma ClosedCarries(c: Core, s: nat)
    requires s in c.sess
    ensures CloseSession(c, s).up == c.up && CloseSession(c, s).tr == c.tr
  {
    DropOwnersExact(c.(sessions := c.sessions - {s}, subs := RemoveSess(c.subs, s), sess := c.sess[s := c.sess[s].(pending := {})]),
                    {ConnOwner(s)});
    hide DropOwners, RemoveSess;
  }

  lemma SessionCarries(w: World, step: Step)
    requires Sound(w) && Enabled(w, step) && SessionStep(step)
    ensures Carries(w, step, Apply(w, step).core)
  {
    hide OnDead, CloseSession, RemoveSess, Released;
    match step {
      case Close(s) => ClosedCarries(w.core, s);
      case TransportDies => DeadCarries(w.core);
      case _ =>
    }
  }

  lemma PlainCarries(w: World, step: Step)
    requires Sound(w) && Enabled(w, step) && !TableStep(step) && !SessionStep(step)
    ensures Carries(w, step, Apply(w, step).core)
  {
    hide Sound;
  }

  lemma TableCarries(w: World, step: Step)
    requires Sound(w) && Enabled(w, step) && TableStep(step)
    ensures Carries(w, step, Apply(w, step).core)
  {
    TableOnly(w, step);
    hide Apply, Sound;
  }

  lemma CarriesStep(w: World, step: Step)
    requires Good(w) && Enabled(w, step)
    ensures Sound(w) && Carries(w, step, Apply(w, step).core)
  {
    hide Apply, Good, Enabled, Carries, TableStep, SessionStep;
    GoodSound(w);
    if TableStep(step) {
      TableCarries(w, step);
    } else if SessionStep(step) {
      SessionCarries(w, step);
    } else {
      PlainCarries(w, step);
    }
  }

  /** The transport came up again after every time it died. */
  ghost predicate CameUp(steps: seq<Step>) {
    forall i :: 0 <= i < |steps| && steps[i].TransportDies? ==> exists j :: i < j < |steps| && steps[j].SetUp?
  }

  lemma CameUpNext(before: seq<Step>, step: Step)
    ensures CameUp(before + [step]) <==> step.SetUp? || (CameUp(before) && !step.TransportDies?)
  {
    var steps, n := before + [step], |before|;
    assert steps[n] == step && forall i :: 0 <= i < n ==> steps[i] == before[i];
    if CameUp(steps) && !step.SetUp? {
      forall i | 0 <= i < n && before[i].TransportDies? ensures exists j :: i < j < n && before[j].SetUp? {
        assert steps[i].TransportDies?;
        var j :| i < j < |steps| && steps[j].SetUp?;
        assert before[j].SetUp?;
      }
    }
    if CameUp(before) && !step.TransportDies? {
      forall i | 0 <= i < |steps| && steps[i].TransportDies? ensures exists j :: i < j < |steps| && steps[j].SetUp? {
        var j :| i < j < n && before[j].SetUp?;
        assert steps[j].SetUp?;
      }
    }
  }

  /** In every run the daemon takes itself to be up exactly if its transport never
      died, or was set up again after it last did. */
  lemma {:induction false} UpExactly(tr: nat, steps: seq<Step>)
    requires Possible(tr, steps)
    ensures End(tr, steps).core.up <==> CameUp(steps)
  {
    if steps == [] {
      assert End(tr, steps) == Start(tr);
    } else {
      var before, step := steps[..|steps| - 1], steps[|steps| - 1];
      LastStep(tr, steps);
      EndGood(tr, before);
      UpExactly(tr, before);
      CarriesStep(End(tr, before), step);
      CameUpNext(before, step);
      assert steps == before + [step];
      hide Possible, End, Apply, Enabled, Good, Sound, CameUp;
    }
  }

  /** What a failed bind answers: pending exactly if the record is there still, not bound
      by anybody else, and the transport died under it; then everybody who holds it
      keeps it. Else the add that made the claim has left nothing of its own. */
  lemma BindFailAnswers(c: Core, guest: nat, fid: nat, tr: nat, own: Owner, added: bool, dead: bool)
    ensures var (d, pending) := BindFailed(c, guest, fid, tr, own, added, dead);
            var mine := Current(c, guest, fid) && c.forwards[guest].closer.None?;
            && (pending <==> mine && c.forwards[guest].owners != map[] && (c.tr != Some(tr) || !c.up || dead))
            && (pending ==> guest in d.forwards && d.forwards[guest] == c.forwards[guest].(binding := false))
            && (mine && !pending && added ==> own !in Holders(d, guest))
  {
  }
}
