/** Every interleaving of the daemon's goroutines, as runs of critical sections:
    session readers and workers, binds in flight, event deliveries, the loop that
    sees a transport die and come back, and the expiry ticker. */
module DaemonRuns {
  import opened Wrappers
  import opened Daemon

  /** A binder between its two critical sections: the slot it claimed, the
      transport it binds on, the port it tries first or alone, and, once the bind
      returned, the listener. `own` is None for a re-bind. */
  datatype Claim = Claim(guest: nat, fid: nat, tr: nat, own: Option<Owner>, target: int, exact: bool, added: bool,
                         got: Option<(int, nat)>)

  const BIND_TRIES: nat := 20

  /** The ports a bind may come back with. */
  predicate InReach(m: Claim, host: int) { if m.exact then host == m.target else m.target <= host < m.target + BIND_TRIES }

  /** One event sent to a session: what its buffered channel holds, and what the
      waiting delivery returned. */
  datatype Delivery = Delivery(s: nat, chan: seq<string>, received: Option<string>)

  /** A reply taken out of `pending` and not yet put on the channel. */
  datatype Sending = Sending(id: nat, data: string)

  /** The core, and what its goroutines hold. `live` are the sessions whose
      closeSession has not run. `made` tells on which transport each listener was
      bound; `closed` are the ones closed one by one, `dropped` the transports
      closed with everything on them. `replies` logs what each session answered. */
  datatype World = World(
    core: Core,
    live: set<nat>,
    claims: map<nat, Claim>, nextClaim: nat,
    made: map<nat, nat>, nextListener: nat, closed: set<nat>, dropped: set<nat>, nextTr: nat,
    deliveries: map<nat, Delivery>, sending: seq<Sending>, replies: set<(nat, nat, string)>)

  /** One critical section, or one thing done between two of them. rebindPending
      claims its whole batch at once; here the claims are steps of their own, which
      allows every run the source has, and more. */
  datatype Step =
    | Open(relay: bool)
    | Sub(s: nat)
    | Unsub(s: nat)
    | Close(s: nat)
    | AddSlot(q: AddRequest)
    | BindReturns(k: nat, host: int)
    | AdoptSlot(k: nat)
    | BindFails(k: nat, dead: bool)
    | RemoveOwner(guest: nat, own: Owner)
    | DropConf
    | ExpireTtl(now: int)
    | TransportDies
    | Shutdown
    | Restore
    | SetUp
    | Rebind(g: nat)
    | Deliver(s: nat)
    | RouteReply(s: nat, id: nat, data: string)
    | Send(i: nat)
    | Receive(id: nat)
    | EndDelivery(id: nat)

  ghost predicate Enabled(w: World, step: Step) {
    match step
    case Sub(s) => s in w.live
    case Unsub(s) => s in w.live
    case Close(s) => s in w.live
    case BindReturns(k, host) => k in w.claims && w.claims[k].got.None? && InReach(w.claims[k], host)
    case AdoptSlot(k) => k in w.claims && w.claims[k].got.Some?
    case BindFails(k, _) => k in w.claims && w.claims[k].got.None?
    case TransportDies => w.core.tr.Some?
    case Restore => w.core.tr.None?
    case SetUp => w.core.tr.Some?
    case Rebind(g) => w.core.tr.Some? && Rebindable(w.core, g)
    case RouteReply(s, _, _) => s in w.live
    case Send(i) => i < |w.sending|
    case Receive(id) => id in w.deliveries && w.deliveries[id].chan != [] && w.deliveries[id].received.None?
    case EndDelivery(id) => id in w.deliveries
    case _ => true
  }

  ghost function Apply(w: World, step: Step): World
    requires Enabled(w, step) && w.live <= w.core.sess.Keys
    requires forall id :: id in w.deliveries ==> w.deliveries[id].s in w.core.sess
    requires forall x :: x in w.sending ==> x.id in w.deliveries
  {
    match step
    case Open(relay) =>
      var (c, s) := OpenSession(w.core, relay);
      w.(core := c, live := if s.Some? then w.live + {s.value} else w.live)
    case Sub(s) => w.(core := Subscribe(w.core, s))
    case Unsub(s) => w.(core := Unsubscribe(w.core, s))
    case Close(s) =>
      w.(core := CloseSession(w.core, s), live := w.live - {s}, closed := w.closed + Released(w.core, {ConnOwner(s)}))
    case AddSlot(q) =>
      var (c, out) := Add(w.core, q);
      if out.Claimed? then
        w.(core := c, nextClaim := w.nextClaim + 1,
           claims := w.claims[w.nextClaim := Claim(q.guest, out.fid, out.tr, Some(q.own), out.target, out.exact, out.added, None)])
      else w.(core := c)
    case BindReturns(k, host) =>
      var l := w.nextListener;
      w.(made := w.made[l := w.claims[k].tr], nextListener := l + 1, claims := w.claims[k := w.claims[k].(got := Some((host, l)))])
    case AdoptSlot(k) =>
      var m := w.claims[k];
      var (c, kept) := Adopt(w.core, m.guest, m.fid, m.tr, m.got.value.0, m.got.value.1, m.exact);
      w.(core := c, claims := w.claims - {k}, closed := if kept then w.closed else w.closed + {m.got.value.1})
    case BindFails(k, dead) =>
      var m := w.claims[k];
      w.(claims := w.claims - {k},
         core := if m.own.None? then Settle(w.core, m.guest, m.fid)
                 else BindFailed(w.core, m.guest, m.fid, m.tr, m.own.value, m.added, dead).0)
    case RemoveOwner(guest, own) =>
      w.(core := Remove(w.core, guest, own),
         closed := if guest in w.core.forwards && Without(w.core.forwards[guest], {own}).None?
                      && w.core.forwards[guest].closer.Some?
                   then w.closed + {w.core.forwards[guest].closer.value} else w.closed)
    case DropConf => w.(core := DropOwners(w.core, {ConfOwner}), closed := w.closed + Released(w.core, {ConfOwner}))
    case ExpireTtl(now) => w.(core := Expire(w.core, now), closed := w.closed + LapsedListeners(w.core, now))
    case TransportDies => w.(core := OnDead(w.core), dropped := w.dropped + {w.core.tr.value})
    case Shutdown =>
      w.(core := Detach(w.core), dropped := if w.core.tr.Some? then w.dropped + {w.core.tr.value} else w.dropped)
    case Restore => w.(core := w.core.(tr := Some(w.nextTr)), nextTr := w.nextTr + 1)
    case SetUp => w.(core := w.core.(up := true))
    case Rebind(g) =>
      var f := w.core.forwards[g];
      w.(core := ClaimSlot(w.core, g), nextClaim := w.nextClaim + 1,
         claims := w.claims[w.nextClaim := Claim(g, f.id, w.core.tr.value, None, f.host, f.exact, false, None)])
    case Deliver(s) =>
      var (c, id) := BeginDelivery(w.core, s);
      w.(core := c, deliveries := if id.Some? then w.deliveries[id.value := Delivery(s, [], None)] else w.deliveries)
    case RouteReply(s, id, data) =>
      var (c, awaited) := TakePending(w.core, s, id);
      w.(core := c, replies := w.replies + {(s, id, data)},
         sending := if awaited then w.sending + [Sending(id, data)] else w.sending)
    case Send(i) =>
      var x := w.sending[i];
      w.(sending := w.sending[..i] + w.sending[i + 1..],
         deliveries := w.deliveries[x.id := w.deliveries[x.id].(chan := w.deliveries[x.id].chan + [x.data])])
    case Receive(id) =>
      var d := w.deliveries[id];
      w.(deliveries := w.deliveries[id := d.(chan := d.chan[1..], received := Some(d.chan[0]))])
    case EndDelivery(id) => w.(core := TakePending(w.core, w.deliveries[id].s, id).0)
  }

  ghost function LapsedListeners(c: Core, now: int): set<nat> {
    set g | g in c.forwards && Without(c.forwards[g], Lapsed(c.forwards[g], now)).None? && c.forwards[g].closer.Some?
      :: c.forwards[g].closer.value
  }

  // ---------------------------------------------------------------------
  // Sessions
  // ---------------------------------------------------------------------

  ghost function Start(tr: nat): World {
    World(Core(Some(tr), true, map[], map[], {}, [], 0, 0, 0), {}, map[], 0, map[], 0, {}, {}, tr + 1, map[], [], {})
  }

  /** Owners and registrations agree, and so do forwards and their owners. */
  ghost predicate OwnersOk(c: Core) {
    && c.sessions <= c.sess.Keys
    && (forall s :: s in c.sess ==> s <= c.nextConn)
    && (forall g, s :: g in c.forwards && ConnOwner(s) in c.forwards[g].owners ==> s in c.sessions)
    && (forall g :: g in c.forwards && c.forwards[g].owners == map[] ==> c.forwards[g].binding)
    && (forall g :: g in c.forwards && c.forwards[g].binding ==> c.forwards[g].closer.None?)
    && (forall g, h :: g in c.forwards && h in c.forwards && g != h ==> c.forwards[g].id != c.forwards[h].id)
    && (forall g :: g in c.forwards ==> c.forwards[g].id < c.nextFwd)
  }

  ghost predicate NoRepeats(list: seq<nat>) {
    forall i, j :: 0 <= i < j < |list| ==> list[i] != list[j]
  }

  /** Who may be subscribed: a session that is still being served, and if it is
      not registered any more, a relay that a dying transport took off the list. */
  ghost predicate SubsOk(w: World) {
    && w.live <= w.core.sess.Keys
    && w.core.sessions <= w.live
    && NoRepeats(w.core.subs)
    && (forall s :: s in w.core.subs ==> s in w.live)
    && (forall s :: s in w.live && s !in w.core.sessions ==> Relay(w.core, s))
  }

  lemma {:induction false} RemoveSessExact(list: seq<nat>, s: nat)
    ensures forall x :: x in RemoveSess(list, s) <==> x in list && x != s
    ensures NoRepeats(list) ==> NoRepeats(RemoveSess(list, s))
  {
    if list != [] {
      RemoveSessExact(list[1..], s);
      var rest := RemoveSess(list[1..], s);
      assert NoRepeats(list) ==> NoRepeats(list[1..]) && list[0] !in list[1..];
      if NoRepeats(list) && list[0] != s {
        assert NoRepeats([list[0]] + rest) by {
          forall i, j | 0 <= i < j < |[list[0]] + rest| ensures ([list[0]] + rest)[i] != ([list[0]] + rest)[j] {
            assert ([list[0]] + rest)[j] == rest[j - 1];
            assert rest[j - 1] in rest;
          }
        }
      }
    }
  }

  lemma {:induction false} RemoveAllExact(list: seq<nat>, gone: set<nat>)
    ensures forall x :: x in RemoveAll(list, gone) <==> x in list && x !in gone
    ensures NoRepeats(list) ==> NoRepeats(RemoveAll(list, gone))
  {
    if list != [] {
      RemoveAllExact(list[1..], gone);
      var rest := RemoveAll(list[1..], gone);
      assert NoRepeats(list) ==> NoRepeats(list[1..]) && list[0] !in list[1..];
      if NoRepeats(list) && list[0] !in gone {
        assert NoRepeats([list[0]] + rest) by {
          forall i, j | 0 <= i < j < |[list[0]] + rest| ensures ([list[0]] + rest)[i] != ([list[0]] + rest)[j] {
            assert ([list[0]] + rest)[j] == rest[j - 1];
            assert rest[j - 1] in rest;
          }
        }
      }
    }
  }

  lemma DropOwnersExact(c: Core, gone: set<Owner>)
    ensures var d := DropOwners(c, gone);
            && d == c.(forwards := d.forwards)
            && (forall g :: g in d.forwards ==>
                  g in c.forwards && d.forwards[g] == c.forwards[g].(owners := c.forwards[g].owners - gone)
                  && (d.forwards[g].owners == map[] ==> c.forwards[g].binding))
            && (forall g :: g in c.forwards && g !in d.forwards ==>
                  !c.forwards[g].binding && c.forwards[g].owners - gone == map[])
  {
  }

  lemma ExpireExact(c: Core, now: int)
    ensures var d := Expire(c, now);
            && d == c.(forwards := d.forwards)
            && (forall g :: g in d.forwards ==>
                  g in c.forwards && d.forwards[g] == c.forwards[g].(owners := c.forwards[g].owners - Lapsed(c.forwards[g], now))
                  && (d.forwards[g].owners == map[] ==> c.forwards[g].binding))
            && (forall g :: g in c.forwards && g !in d.forwards ==>
                  !c.forwards[g].binding && c.forwards[g].owners - Lapsed(c.forwards[g], now) == map[])
  {
  }

  /** An operation that touches no session. */
  ghost predicate OnlyForwards(c: Core, d: Core) {
    d == c.(forwards := d.forwards, nextFwd := d.nextFwd, up := d.up, tr := d.tr)
  }

  lemma AddOnlyForwards(c: Core, q: AddRequest)
    ensures OnlyForwards(c, Add(c, q).0)
  {
    hide HeldPorts, AddOwner;
  }

  lemma ForwardOps(c: Core, m: Claim, host: int, closer: nat, own: Owner, dead: bool)
    ensures OnlyForwards(c, Adopt(c, m.guest, m.fid, m.tr, host, closer, m.exact).0)
    ensures OnlyForwards(c, BindFailed(c, m.guest, m.fid, m.tr, own, m.added, dead).0)
    ensures OnlyForwards(c, Settle(c, m.guest, m.fid))
  {
  }

  /** Steps that change nothing about who is registered, served or subscribed. */
  ghost predicate SessionsSame(w: World, w': World) {
    && w'.live == w.live && w'.core.sessions == w.core.sessions && w'.core.subs == w.core.subs
    && w'.core.sess.Keys == w.core.sess.Keys && w'.core.nextConn == w.core.nextConn
    && forall s :: s in w.core.sess ==> w'.core.sess[s].relay == w.core.sess[s].relay
  }

  /** Apply is defined at `w`. */
  ghost predicate Sound(w: World) {
    && w.live <= w.core.sess.Keys
    && (forall id :: id in w.deliveries ==> w.deliveries[id].s in w.core.sess)
    && (forall x :: x in w.sending ==> x.id in w.deliveries)
  }

  ghost predicate SessionStep(step: Step) { step.Open? || step.Sub? || step.Unsub? || step.Close? || step.TransportDies? }

  lemma ForwardStepsKeepSessions(w: World, step: Step)
    requires Enabled(w, step) && Sound(w)
    requires step.AddSlot? || step.AdoptSlot? || step.BindFails? || step.DropConf? || step.ExpireTtl?
    ensures SessionsSame(w, Apply(w, step))
  {
    hide Add, Adopt, BindFailed, Settle, DropOwners, Expire, Released, LapsedListeners, Without;
    match step {
      case AddSlot(q) => AddOnlyForwards(w.core, q);
      case AdoptSlot(k) => ForwardOps(w.core, w.claims[k], w.claims[k].got.value.0, w.claims[k].got.value.1, ConfOwner, false);
      case BindFails(k, dead) =>
        ForwardOps(w.core, w.claims[k], 0, 0, if w.claims[k].own.Some? then w.claims[k].own.value else ConfOwner, dead);
      case DropConf => DropOwnersExact(w.core, {ConfOwner});
      case ExpireTtl(now) => ExpireExact(w.core, now);
    }
  }

  lemma OtherStepsKeepSessions(w: World, step: Step)
    requires Enabled(w, step) && Sound(w) && !SessionStep(step)
    ensures SessionsSame(w, Apply(w, step))
  {
    if step.AddSlot? || step.AdoptSlot? || step.BindFails? || step.DropConf? || step.ExpireTtl? {
      ForwardStepsKeepSessions(w, step);
      hide Apply, SessionsSame;
    } else {
      hide Without, Released;
    }
  }

  lemma SubscribeNoRepeats(list: seq<nat>, s: nat)
    requires NoRepeats(list)
    ensures NoRepeats([s] + RemoveSess(list, s))
  {
    RemoveSessExact(list, s);
    var rest := RemoveSess(list, s);
    forall i, j | 0 <= i < j < |[s] + rest| ensures ([s] + rest)[i] != ([s] + rest)[j] {
      assert ([s] + rest)[j] in rest;
    }
  }

  lemma SubsStep(w: World, step: Step)
    requires Enabled(w, step) && SubsOk(w) && OwnersOk(w.core) && Sound(w)
    ensures SubsOk(Apply(w, step))
  {
    if !SessionStep(step) {
      hide Apply, OwnersOk;
      OtherStepsKeepSessions(w, step);
    } else {
      hide NoRepeats, RemoveSess, RemoveAll, DropOwners, OwnersOk;
      match step {
        case Sub(s) =>
          RemoveSessExact(w.core.subs, s);
          SubscribeNoRepeats(w.core.subs, s);
        case Unsub(s) => RemoveSessExact(w.core.subs, s);
        case Close(s) => RemoveSessExact(w.core.subs, s);
        case TransportDies => RemoveAllExact(w.core.subs, Relays(w.core));
        case Open(_) =>
      }
    }
  }

  // ---------------------------------------------------------------------
  // Owners
  // ---------------------------------------------------------------------

  /** Putting a record into the table, a new one or a changed one. */
  lemma PutOwnersOk(c: Core, g: nat, f: Fwd, next: nat)
    requires OwnersOk(c) && (f.owners == map[] ==> f.binding) && (f.binding ==> f.closer.None?)
    requires forall s :: ConnOwner(s) in f.owners ==> s in c.sessions
    requires if g in c.forwards then f.id == c.forwards[g].id && next == c.nextFwd else f.id == c.nextFwd && next == c.nextFwd + 1
    ensures OwnersOk(c.(forwards := c.forwards[g := f], nextFwd := next))
  {
  }

  lemma AddOwnersOk(c: Core, q: AddRequest)
    requires OwnersOk(c)
    ensures OwnersOk(Add(c, q).0)
  {
    hide HeldPorts;
    var d := Add(c, q).0;
    if d != c {
      var f := d.forwards[q.guest];
      assert q.own in f.owners;
      PutOwnersOk(c, q.guest, f, d.nextFwd);
    }
  }

  lemma SettleOwnersOk(c: Core, guest: nat, fid: nat)
    requires OwnersOk(c)
    ensures OwnersOk(Settle(c, guest, fid))
  {
  }

  lemma AdoptOwnersOk(c: Core, guest: nat, fid: nat, tr: nat, host: int, closer: nat, exact: bool)
    requires OwnersOk(c)
    ensures OwnersOk(Adopt(c, guest, fid, tr, host, closer, exact).0)
  {
    hide Settle;
    SettleOwnersOk(c, guest, fid);
    SettleEnds(c, guest, fid);
  }

  /** After Settle nobody is binding the slot. */
  lemma SettleEnds(c: Core, guest: nat, fid: nat)
    ensures var d := Settle(c, guest, fid);
            Current(d, guest, fid) ==> !d.forwards[guest].binding && d.forwards[guest].owners != map[]
                                       && d.forwards[guest] == c.forwards[guest].(binding := false)
  {
  }

  lemma BindFailedOwnersOk(c: Core, guest: nat, fid: nat, tr: nat, own: Owner, added: bool, dead: bool)
    requires OwnersOk(c)
    ensures OwnersOk(BindFailed(c, guest, fid, tr, own, added, dead).0)
  {
    hide Settle;
    SettleOwnersOk(c, guest, fid);
  }

  lemma RemoveOwnersOk(c: Core, guest: nat, own: Owner)
    requires OwnersOk(c)
    ensures OwnersOk(Remove(c, guest, own))
  {
  }

  /** Dropping the connection owners of every session that goes. */
  lemma GoneOwnersOk(c: Core, d: Core, gone: set<nat>, owners: set<Owner>)
    requires OwnersOk(c) && d == DropOwners(c.(sessions := c.sessions - gone, subs := d.subs, sess := d.sess, up := d.up), owners)
    requires forall s :: s in gone ==> ConnOwner(s) in owners
    requires d.sess.Keys == c.sess.Keys
    ensures OwnersOk(d)
  {
    DropOwnersExact(c.(sessions := c.sessions - gone, subs := d.subs, sess := d.sess, up := d.up), owners);
    hide DropOwners;
  }

  lemma DetachOwnersOk(c: Core)
    requires OwnersOk(c)
    ensures OwnersOk(Detach(c))
  {
  }

  lemma CloseOwnersOk(c: Core, s: nat)
    requires OwnersOk(c) && s in c.sess
    ensures OwnersOk(CloseSession(c, s))
  {
    DropOwnersExact(c.(sessions := c.sessions - {s}, subs := RemoveSess(c.subs, s), sess := c.sess[s := c.sess[s].(pending := {})]),
                    {ConnOwner(s)});
    GoneOwnersOk(c, CloseSession(c, s), {s}, {ConnOwner(s)});
  }

  lemma OnDeadOwnersOk(c: Core)
    requires OwnersOk(c)
    ensures OwnersOk(OnDead(c))
  {
    var relays := Relays(c);
    var d := DropOwners(c.(up := false, sessions := c.sessions - relays, subs := RemoveAll(c.subs, relays)), ConnOwners(relays));
    DropOwnersExact(c.(up := false, sessions := c.sessions - relays, subs := RemoveAll(c.subs, relays)), ConnOwners(relays));
    GoneOwnersOk(c, d, relays, ConnOwners(relays));
    DetachOwnersOk(d);
  }

  lemma LapsedOwnersOk(c: Core, now: int)
    requires OwnersOk(c)
    ensures OwnersOk(DropOwners(c, {ConfOwner})) && OwnersOk(Expire(c, now))
  {
    DropOwnersExact(c, {ConfOwner});
    ExpireExact(c, now);
    hide DropOwners, Expire, Lapsed;
  }

  lemma OwnersStep(w: World, step: Step)
    requires Enabled(w, step) && SubsOk(w) && OwnersOk(w.core) && Sound(w)
    ensures OwnersOk(Apply(w, step).core)
  {
    var c := w.core;
    hide Add, Adopt, BindFailed, Remove, DropOwners, Expire, Settle, Detach, CloseSession, OnDead, Released, LapsedListeners, SubsOk;
    match step {
      case Close(s) => CloseOwnersOk(c, s);
      case AddSlot(q) => AddOwnersOk(c, q);
      case AdoptSlot(k) =>
        var m := w.claims[k];
        AdoptOwnersOk(c, m.guest, m.fid, m.tr, m.got.value.0, m.got.value.1, m.exact);
      case BindFails(k, dead) =>
        var m := w.claims[k];
        SettleOwnersOk(c, m.guest, m.fid);
        if m.own.Some? {
          BindFailedOwnersOk(c, m.guest, m.fid, m.tr, m.own.value, m.added, dead);
        }
      case RemoveOwner(guest, own) => RemoveOwnersOk(c, guest, own);
      case DropConf => LapsedOwnersOk(c, 0);
      case ExpireTtl(now) => LapsedOwnersOk(c, now);
      case TransportDies => OnDeadOwnersOk(c);
      case Shutdown => DetachOwnersOk(c);
      case Rebind(g) => RebindOwners(w, g);
      case _ => OtherOwners(w, step);
    }
  }

  lemma OwnersFrom(c: Core, d: Core)
    requires OwnersOk(c) && d.forwards == c.forwards && d.nextFwd == c.nextFwd
    requires c.sessions <= d.sessions && d.sessions <= d.sess.Keys && forall s :: s in d.sess ==> s <= d.nextConn
    ensures OwnersOk(d)
  {
  }

  /** The steps that drop no owner and end no claim. */
  lemma OtherOwners(w: World, step: Step)
    requires Enabled(w, step) && OwnersOk(w.core) && Sound(w)
    requires step.Open? || step.Sub? || step.Unsub? || step.BindReturns? || step.Restore? || step.SetUp?
             || step.Deliver? || step.RouteReply? || step.Send? || step.Receive? || step.EndDelivery?
    ensures OwnersOk(Apply(w, step).core)
  {
    hide RemoveSess;
    var c, d := w.core, Apply(w, step).core;
    assert d.forwards == c.forwards && d.nextFwd == c.nextFwd && c.sessions <= d.sessions && d.sessions <= d.sess.Keys;
    assert forall s :: s in d.sess ==> s <= d.nextConn;
    OwnersFrom(c, d);
    hide Apply, OwnersOk;
  }

  lemma RebindOwners(w: World, g: nat)
    requires Enabled(w, Rebind(g)) && OwnersOk(w.core) && Sound(w)
    ensures OwnersOk(Apply(w, Rebind(g)).core)
  {
    PutOwnersOk(w.core, g, w.core.forwards[g].(binding := true), w.core.nextFwd);
    hide OwnersOk;
  }

  // ---------------------------------------------------------------------
  // Binders and listeners
  // ---------------------------------------------------------------------

  /** Every slot being bound has exactly one binder, and every binder's slot is
      still in the table. */
  ghost predicate ClaimsOk(w: World) {
    && (forall k :: k in w.claims ==>
          k < w.nextClaim && Current(w.core, w.claims[k].guest, w.claims[k].fid)
          && w.core.forwards[w.claims[k].guest].binding)
    && (forall k, l :: k in w.claims && l in w.claims && k != l ==> w.claims[k].guest != w.claims[l].guest)
    && (forall g :: g in w.core.forwards && w.core.forwards[g].binding ==> Bound(w, g))
  }

  ghost predicate Bound(w: World, g: nat) { exists k :: k in w.claims && w.claims[k].guest == g }

  ghost predicate HeldByForward(w: World, l: nat) {
    exists g :: g in w.core.forwards && w.core.forwards[g].closer == Some(l)
  }

  ghost predicate HeldByBinder(w: World, l: nat) {
    exists k :: k in w.claims && w.claims[k].got.Some? && w.claims[k].got.value.1 == l
  }

  ghost predicate NumbersOk(w: World) {
    && (forall l :: l in w.made ==> l < w.nextListener && w.made[l] < w.nextTr)
    && (forall t :: t in w.dropped ==> t < w.nextTr)
    && (w.core.tr.Some? ==> w.core.tr.value < w.nextTr && w.core.tr.value !in w.dropped)
    && (forall k :: k in w.claims ==> w.claims[k].tr < w.nextTr)
    && w.closed <= w.made.Keys
  }

  /** A forward's listener is its own, is open, and is on the current transport. */
  ghost predicate TableOk(w: World) {
    && (forall g :: g in w.core.forwards && w.core.forwards[g].closer.Some? ==>
          var l := w.core.forwards[g].closer.value;
          l in w.made && w.core.tr == Some(w.made[l]) && l !in w.closed)
    && (forall g, h :: g in w.core.forwards && h in w.core.forwards && g != h && w.core.forwards[g].closer.Some? ==>
          w.core.forwards[g].closer != w.core.forwards[h].closer)
  }

  /** A binder's listener is its own and open. */
  ghost predicate BindersOk(w: World) {
    && (forall k :: k in w.claims && w.claims[k].got.Some? ==>
          var l := w.claims[k].got.value.1;
          l in w.made && w.made[l] == w.claims[k].tr && l !in w.closed && !HeldByForward(w, l))
    && (forall k, j :: k in w.claims && j in w.claims && k != j && w.claims[k].got.Some? && w.claims[j].got.Some? ==>
          w.claims[k].got.value.1 != w.claims[j].got.value.1)
  }

  ghost predicate NoLeak(w: World) {
    forall l :: l in w.made ==>
      l in w.closed || w.made[l] in w.dropped || HeldByForward(w, l) || HeldByBinder(w, l)
  }

  /** Each listener ever bound is in one place: held by one forward on the current
      transport, held by one binder, closed, or gone with its transport. */
  ghost predicate ListenersOk(w: World) { NumbersOk(w) && TableOk(w) && BindersOk(w) && NoLeak(w) }

  /** The same slots, as far as binders and listeners can tell. */
  ghost predicate SameSlots(c: Core, d: Core) {
    && d.tr == c.tr && d.forwards.Keys == c.forwards.Keys
    && forall g :: g in c.forwards ==>
         d.forwards[g].id == c.forwards[g].id && d.forwards[g].binding == c.forwards[g].binding
         && d.forwards[g].closer == c.forwards[g].closer
  }

  /** Slots nobody is binding went, and their listeners `gone` were closed. */
  ghost predicate Fewer(c: Core, d: Core, gone: set<nat>) {
    && d.tr == c.tr
    && (forall g :: g in d.forwards ==>
          g in c.forwards && d.forwards[g].id == c.forwards[g].id && d.forwards[g].binding == c.forwards[g].binding
          && d.forwards[g].closer == c.forwards[g].closer)
    && (forall g :: g in c.forwards && g !in d.forwards ==>
          !c.forwards[g].binding && (c.forwards[g].closer.Some? ==> c.forwards[g].closer.value in gone))
    && (forall l :: l in gone ==>
          exists g :: g in c.forwards && g !in d.forwards && c.forwards[g].closer == Some(l))
  }

  /** Nothing changed but the core and the closed listeners. */
  ghost predicate Same(w: World, w': World) {
    && w'.claims == w.claims && w'.nextClaim == w.nextClaim && w'.made == w.made && w'.nextListener == w.nextListener
    && w'.dropped == w.dropped && w'.nextTr == w.nextTr
  }

  lemma FewerKeeps(w: World, w': World, gone: set<nat>)
    requires ClaimsOk(w) && ListenersOk(w) && Same(w, w')
    requires Fewer(w.core, w'.core, gone) && w'.closed == w.closed + gone
    ensures ClaimsOk(w') && ListenersOk(w')
  {
    forall g | g in w'.core.forwards && w'.core.forwards[g].binding ensures Bound(w', g) {
      assert Bound(w, g);
    }
    FewerListeners(w, w', gone);
  }

  lemma FewerListeners(w: World, w': World, gone: set<nat>)
    requires ListenersOk(w) && Same(w, w')
    requires Fewer(w.core, w'.core, gone) && w'.closed == w.closed + gone
    ensures ListenersOk(w')
  {
    forall l ensures HeldByForward(w', l) ==> HeldByForward(w, l) && l !in gone {
    }
    forall l | HeldByForward(w, l) ensures HeldByForward(w', l) || l in gone {
      var g :| g in w.core.forwards && w.core.forwards[g].closer == Some(l);
      assert g in w'.core.forwards ==> w'.core.forwards[g].closer == Some(l);
    }
    forall l | l in gone ensures HeldByForward(w, l) && l in w.made {
    }
    assert forall l :: HeldByBinder(w', l) <==> HeldByBinder(w, l);
    forall l | l in w'.made
      ensures l in w'.closed || w'.made[l] in w'.dropped || HeldByForward(w', l) || HeldByBinder(w', l)
    {
    }
  }

  lemma SameKeeps(w: World, w': World)
    requires ClaimsOk(w) && ListenersOk(w) && Same(w, w') && SameSlots(w.core, w'.core) && w'.closed == w.closed
    ensures ClaimsOk(w') && ListenersOk(w')
  {
    FewerKeeps(w, w', {});
  }

  lemma DropFewer(c: Core, gone: set<Owner>)
    ensures Fewer(c, DropOwners(c, gone), Released(c, gone))
  {
  }

  lemma ExpireFewer(c: Core, now: int)
    ensures Fewer(c, Expire(c, now), LapsedListeners(c, now))
  {
  }

  lemma RemoveFewer(c: Core, guest: nat, own: Owner)
    ensures var gone := guest in c.forwards && Without(c.forwards[guest], {own}).None? && c.forwards[guest].closer.Some?;
            Fewer(c, Remove(c, guest, own), if gone then {c.forwards[guest].closer.value} else {})
  {
  }

  /** A new slot, pending, that nobody is binding. */
  ghost predicate IdleSlot(c: Core, d: Core, g: nat) {
    && d.tr == c.tr && g !in c.forwards && d.forwards.Keys == c.forwards.Keys + {g}
    && d.forwards[g].closer.None? && !d.forwards[g].binding
    && forall h :: h in c.forwards ==> d.forwards[h] == c.forwards[h]
  }

  lemma IdleSlotKeeps(w: World, w': World, g: nat)
    requires ClaimsOk(w) && ListenersOk(w) && Same(w, w') && w'.closed == w.closed && IdleSlot(w.core, w'.core, g)
    ensures ClaimsOk(w') && ListenersOk(w')
  {
    forall h | h in w'.core.forwards && w'.core.forwards[h].binding ensures Bound(w', h) {
      assert Bound(w, h);
    }
    IdleSlotListeners(w, w', g);
  }

  lemma IdleSlotListeners(w: World, w': World, g: nat)
    requires ListenersOk(w) && Same(w, w') && w'.closed == w.closed && IdleSlot(w.core, w'.core, g)
    ensures ListenersOk(w')
  {
    assert forall l :: HeldByForward(w', l) <==> HeldByForward(w, l);
    assert forall l :: HeldByBinder(w', l) <==> HeldByBinder(w, l);
    hide HeldByForward, HeldByBinder;
    assert TableOk(w');
    hide TableOk;
    assert BindersOk(w') && NoLeak(w');
  }

  /** Slot `g` changed or went; it held no listener before. */
  ghost predicate OtherSlotsSame(c: Core, d: Core, g: nat) {
    && d.tr == c.tr
    && (forall h :: h != g ==> (h in d.forwards <==> h in c.forwards))
    && (forall h :: h != g && h in c.forwards ==> d.forwards[h] == c.forwards[h])
    && (g in c.forwards ==> c.forwards[g].closer.None?)
  }

  ghost predicate BooksSame(w: World, w': World) {
    && w'.made == w.made && w'.nextListener == w.nextListener && w'.dropped == w.dropped && w'.nextTr == w.nextTr
  }

  /** A pending slot that nobody is binding, or a new one, is claimed. */
  lemma ClaimKeeps(w: World, w': World, g: nat, m: Claim)
    requires ClaimsOk(w) && BooksSame(w, w') && OtherSlotsSame(w.core, w'.core, g)
    requires g in w.core.forwards ==> !w.core.forwards[g].binding
    requires g in w'.core.forwards && w'.core.forwards[g].binding
    requires w'.claims == w.claims[w.nextClaim := m] && w'.nextClaim == w.nextClaim + 1
    requires m.guest == g && m.fid == w'.core.forwards[g].id
    ensures ClaimsOk(w')
  {
    assert w.nextClaim !in w.claims;
    assert w.nextClaim in w'.claims && w'.claims[w.nextClaim].guest == g;
    forall h | h in w'.core.forwards && w'.core.forwards[h].binding ensures Bound(w', h) {
      if h != g {
        assert Bound(w, h);
        var k :| k in w.claims && w.claims[k].guest == h;
        assert k in w'.claims && w'.claims[k].guest == h;
      }
    }
  }

  /** The new claim holds no listener yet, so the hands they are in stay the same. */
  lemma ClaimHolders(w: World, w': World, g: nat, m: Claim)
    requires OtherSlotsSame(w.core, w'.core, g) && g in w'.core.forwards && w'.core.forwards[g].closer.None?
    requires w.nextClaim !in w.claims && w'.claims == w.claims[w.nextClaim := m] && m.got.None?
    ensures forall l :: HeldByForward(w', l) <==> HeldByForward(w, l)
    ensures forall l :: HeldByBinder(w, l) ==> HeldByBinder(w', l)
  {
    forall l: nat ensures HeldByForward(w', l) <==> HeldByForward(w, l) {
      if HeldByForward(w, l) {
        var h :| h in w.core.forwards && w.core.forwards[h].closer == Some(l);
        assert h in w'.core.forwards && w'.core.forwards[h].closer == Some(l);
      }
    }
    forall l | HeldByBinder(w, l) ensures HeldByBinder(w', l) {
      var k :| k in w.claims && w.claims[k].got.Some? && w.claims[k].got.value.1 == l;
      assert k in w'.claims && w'.claims[k] == w.claims[k];
    }
  }

  lemma ClaimListeners(w: World, w': World, g: nat, m: Claim)
    requires ListenersOk(w) && BooksSame(w, w') && OtherSlotsSame(w.core, w'.core, g) && w'.closed == w.closed
    requires g in w'.core.forwards && w'.core.forwards[g].closer.None?
    requires w.nextClaim !in w.claims && w'.claims == w.claims[w.nextClaim := m]
    requires m.got.None? && w.core.tr == Some(m.tr)
    ensures ListenersOk(w')
  {
    ClaimHolders(w, w', g, m);
    hide HeldByForward, HeldByBinder;
    assert NoLeak(w');
    assert TableOk(w');
    assert BindersOk(w');
  }

  ghost function AfterBind(w: World, k: nat, host: int): World
    requires k in w.claims
  {
    var l := w.nextListener;
    w.(made := w.made[l := w.claims[k].tr], nextListener := l + 1,
       claims := w.claims[k := w.claims[k].(got := Some((host, l)))])
  }

  /** A bind comes back with a listener. */
  lemma BoundKeeps(w: World, k: nat, host: int)
    requires ClaimsOk(w) && k in w.claims
    ensures ClaimsOk(AfterBind(w, k, host))
  {
    var w' := AfterBind(w, k, host);
    forall h | h in w'.core.forwards && w'.core.forwards[h].binding ensures Bound(w', h) {
      assert Bound(w, h);
      var i :| i in w.claims && w.claims[i].guest == h;
      assert i in w'.claims && w'.claims[i].guest == h;
    }
  }

  lemma BoundListeners(w: World, k: nat, host: int)
    requires ListenersOk(w) && k in w.claims && w.claims[k].got.None?
    ensures ListenersOk(AfterBind(w, k, host))
  {
    var w', n := AfterBind(w, k, host), w.nextListener;
    assert n !in w.made;
    assert forall l :: HeldByForward(w', l) <==> HeldByForward(w, l);
    assert !HeldByForward(w, n);
    assert HeldByBinder(w', n) by {
      assert k in w'.claims && w'.claims[k].got.value.1 == n;
    }
    forall l | HeldByBinder(w, l) ensures HeldByBinder(w', l) {
      var i :| i in w.claims && w.claims[i].got.Some? && w.claims[i].got.value.1 == l;
      assert i in w'.claims && w'.claims[i] == w.claims[i];
    }
    hide HeldByForward, HeldByBinder;
    assert NoLeak(w');
    assert TableOk(w');
    assert BindersOk(w');
  }

  /** A claim ends: its slot is bound no more. */
  lemma ClaimEnds(w: World, w': World, k: nat)
    requires ClaimsOk(w) && k in w.claims && w'.claims == w.claims - {k} && w'.nextClaim == w.nextClaim
    requires OtherSlotsSame(w.core, w'.core, w.claims[k].guest)
    requires w.claims[k].guest in w'.core.forwards ==> !w'.core.forwards[w.claims[k].guest].binding
    ensures ClaimsOk(w')
  {
    forall h | h in w'.core.forwards && w'.core.forwards[h].binding ensures Bound(w', h) {
      assert Bound(w, h);
      var i :| i in w.claims && w.claims[i].guest == h;
      assert i in w'.claims;
    }
  }

  /** ... and its listener, if it had one, is the slot's now or closed. */
  ghost predicate Handed(w: World, w': World, k: nat)
    requires k in w.claims
  {
    var g := w.claims[k].guest;
    var pending := g in w'.core.forwards ==> w'.core.forwards[g].closer.None?;
    match w.claims[k].got
    case None => w'.closed == w.closed && pending
    case Some(got) =>
      || (w'.closed == w.closed + {got.1} && pending)
      || (w'.closed == w.closed && g in w'.core.forwards && w'.core.forwards[g].closer == Some(got.1)
          && w.core.tr == Some(w.claims[k].tr))
  }

  lemma EndedListeners(w: World, w': World, k: nat)
    requires ListenersOk(w) && BooksSame(w, w') && k in w.claims && w'.claims == w.claims - {k}
    requires OtherSlotsSame(w.core, w'.core, w.claims[k].guest) && Handed(w, w', k)
    ensures ListenersOk(w')
  {
    var g, got := w.claims[k].guest, w.claims[k].got;
    forall l: nat | HeldByForward(w, l) ensures HeldByForward(w', l) {
      var h :| h in w.core.forwards && w.core.forwards[h].closer == Some(l);
      assert h in w'.core.forwards && w'.core.forwards[h] == w.core.forwards[h];
    }
    forall l: nat | HeldByForward(w', l) ensures HeldByForward(w, l) || (got.Some? && got.value.1 == l && w'.closed == w.closed) {
      var h :| h in w'.core.forwards && w'.core.forwards[h].closer == Some(l);
      assert h != g ==> h in w.core.forwards && w.core.forwards[h].closer == Some(l);
    }
    forall l | HeldByBinder(w, l) ensures HeldByBinder(w', l) || (got.Some? && got.value.1 == l) {
      var i :| i in w.claims && w.claims[i].got.Some? && w.claims[i].got.value.1 == l;
      assert i != k ==> i in w'.claims;
    }
    if got.Some? && w'.closed == w.closed {
      assert HeldByForward(w', got.value.1);
    }
    EndedTable(w, w', k);
    hide HeldByForward, HeldByBinder, TableOk;
    assert BindersOk(w');
    assert NoLeak(w');
  }

  lemma EndedTable(w: World, w': World, k: nat)
    requires ListenersOk(w) && BooksSame(w, w') && k in w.claims && w'.claims == w.claims - {k}
    requires OtherSlotsSame(w.core, w'.core, w.claims[k].guest) && Handed(w, w', k)
    ensures TableOk(w')
  {
    forall h | h in w.core.forwards && w.core.forwards[h].closer.Some? ensures HeldByForward(w, w.core.forwards[h].closer.value) {
    }
  }

  /** The transport goes with everything on it. */
  lemma DetachKeeps(w: World, w': World)
    requires ClaimsOk(w) && ListenersOk(w) && w'.claims == w.claims && w'.nextClaim == w.nextClaim && w'.made == w.made
    requires w'.nextListener == w.nextListener && w'.nextTr == w.nextTr && w'.closed == w.closed
    requires w'.dropped == if w.core.tr.Some? then w.dropped + {w.core.tr.value} else w.dropped
    requires w'.core.forwards == Detach(w.core).forwards && w'.core.tr == None
    ensures ClaimsOk(w') && ListenersOk(w')
  {
    forall h | h in w'.core.forwards && w'.core.forwards[h].binding ensures Bound(w', h) {
      assert Bound(w, h);
    }
    DetachListeners(w, w');
  }

  lemma DetachListeners(w: World, w': World)
    requires ListenersOk(w) && w'.claims == w.claims && w'.made == w.made
    requires w'.nextListener == w.nextListener && w'.nextTr == w.nextTr && w'.closed == w.closed
    requires w'.dropped == if w.core.tr.Some? then w.dropped + {w.core.tr.value} else w.dropped
    requires w'.core.forwards == Detach(w.core).forwards && w'.core.tr == None
    ensures ListenersOk(w')
  {
    assert forall l :: !HeldByForward(w', l);
    assert forall l :: HeldByBinder(w', l) <==> HeldByBinder(w, l);
    forall l | HeldByForward(w, l) ensures w'.made[l] in w'.dropped {
      var g :| g in w.core.forwards && w.core.forwards[g].closer == Some(l);
    }
    hide HeldByForward, HeldByBinder;
  }

  /** What adopt and a failed bind do to the claimed slot. */
  lemma AdoptEnds(c: Core, m: Claim)
    requires Current(c, m.guest, m.fid) && c.forwards[m.guest].closer.None? && m.got.Some?
    ensures var (d, kept) := Adopt(c, m.guest, m.fid, m.tr, m.got.value.0, m.got.value.1, m.exact);
            && OtherSlotsSame(c, d, m.guest)
            && (m.guest in d.forwards ==> !d.forwards[m.guest].binding)
            && (kept ==> m.guest in d.forwards && d.forwards[m.guest].closer == Some(m.got.value.1) && c.tr == Some(m.tr))
            && (!kept ==> m.guest in d.forwards ==> d.forwards[m.guest].closer.None?)
  {
  }

  lemma FailEnds(c: Core, m: Claim, dead: bool)
    requires Current(c, m.guest, m.fid) && c.forwards[m.guest].closer.None?
    ensures var d := if m.own.None? then Settle(c, m.guest, m.fid)
                     else BindFailed(c, m.guest, m.fid, m.tr, m.own.value, m.added, dead).0;
            && OtherSlotsSame(c, d, m.guest)
            && (m.guest in d.forwards ==> !d.forwards[m.guest].binding && d.forwards[m.guest].closer.None?)
  {
  }

  lemma AddSlots(c: Core, q: AddRequest)
    requires OwnersOk(c)
    ensures var (d, out) := Add(c, q);
            && d.tr == c.tr
            && (!out.Claimed? ==> SameSlots(c, d) || IdleSlot(c, d, q.guest))
            && (out.Claimed? ==>
                  OtherSlotsSame(c, d, q.guest) && c.tr == Some(out.tr)
                  && (q.guest in c.forwards ==> !c.forwards[q.guest].binding)
                  && q.guest in d.forwards && d.forwards[q.guest].binding && d.forwards[q.guest].closer.None?
                  && d.forwards[q.guest].id == out.fid)
  {
    hide HeldPorts;
  }

  lemma ReleasedSame(c: Core, d: Core, gone: set<Owner>)
    requires d.forwards == c.forwards
    ensures Released(d, gone) == Released(c, gone)
  {
  }

  lemma RestoreKeeps(w: World)
    requires ClaimsOk(w) && ListenersOk(w) && w.core.tr.None?
    ensures var w' := w.(core := w.core.(tr := Some(w.nextTr)), nextTr := w.nextTr + 1); ClaimsOk(w') && ListenersOk(w')
  {
    var w' := w.(core := w.core.(tr := Some(w.nextTr)), nextTr := w.nextTr + 1);
    forall h | h in w'.core.forwards && w'.core.forwards[h].binding ensures Bound(w', h) {
      assert Bound(w, h);
    }
    assert forall l :: HeldByForward(w', l) <==> HeldByForward(w, l);
    assert forall l :: HeldByBinder(w', l) <==> HeldByBinder(w, l);
  }

  /** onDead drops the relays' owners, then everything on the transport goes. */
  lemma OnDeadSlots(c: Core)
    ensures var d := OnDead(c);
            && d.tr.None?
            && (forall g :: g in d.forwards ==>
                  g in c.forwards && d.forwards[g].id == c.forwards[g].id && d.forwards[g].closer.None?
                  && d.forwards[g].binding == c.forwards[g].binding)
            && (forall g :: g in c.forwards && c.forwards[g].binding ==> g in d.forwards)
  {
    var relays := Relays(c);
    var c1 := c.(up := false, sessions := c.sessions - relays, subs := RemoveAll(c.subs, relays));
    DropFewer(c1, ConnOwners(relays));
    hide DropOwners, Released, RemoveAll;
  }

  ghost function AfterDeath(w: World): World
    requires w.core.tr.Some?
  {
    w.(core := OnDead(w.core), dropped := w.dropped + {w.core.tr.value})
  }

  lemma DiesClaims(w: World)
    requires ClaimsOk(w) && w.core.tr.Some?
    ensures ClaimsOk(AfterDeath(w))
  {
    var w' := AfterDeath(w);
    OnDeadSlots(w.core);
    hide OnDead;
    forall h | h in w'.core.forwards && w'.core.forwards[h].binding ensures Bound(w', h) {
      assert Bound(w, h);
    }
  }

  lemma DiesListeners(w: World)
    requires ListenersOk(w) && w.core.tr.Some?
    ensures ListenersOk(AfterDeath(w))
  {
    var w' := AfterDeath(w);
    OnDeadSlots(w.core);
    hide OnDead;
    assert forall l: nat :: !HeldByForward(w', l);
    assert forall l :: HeldByBinder(w', l) <==> HeldByBinder(w, l);
    forall l: nat | HeldByForward(w, l) ensures l in w.made && w'.made[l] in w'.dropped {
      var g :| g in w.core.forwards && w.core.forwards[g].closer == Some(l);
    }
  }

  /** What the two step lemmas keep. */
  ghost predicate SlotsOk(w: World) { OwnersOk(w.core) && ClaimsOk(w) && ListenersOk(w) && Sound(w) }

  lemma CloseSlots(w: World, s: nat)
    requires Enabled(w, Close(s)) && SlotsOk(w)
    ensures ClaimsOk(Apply(w, Close(s))) && ListenersOk(Apply(w, Close(s)))
  {
    var c := w.core;
    var c1 := c.(sessions := c.sessions - {s}, subs := RemoveSess(c.subs, s), sess := c.sess[s := c.sess[s].(pending := {})]);
    DropFewer(c1, {ConnOwner(s)});
    ReleasedSame(c, c1, {ConnOwner(s)});
    hide DropOwners, Released, ClaimsOk, ListenersOk;
    FewerKeeps(w, Apply(w, Close(s)), Released(c, {ConnOwner(s)}));
  }

  lemma AddKeepsSlots(w: World, q: AddRequest)
    requires SlotsOk(w)
    ensures ClaimsOk(Apply(w, AddSlot(q))) && ListenersOk(Apply(w, AddSlot(q)))
  {
    var c, w', out := w.core, Apply(w, AddSlot(q)), Add(w.core, q).1;
    AddSlots(c, q);
    hide Add, ListenersOk;
    if out.Claimed? {
      var m := Claim(q.guest, out.fid, out.tr, Some(q.own), out.target, out.exact, out.added, None);
      ClaimKeeps(w, w', q.guest, m);
      ClaimListeners(w, w', q.guest, m);
    } else if SameSlots(c, Add(c, q).0) {
      SameKeeps(w, w');
    } else {
      IdleSlotKeeps(w, w', q.guest);
    }
  }

  lemma AdoptKeepsSlots(w: World, k: nat)
    requires Enabled(w, AdoptSlot(k)) && SlotsOk(w)
    ensures ClaimsOk(Apply(w, AdoptSlot(k))) && ListenersOk(Apply(w, AdoptSlot(k)))
  {
    hide Adopt, ListenersOk;
    AdoptEnds(w.core, w.claims[k]);
    ClaimEnds(w, Apply(w, AdoptSlot(k)), k);
    EndedListeners(w, Apply(w, AdoptSlot(k)), k);
  }

  lemma FailKeepsSlots(w: World, k: nat, dead: bool)
    requires Enabled(w, BindFails(k, dead)) && SlotsOk(w)
    ensures ClaimsOk(Apply(w, BindFails(k, dead))) && ListenersOk(Apply(w, BindFails(k, dead)))
  {
    hide Settle, BindFailed, ListenersOk;
    FailEnds(w.core, w.claims[k], dead);
    ClaimEnds(w, Apply(w, BindFails(k, dead)), k);
    EndedListeners(w, Apply(w, BindFails(k, dead)), k);
  }

  lemma RebindKeepsSlots(w: World, g: nat)
    requires Enabled(w, Rebind(g)) && SlotsOk(w)
    ensures ClaimsOk(Apply(w, Rebind(g))) && ListenersOk(Apply(w, Rebind(g)))
  {
    RebindClaims(w, g);
    RebindListeners(w, g);
    hide ClaimsOk, ListenersOk, Apply, Enabled, OwnersOk;
  }

  lemma RebindClaims(w: World, g: nat)
    requires Enabled(w, Rebind(g)) && SlotsOk(w)
    ensures ClaimsOk(Apply(w, Rebind(g)))
  {
    hide ListenersOk, RelayOnly;
    var m := Claim(g, w.core.forwards[g].id, w.core.tr.value, None, w.core.forwards[g].host, w.core.forwards[g].exact, false, None);
    ClaimKeeps(w, Apply(w, Rebind(g)), g, m);
  }

  lemma RebindListeners(w: World, g: nat)
    requires Enabled(w, Rebind(g)) && SlotsOk(w)
    ensures ListenersOk(Apply(w, Rebind(g)))
  {
    hide ListenersOk, RelayOnly;
    var m := Claim(g, w.core.forwards[g].id, w.core.tr.value, None, w.core.forwards[g].host, w.core.forwards[g].exact, false, None);
    ClaimListeners(w, Apply(w, Rebind(g)), g, m);
  }

  lemma OwnerGoesKeepsSlots(w: World, step: Step)
    requires Enabled(w, step) && SlotsOk(w) && (step.DropConf? || step.ExpireTtl?)
    ensures ClaimsOk(Apply(w, step)) && ListenersOk(Apply(w, step))
  {
    hide ClaimsOk, ListenersOk, Fewer, Without, DropOwners, Expire, Released, LapsedListeners, OwnersOk;
    if step.DropConf? {
      DropFewer(w.core, {ConfOwner});
      FewerKeeps(w, Apply(w, step), Released(w.core, {ConfOwner}));
    } else {
      ExpireFewer(w.core, step.now);
      FewerKeeps(w, Apply(w, step), LapsedListeners(w.core, step.now));
    }
  }

  lemma RemoveKeepsSlots(w: World, guest: nat, own: Owner)
    requires SlotsOk(w)
    ensures ClaimsOk(Apply(w, RemoveOwner(guest, own))) && ListenersOk(Apply(w, RemoveOwner(guest, own)))
  {
    hide ClaimsOk, ListenersOk, Fewer, Without, Remove, OwnersOk;
    var c := w.core;
    RemoveFewer(c, guest, own);
    var gone := guest in c.forwards && Without(c.forwards[guest], {own}).None? && c.forwards[guest].closer.Some?;
    FewerKeeps(w, Apply(w, RemoveOwner(guest, own)), if gone then {c.forwards[guest].closer.value} else {});
  }

  lemma ReturnsKeepsSlots(w: World, k: nat, host: int)
    requires Enabled(w, BindReturns(k, host)) && SlotsOk(w)
    ensures ClaimsOk(Apply(w, BindReturns(k, host))) && ListenersOk(Apply(w, BindReturns(k, host)))
  {
    hide ClaimsOk, ListenersOk, OwnersOk;
    BoundKeeps(w, k, host);
    BoundListeners(w, k, host);
  }

  lemma TransportKeepsSlots(w: World, step: Step)
    requires Enabled(w, step) && SlotsOk(w) && (step.TransportDies? || step.Shutdown? || step.Restore?)
    ensures ClaimsOk(Apply(w, step)) && ListenersOk(Apply(w, step))
  {
    hide ClaimsOk, ListenersOk, OwnersOk, OnDead;
    match step {
      case TransportDies =>
        DiesClaims(w);
        DiesListeners(w);
      case Shutdown => DetachKeeps(w, Apply(w, step));
      case Restore => RestoreKeeps(w);
    }
  }

  lemma ListenersStep(w: World, step: Step)
    requires Enabled(w, step) && SlotsOk(w)
    ensures ClaimsOk(Apply(w, step)) && ListenersOk(Apply(w, step))
  {
    hide Apply, ClaimsOk, ListenersOk, OwnersOk, Enabled;
    match step {
      case Close(s) => CloseSlots(w, s);
      case AddSlot(q) => AddKeepsSlots(w, q);
      case BindReturns(k, host) => ReturnsKeepsSlots(w, k, host);
      case AdoptSlot(k) => AdoptKeepsSlots(w, k);
      case BindFails(k, dead) => FailKeepsSlots(w, k, dead);
      case RemoveOwner(guest, own) => RemoveKeepsSlots(w, guest, own);
      case DropConf => OwnerGoesKeepsSlots(w, step);
      case ExpireTtl(_) => OwnerGoesKeepsSlots(w, step);
      case TransportDies => TransportKeepsSlots(w, step);
      case Shutdown => TransportKeepsSlots(w, step);
      case Restore => TransportKeepsSlots(w, step);
      case Rebind(g) => RebindKeepsSlots(w, g);
      case _ => QuietStep(w, step);
    }
  }

  /** The steps that are about sessions and events only. */
  lemma QuietStep(w: World, step: Step)
    requires Enabled(w, step) && SlotsOk(w)
    requires step.Open? || step.Sub? || step.Unsub? || step.SetUp? || step.Deliver? || step.RouteReply? || step.Send?
             || step.Receive? || step.EndDelivery?
    ensures ClaimsOk(Apply(w, step)) && ListenersOk(Apply(w, step))
  {
    hide ClaimsOk, ListenersOk;
    SameKeeps(w, Apply(w, step));
  }

  // ---------------------------------------------------------------------
  // Events and replies
  // ---------------------------------------------------------------------

  /** An event still awaited has had no answer yet, of any kind. */
  ghost predicate AwaitedOk(w: World) {
    forall s, id :: s in w.core.sess && id in w.core.sess[s].pending ==>
      id in w.deliveries && w.deliveries[id] == Delivery(s, [], None) && forall x :: x in w.sending ==> x.id != id
  }

  /** A reply on its way is the only one for its event, so the channel it goes to
      is empty and the send does not block. */
  ghost predicate SendingOk(w: World) {
    && (forall x :: x in w.sending ==>
          x.id in w.deliveries && w.deliveries[x.id] == Delivery(w.deliveries[x.id].s, [], None)
          && (w.deliveries[x.id].s, x.id, x.data) in w.replies)
    && OnePerEvent(w.sending)
  }

  ghost predicate OnePerEvent(list: seq<Sending>) {
    forall i, j :: 0 <= i < j < |list| ==> list[i].id != list[j].id
  }

  /** A delivery holds at most one reply, sent by its own session naming its id. */
  ghost predicate DeliveriesOk(w: World) {
    forall id :: id in w.deliveries ==>
      var d := w.deliveries[id];
      && id <= w.core.nextEvent && d.s in w.core.sess
      && (d.chan == [] || (d.received.None? && |d.chan| == 1 && (d.s, id, d.chan[0]) in w.replies))
      && (d.received.Some? ==> (d.s, id, d.received.value) in w.replies)
  }

  ghost predicate EventsOk(w: World) { AwaitedOk(w) && SendingOk(w) && DeliveriesOk(w) }

  /** Nothing is awaited that was not before. */
  lemma FewerAwaited(w: World, w': World)
    requires EventsOk(w) && w'.deliveries == w.deliveries && w'.sending == w.sending && w.replies <= w'.replies
    requires w'.core.nextEvent == w.core.nextEvent && w.core.sess.Keys <= w'.core.sess.Keys
    requires forall s, id :: s in w'.core.sess && id in w'.core.sess[s].pending ==> s in w.core.sess && id in w.core.sess[s].pending
    ensures EventsOk(w')
  {
  }

  lemma DeliverEvents(w: World, s: nat)
    requires EventsOk(w)
    ensures Sound(w) ==> EventsOk(Apply(w, Deliver(s)))
  {
    if Sound(w) {
      var w' := Apply(w, Deliver(s));
      assert w.core.nextEvent + 1 !in w.deliveries;
    }
  }

  lemma TakenEvents(w: World, s: nat, id: nat, data: string)
    requires EventsOk(w) && s in w.core.sess && id in w.core.sess[s].pending
    ensures EventsOk(w.(core := TakePending(w.core, s, id).0, replies := w.replies + {(s, id, data)},
                        sending := w.sending + [Sending(id, data)]))
  {
    var w' := w.(core := TakePending(w.core, s, id).0, replies := w.replies + {(s, id, data)},
                 sending := w.sending + [Sending(id, data)]);
    assert w.deliveries[id] == Delivery(s, [], None);
    assert forall x :: x in w'.sending ==> x in w.sending || x == Sending(id, data);
    assert SendingOk(w') && AwaitedOk(w') by {
      hide DeliveriesOk;
    }
    hide SendingOk, AwaitedOk;
  }

  lemma RouteEvents(w: World, s: nat, id: nat, data: string)
    requires EventsOk(w) && Sound(w) && s in w.live
    ensures EventsOk(Apply(w, RouteReply(s, id, data)))
  {
    var w' := Apply(w, RouteReply(s, id, data));
    if id !in w.core.sess[s].pending {
      hide EventsOk;
      FewerAwaited(w, w');
    } else {
      TakenEvents(w, s, id, data);
    }
  }

  ghost predicate Sent(w: World, w': World, i: nat)
    requires i < |w.sending| && w.sending[i].id in w.deliveries
  {
    var x := w.sending[i];
    && w' == w.(sending := w'.sending, deliveries := w'.deliveries)
    && w'.sending == w.sending[..i] + w.sending[i + 1..]
    && w'.deliveries == w.deliveries[x.id := Delivery(w.deliveries[x.id].s, [x.data], None)]
  }

  lemma TakeOut(list: seq<Sending>, i: nat)
    requires i < |list| && OnePerEvent(list)
    ensures var out := list[..i] + list[i + 1..];
            OnePerEvent(out) && forall y :: y in out ==> y in list && y.id != list[i].id
  {
    var out := list[..i] + list[i + 1..];
    assert forall j :: 0 <= j < |out| ==> out[j] == list[if j < i then j else j + 1];
  }

  lemma SentSending(w: World, w': World, i: nat)
    requires EventsOk(w) && i < |w.sending| && w.sending[i] in w.sending && Sent(w, w', i)
    ensures forall y :: y in w'.sending ==> y in w.sending && y.id != w.sending[i].id
    ensures SendingOk(w')
  {
    TakeOut(w.sending, i);
    hide OnePerEvent;
  }

  lemma SendEvents(w: World, i: nat)
    requires EventsOk(w) && Sound(w) && i < |w.sending|
    ensures EventsOk(Apply(w, Send(i)))
  {
    var w', x := Apply(w, Send(i)), w.sending[i];
    assert x in w.sending && w.deliveries[x.id].chan + [x.data] == [x.data];
    assert Sent(w, w', i);
    SentSending(w, w', i);
    hide Apply, Sound;
    assert AwaitedOk(w');
    assert DeliveriesOk(w');
  }

  /** Steps on the forwards leave the events alone. */
  lemma ForwardEvents(w: World, step: Step)
    requires Enabled(w, step) && EventsOk(w) && OwnersOk(w.core) && Sound(w)
    requires step.AddSlot? || step.AdoptSlot? || step.BindFails? || step.DropConf? || step.ExpireTtl?
    ensures EventsOk(Apply(w, step))
  {
    hide EventsOk, Add, Adopt, BindFailed, Settle, DropOwners, Expire, Released, LapsedListeners, Without;
    match step {
      case AddSlot(q) => AddOnlyForwards(w.core, q);
      case AdoptSlot(k) => ForwardOps(w.core, w.claims[k], w.claims[k].got.value.0, w.claims[k].got.value.1, ConfOwner, false);
      case BindFails(k, dead) =>
        ForwardOps(w.core, w.claims[k], 0, 0, if w.claims[k].own.Some? then w.claims[k].own.value else ConfOwner, dead);
      case DropConf => DropOwnersExact(w.core, {ConfOwner});
      case ExpireTtl(now) => ExpireExact(w.core, now);
    }
    FewerAwaited(w, Apply(w, step));
  }

  /** Everything else a step may do to events: nothing, or forget some. */
  lemma OtherEvents(w: World, step: Step)
    requires Enabled(w, step) && EventsOk(w) && OwnersOk(w.core) && Sound(w)
    requires !step.Deliver? && !step.RouteReply? && !step.Send? && !step.Receive?
    requires !step.AddSlot? && !step.AdoptSlot? && !step.BindFails? && !step.DropConf? && !step.ExpireTtl?
    ensures EventsOk(Apply(w, step))
  {
    hide EventsOk, DropOwners, Released, Without;
    match step {
      case Close(s) =>
        var c := w.core;
        DropOwnersExact(c.(sessions := c.sessions - {s}, subs := RemoveSess(c.subs, s), sess := c.sess[s := c.sess[s].(pending := {})]),
                        {ConnOwner(s)});
      case TransportDies =>
        var c, relays := w.core, Relays(w.core);
        DropOwnersExact(c.(up := false, sessions := c.sessions - relays, subs := RemoveAll(c.subs, relays)), ConnOwners(relays));
      case _ =>
    }
    FewerAwaited(w, Apply(w, step));
  }

  lemma EventsStep(w: World, step: Step)
    requires Enabled(w, step) && EventsOk(w) && OwnersOk(w.core) && Sound(w)
    ensures EventsOk(Apply(w, step))
  {
    match step {
      case Deliver(s) => DeliverEvents(w, s);
      case RouteReply(s, id, data) => RouteEvents(w, s, id, data);
      case Send(i) => SendEvents(w, i);
      case Receive(id) =>
      case AddSlot(_) => ForwardEvents(w, step);
      case AdoptSlot(_) => ForwardEvents(w, step);
      case BindFails(_, _) => ForwardEvents(w, step);
      case DropConf => ForwardEvents(w, step);
      case ExpireTtl(_) => ForwardEvents(w, step);
      case _ => OtherEvents(w, step);
    }
  }

  // ---------------------------------------------------------------------
  // Runs
  // ---------------------------------------------------------------------

  ghost predicate Good(w: World) { SubsOk(w) && OwnersOk(w.core) && ClaimsOk(w) && ListenersOk(w) && EventsOk(w) }

  lemma GoodSound(w: World)
    requires Good(w)
    ensures Sound(w)
  {
  }

  lemma StepKeepsGood(w: World, step: Step)
    requires Good(w) && Enabled(w, step)
    ensures Sound(w) && Good(Apply(w, step))
  {
    GoodSound(w);
    hide SubsOk, OwnersOk, ClaimsOk, ListenersOk, EventsOk, Sound, Apply, Enabled;
    SubsStep(w, step);
    OwnersStep(w, step);
    ListenersStep(w, step);
    EventsStep(w, step);
  }

  /** `steps` can happen, in this order, from a daemon that just came up. */
  ghost predicate Possible(tr: nat, steps: seq<Step>)
    decreases |steps|, 0
  {
    var n := |steps|;
    n == 0 || (Possible(tr, steps[..n - 1]) && Enabled(End(tr, steps[..n - 1]), steps[n - 1]))
  }

  /** ... and where they end. */
  ghost function End(tr: nat, steps: seq<Step>): (w: World)
    requires Possible(tr, steps)
    ensures Good(w)
    decreases |steps|, 1
  {
    var n := |steps|;
    if n == 0 then
      StartGood(tr);
      Start(tr)
    else
      var v := End(tr, steps[..n - 1]);
      StepKeepsGood(v, steps[n - 1]);
      Apply(v, steps[n - 1])
  }

  /** One step longer. */
  lemma Longer(tr: nat, before: seq<Step>, step: Step)
    requires Possible(tr, before) && Enabled(End(tr, before), step)
    ensures Sound(End(tr, before))
    ensures Possible(tr, before + [step]) && End(tr, before + [step]) == Apply(End(tr, before), step)
  {
    hide Apply, Enabled, SubsOk, OwnersOk, ClaimsOk, ListenersOk, EventsOk;
    GoodSound(End(tr, before));
    assert (before + [step])[..|before|] == before;
  }

  lemma LastStep(tr: nat, steps: seq<Step>)
    requires Possible(tr, steps) && steps != []
    ensures var before, step := steps[..|steps| - 1], steps[|steps| - 1];
            && steps == before + [step]
            && Possible(tr, before) && Enabled(End(tr, before), step) && Sound(End(tr, before))
            && End(tr, steps) == Apply(End(tr, before), step)
  {
    hide Apply, Enabled, SubsOk, OwnersOk, ClaimsOk, ListenersOk, EventsOk;
    GoodSound(End(tr, steps[..|steps| - 1]));
  }

  lemma StartGood(tr: nat)
    ensures Good(Start(tr))
  {
    var w := Start(tr);
    assert NoLeak(w) && TableOk(w) && BindersOk(w) && NumbersOk(w);
  }

  /** In every run: a connection that owns a forward is registered, and a forward
      that nobody owns is being bound this moment. */
  lemma OwnersRegistered(tr: nat, steps: seq<Step>, g: nat)
    requires Possible(tr, steps) && g in End(tr, steps).core.forwards
    ensures var c := End(tr, steps).core;
            && (forall s :: ConnOwner(s) in c.forwards[g].owners ==> s in c.sessions)
            && (c.forwards[g].owners == map[] ==> c.forwards[g].binding && c.forwards[g].closer.None?)
  {
    hide SubsOk, ClaimsOk, ListenersOk, EventsOk, Possible, End;
    var w := End(tr, steps);
    assert Good(w);
  }

  /** In every run: whoever a listener was bound for, it is closed, gone with its
      transport, or in exactly one hand, a forward's on the live transport or a
      binder's. */
  lemma ListenersAccounted(tr: nat, steps: seq<Step>, l: nat)
    requires Possible(tr, steps) && l in End(tr, steps).made
    ensures var w := End(tr, steps);
            && (l in w.closed || w.made[l] in w.dropped || HeldByForward(w, l) || HeldByBinder(w, l))
            && !(HeldByForward(w, l) && HeldByBinder(w, l))
            && (HeldByForward(w, l) ==> l !in w.closed && w.core.tr == Some(w.made[l]) && w.made[l] !in w.dropped)
            && (HeldByBinder(w, l) ==> l !in w.closed)
            && (forall g, h | g in w.core.forwards && h in w.core.forwards ::
                  w.core.forwards[g].closer == Some(l) == w.core.forwards[h].closer ==> g == h)
  {
    hide SubsOk, OwnersOk, EventsOk, ClaimsOk, Possible, End;
    var w := End(tr, steps);
    assert Good(w);
  }

  /** In every run: two binds never work on one slot. */
  lemma OneBinder(tr: nat, steps: seq<Step>, k: nat, l: nat)
    requires Possible(tr, steps) && k in End(tr, steps).claims && l in End(tr, steps).claims
    requires End(tr, steps).claims[k].guest == End(tr, steps).claims[l].guest
    ensures k == l
  {
    hide SubsOk, OwnersOk, EventsOk, ListenersOk, Possible, End;
    assert Good(End(tr, steps));
  }

  /** In every run: a send into a reply channel finds it empty, so it never
      blocks, and what a delivery returns its own session sent, naming its id. */
  lemma RepliesMatch(tr: nat, steps: seq<Step>)
    requires Possible(tr, steps)
    ensures var w := End(tr, steps);
            && (forall x :: x in w.sending ==> x.id in w.deliveries && w.deliveries[x.id].chan == [] && w.deliveries[x.id].received.None?)
            && (forall id :: id in w.deliveries && w.deliveries[id].received.Some? ==>
                  (w.deliveries[id].s, id, w.deliveries[id].received.value) in w.replies)
            && (forall s: nat :: BeginDelivery(w.core, s).1.Some? ==> BeginDelivery(w.core, s).1.value !in w.deliveries)
  {
    hide SubsOk, OwnersOk, ClaimsOk, ListenersOk, Possible, End;
    assert Good(End(tr, steps));
  }

  /** A reply to an event that is not awaited from this session, because it was
      answered, given up or is another session's, changes nothing at all. */
  lemma LateReplyIgnored(w: World, s: nat, id: nat, data: string)
    requires Good(w) && s in w.live && id !in w.core.sess[s].pending
    ensures var w' := Apply(w, RouteReply(s, id, data));
            w' == w.(replies := w'.replies)
  {
    GoodSound(w);
    assert w.core.sess[s].pending - {id} == w.core.sess[s].pending;
    assert w.core.sess[s := w.core.sess[s].(pending := w.core.sess[s].pending - {id})] == w.core.sess;
  }

  // ---------------------------------------------------------------------
  // Subscribers
  // ---------------------------------------------------------------------

  ghost predicate SubsRegistered(c: Core) { forall s :: s in c.subs ==> s in c.sessions }

  /** Subscribers are registered sessions until a relay that the dying transport
      unregistered subscribes once more. */
  lemma SubsRegisteredStep(w: World, step: Step)
    requires Good(w) && Enabled(w, step) && SubsRegistered(w.core)
    ensures Sound(w)
    ensures SubsRegistered(Apply(w, step).core) <==> !(step.Sub? && step.s !in w.core.sessions)
  {
    GoodSound(w);
    var c := w.core;
    if !SessionStep(step) {
      OtherStepsKeepSessions(w, step);
      hide Apply, Good;
    } else {
      hide DropOwners, RemoveSess, RemoveAll, Good;
      match step {
        case Sub(s) =>
          RemoveSessExact(c.subs, s);
          assert s in [s] + RemoveSess(c.subs, s);
        case Unsub(s) => RemoveSessExact(c.subs, s);
        case Close(s) => RemoveSessExact(c.subs, s);
        case TransportDies => RemoveAllExact(c.subs, Relays(c));
        case Open(_) =>
      }
    }
  }

  lemma RelayDies(w: World, s: nat)
    requires Good(w) && s in Relays(w.core) && w.core.tr.Some?
    ensures Enabled(w, TransportDies) && Sound(w)
    ensures var v := Apply(w, TransportDies);
            Enabled(v, Sub(s)) && Sound(v) && var c := Apply(v, Sub(s)).core; c.subs != [] && c.subs[0] == s && s !in c.sessions
  {
    GoodSound(w);
    assert s in w.live;
    hide OwnersOk, ClaimsOk, ListenersOk, EventsOk, RemoveSess, RemoveAll, DropOwners;
    DropOwnersExact(w.core.(up := false, sessions := w.core.sessions - Relays(w.core), subs := RemoveAll(w.core.subs, Relays(w.core))),
                    ConnOwners(Relays(w.core)));
    hide SubsOk;
  }

  /** Every run with a registered relay goes on to such a step: the transport dies,
      then the relay's worker reads a subscribe that was already queued. */
  lemma UnregisteredSubscriber(tr: nat, before: seq<Step>, s: nat)
    requires Possible(tr, before) && s in Relays(End(tr, before).core) && End(tr, before).core.tr.Some?
    ensures var steps := before + [TransportDies] + [Sub(s)];
            Possible(tr, steps) && var c := End(tr, steps).core; c.subs != [] && c.subs[0] == s && s !in c.sessions
  {
    hide Possible, End, Good, Apply, Enabled;
    RelayDies(End(tr, before), s);
    Longer(tr, before, TransportDies);
    Longer(tr, before + [TransportDies], Sub(s));
  }

  /** ... and the first relay makes such a run. */
  lemma FirstRelay(tr: nat)
    ensures Possible(tr, [Open(true)]) && End(tr, [Open(true)]).core.tr.Some? && 1 in Relays(End(tr, [Open(true)]).core)
  {
    var none: seq<Step> := [];
    assert Possible(tr, none) && End(tr, none) == Start(tr);
    assert none + [Open(true)] == [Open(true)];
    hide Possible, End, Good;
    Longer(tr, none, Open(true));
    assert End(tr, [Open(true)]) == Apply(Start(tr), Open(true));
    assert OpenSession(Start(tr).core, true).1 == Some(1);
  }

  /** When session `s` last subscribed, -1 for never. */
  ghost function LastSub(steps: seq<Step>, s: nat): (i: int)
    ensures -1 <= i < |steps|
  {
    var n := |steps|;
    if n == 0 then -1 else if steps[n - 1] == Sub(s) then n - 1 else LastSub(steps[..n - 1], s)
  }

  /** `list` is in the order of the last subscribe, the newest first. */
  ghost predicate NewestFirst(steps: seq<Step>, list: seq<nat>) {
    && (forall i :: 0 <= i < |list| ==> LastSub(steps, list[i]) >= 0)
    && (forall i, j :: 0 <= i < j < |list| ==> LastSub(steps, list[i]) > LastSub(steps, list[j]))
  }

  lemma {:induction false} RemoveKeepsOrder(steps: seq<Step>, list: seq<nat>, s: nat, gone: set<nat>)
    requires NewestFirst(steps, list)
    ensures NewestFirst(steps, RemoveSess(list, s)) && NewestFirst(steps, RemoveAll(list, gone))
  {
    if list != [] {
      var rest := list[1..];
      assert NewestFirst(steps, rest);
      RemoveKeepsOrder(steps, rest, s, gone);
      RemoveSessExact(rest, s);
      RemoveAllExact(rest, gone);
      ConsKeepsOrder(steps, list, RemoveSess(rest, s));
      ConsKeepsOrder(steps, list, RemoveAll(rest, gone));
    }
  }

  lemma ConsKeepsOrder(steps: seq<Step>, list: seq<nat>, rest: seq<nat>)
    requires list != [] && NewestFirst(steps, list) && NewestFirst(steps, rest)
    requires forall x :: x in rest ==> x in list[1..]
    ensures NewestFirst(steps, [list[0]] + rest)
  {
    var all := [list[0]] + rest;
    forall i, j | 0 <= i < j < |all| ensures LastSub(steps, all[i]) > LastSub(steps, all[j]) {
      assert all[j] == rest[j - 1];
      if i == 0 {
        assert rest[j - 1] in list[1..];
      } else {
        assert all[i] == rest[i - 1];
      }
    }
  }

  /** One more step moves only the session that subscribed. */
  lemma LaterOrder(before: seq<Step>, step: Step, list: seq<nat>)
    requires NewestFirst(before, list) && (step.Sub? ==> step.s !in list)
    ensures NewestFirst(before + [step], list)
  {
    assert (before + [step])[..|before|] == before;
    forall i | 0 <= i < |list| ensures LastSub(before + [step], list[i]) == LastSub(before, list[i]) {
    }
  }

  /** In every run the subscribers are in the order of their last subscribe, the
      newest first, so the newest is asked first. */
  lemma {:induction false} SubsNewestFirst(tr: nat, steps: seq<Step>)
    requires Possible(tr, steps)
    ensures NewestFirst(steps, End(tr, steps).core.subs)
  {
    if steps != [] {
      var before, step := steps[..|steps| - 1], steps[|steps| - 1];
      LastStep(tr, steps);
      SubsNewestFirst(tr, before);
      var w := End(tr, before);
      assert Good(w);
      hide Good, Possible, End, Apply, Enabled, NewestFirst;
      SubsOrderStep(w, step, before);
    }
  }

  lemma SubsOrderStep(w: World, step: Step, before: seq<Step>)
    requires Good(w) && Enabled(w, step) && NewestFirst(before, w.core.subs)
    ensures Sound(w) && NewestFirst(before + [step], Apply(w, step).core.subs)
  {
    GoodSound(w);
    var list := w.core.subs;
    if !SessionStep(step) {
      OtherStepsKeepSessions(w, step);
      hide Apply, NewestFirst, Good;
      LaterOrder(before, step, list);
    } else {
      hide DropOwners, RemoveSess, RemoveAll, NewestFirst, Good;
      match step {
        case Sub(s) =>
          RemoveKeepsOrder(before, list, s, {});
          RemoveSessExact(list, s);
          LaterOrder(before, step, RemoveSess(list, s));
          NewestIsLast(before, s, RemoveSess(list, s));
        case Unsub(s) =>
          RemoveKeepsOrder(before, list, s, {});
          LaterOrder(before, step, RemoveSess(list, s));
        case Close(s) =>
          RemoveKeepsOrder(before, list, s, {});
          LaterOrder(before, step, RemoveSess(list, s));
        case TransportDies =>
          RemoveKeepsOrder(before, list, 0, Relays(w.core));
          LaterOrder(before, step, RemoveAll(list, Relays(w.core)));
        case Open(_) => LaterOrder(before, step, list);
      }
    }
  }

  lemma NewestIsLast(before: seq<Step>, s: nat, rest: seq<nat>)
    requires NewestFirst(before + [Sub(s)], rest) && s !in rest
    ensures NewestFirst(before + [Sub(s)], [s] + rest)
  {
    var steps, all := before + [Sub(s)], [s] + rest;
    assert LastSub(steps, s) == |before|;
    assert steps[..|before|] == before;
    forall i | 0 <= i < |rest| ensures LastSub(steps, rest[i]) < |before| {
      assert rest[i] in rest;
    }
    forall i, j | 0 <= i < j < |all| ensures LastSub(steps, all[i]) > LastSub(steps, all[j]) {
      assert all[j] == rest[j - 1];
    }
  }
}
