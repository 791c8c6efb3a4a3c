/** The forward daemon's state and its critical sections: everything a session,
    a bind in flight, the reconnect loop and the browser bridge do under the one
    lock. */
module Daemon {
  import opened Wrappers

  /** Who holds a forward: the config file, a callback's time to live, or the
      session connection `id`. */
  datatype Owner = ConfOwner | TtlOwner | ConnOwner(id: nat)

  /** One forward record. `id` is the record's identity (the source compares
      pointers); `closer` names the listener, None while the forward is pending;
      `owners` gives each owner's expiry, 0 for none. */
  datatype Fwd = Fwd(id: nat, host: int, exact: bool, closer: Option<nat>, binding: bool, owners: map<Owner, int>)

  /** One session connection: `pending` are the events it has not answered. */
  datatype Sess = Sess(relay: bool, pending: set<nat>)

  /** What the lock protects. `sess` holds every session ever opened, `sessions`
      those registered; `tr` names the current transport. */
  datatype Core = Core(
    tr: Option<nat>, up: bool,
    forwards: map<nat, Fwd>,
    sess: map<nat, Sess>, sessions: set<nat>, subs: seq<nat>,
    nextConn: nat, nextEvent: nat, nextFwd: nat)

  predicate Relay(c: Core, s: nat) { s in c.sess && c.sess[s].relay }

  // ---------------------------------------------------------------------
  // Forwards
  // ---------------------------------------------------------------------

  /** The record `fid` is the one in the table for `guest`. */
  predicate Current(c: Core, guest: nat, fid: nat) { guest in c.forwards && c.forwards[guest].id == fid }

  /** settleLocked: the claim on the slot ends; a slot nobody owns goes. */
  function Settle(c: Core, guest: nat, fid: nat): Core {
    if !Current(c, guest, fid) then c
    else if c.forwards[guest].owners == map[] then c.(forwards := c.forwards - {guest})
    else c.(forwards := c.forwards[guest := c.forwards[guest].(binding := false)])
  }

  /** What one forward looks like without the owners in `gone`, or None if
      releaseLocked deletes it: its last owner went and nobody is binding it. */
  function Without(f: Fwd, gone: set<Owner>): Option<Fwd> {
    var f' := f.(owners := f.owners - gone);
    if f'.owners == map[] && !f'.binding then None else Some(f')
  }

  /** dropOwnersLocked for the owners `gone`. */
  function DropOwners(c: Core, gone: set<Owner>): Core {
    c.(forwards := map g | g in c.forwards && Without(c.forwards[g], gone).Some? :: Without(c.forwards[g], gone).value)
  }

  /** The listeners dropOwnersLocked hands back to be closed. */
  function Released(c: Core, gone: set<Owner>): set<nat> {
    set g | g in c.forwards && Without(c.forwards[g], gone).None? && c.forwards[g].closer.Some? :: c.forwards[g].closer.value
  }

  /** bridgeHeldLocked: no conf owner, and a ttl or a local session's. */
  predicate BridgeHeld(c: Core, f: Fwd) {
    && ConfOwner !in f.owners
    && exists o | o in f.owners.Keys ::
         o.TtlOwner? || (o.ConnOwner? && o.id in c.sessions && !Relay(c, o.id))
  }

  const MAX_EPHEMERAL: nat := 20

  function HeldPorts(c: Core): set<nat> { set g | g in c.forwards && BridgeHeld(c, c.forwards[g]) }

  datatype AddRequest = AddRequest(pref: int, guest: nat, exact: bool, own: Owner, expires: int, capped: bool)

  datatype AddOutcome =
    | SessionGone
    | Wait
    | PortBusy
    | NotAdmitted
    | Recorded(host: int, pending: bool, added: bool)
    | Claimed(fid: nat, tr: nat, target: int, exact: bool, added: bool)

  /** addOwner: a new owner, or a later expiry for one that is there. */
  function AddOwner(f: Fwd, own: Owner, expires: int): Fwd {
    if own in f.owners && expires <= f.owners[own] then f else f.(owners := f.owners[own := expires])
  }

  /** The critical section of addWith. */
  function Add(c: Core, q: AddRequest): (Core, AddOutcome) {
    if q.own.ConnOwner? && q.own.id !in c.sessions then (c, SessionGone)
    else if q.guest in c.forwards && c.forwards[q.guest].binding then (c, Wait)
    else if q.guest in c.forwards && q.exact && c.forwards[q.guest].host != q.pref then (c, PortBusy)
    else if q.guest !in c.forwards && q.capped && |HeldPorts(c)| >= MAX_EPHEMERAL then (c, NotAdmitted)
    else
      var known := q.guest in c.forwards;
      var live := known && c.forwards[q.guest].closer.Some?;
      var added := !known || q.own !in c.forwards[q.guest].owners;
      if live || !c.up || c.tr.None? then
        var f :=
          if known then
            var g := AddOwner(c.forwards[q.guest], q.own, q.expires);
            g.(exact := g.exact || q.exact)
          else Fwd(c.nextFwd, q.pref, q.exact, None, false, map[q.own := q.expires]);
        (c.(forwards := c.forwards[q.guest := f], nextFwd := if known then c.nextFwd else c.nextFwd + 1),
         Recorded(f.host, f.closer.None?, added))
      else
        var f := if known then AddOwner(c.forwards[q.guest], q.own, q.expires)
                 else Fwd(c.nextFwd, q.pref, false, None, false, map[q.own := q.expires]);
        var keep := known && f.exact;
        (c.(forwards := c.forwards[q.guest := f.(binding := true)], nextFwd := if known then c.nextFwd else c.nextFwd + 1),
         Claimed(f.id, c.tr.value, if keep then f.host else q.pref, keep || q.exact, added))
  }

  /** The critical section of adopt: false when the listener is not wanted. */
  function Adopt(c: Core, guest: nat, fid: nat, tr: nat, host: int, closer: nat, exact: bool): (Core, bool) {
    var d := Settle(c, guest, fid);
    if !Current(d, guest, fid) || d.forwards[guest].closer.Some? || d.tr != Some(tr) then (d, false)
    else
      var f := d.forwards[guest];
      (d.(forwards := d.forwards[guest := f.(host := host, closer := Some(closer), exact := f.exact || exact)]), true)
  }

  /** bindSlot's critical section after a failed bind: pending if the transport
      died under it (true), else only the add's own new owner goes. */
  function BindFailed(c: Core, guest: nat, fid: nat, tr: nat, own: Owner, added: bool, dead: bool): (Core, bool) {
    var d := Settle(c, guest, fid);
    if !Current(d, guest, fid) || d.forwards[guest].closer.Some? then (d, false)
    else if d.tr != Some(tr) || !d.up || dead then (d, true)
    else if !added then (d, false)
    else
      var owners := d.forwards[guest].owners - {own};
      if owners == map[] then (d.(forwards := d.forwards - {guest}), false)
      else (d.(forwards := d.forwards[guest := d.forwards[guest].(owners := owners)]), false)
  }

  /** remove: one owner of one forward. */
  function Remove(c: Core, guest: nat, own: Owner): Core {
    if guest !in c.forwards then c
    else match Without(c.forwards[guest], {own})
         case None => c.(forwards := c.forwards - {guest})
         case Some(f) => c.(forwards := c.forwards[guest := f])
  }

  /** The ttl owner, if it is past its expiry anywhere. */
  function Expire(c: Core, now: int): Core {
    c.(forwards := map g | g in c.forwards && Without(c.forwards[g], Lapsed(c.forwards[g], now)).Some?
                       :: Without(c.forwards[g], Lapsed(c.forwards[g], now)).value)
  }

  function Lapsed(f: Fwd, now: int): set<Owner> {
    if TtlOwner in f.owners && f.owners[TtlOwner] != 0 && f.owners[TtlOwner] <= now then {TtlOwner} else {}
  }

  /** relayOnlyLocked: nothing but relays, or sessions already gone, holds it. */
  predicate RelayOnly(c: Core, f: Fwd) {
    && f.owners != map[]
    && forall o | o in f.owners.Keys :: o.ConnOwner? && (o.id in c.sessions ==> Relay(c, o.id))
  }

  /** A forward rebindPending may claim. */
  predicate Rebindable(c: Core, g: nat) {
    g in c.forwards && c.forwards[g].closer.None? && !c.forwards[g].binding && !RelayOnly(c, c.forwards[g])
  }

  /** One claim of rebindPending's batch. */
  function ClaimSlot(c: Core, g: nat): Core
    requires g in c.forwards
  {
    c.(forwards := c.forwards[g := c.forwards[g].(binding := true)])
  }

  /** detachLocked: every forward is pending, and the transport is taken. */
  function Detach(c: Core): Core {
    c.(forwards := map g | g in c.forwards :: c.forwards[g].(closer := None), tr := None)
  }

  // ---------------------------------------------------------------------
  // Sessions, subscribers and events
  // ---------------------------------------------------------------------

  function RemoveSess(list: seq<nat>, s: nat): seq<nat> {
    if list == [] then []
    else if list[0] == s then RemoveSess(list[1..], s)
    else [list[0]] + RemoveSess(list[1..], s)
  }

  function RemoveAll(list: seq<nat>, gone: set<nat>): seq<nat> {
    if list == [] then []
    else if list[0] in gone then RemoveAll(list[1..], gone)
    else [list[0]] + RemoveAll(list[1..], gone)
  }

  /** openSession: a relay only while the transport is up. */
  function OpenSession(c: Core, relay: bool): (Core, Option<nat>) {
    if relay && (!c.up || c.tr.None?) then (c, None)
    else
      var s := c.nextConn + 1;
      (c.(nextConn := s, sess := c.sess[s := Sess(relay, {})], sessions := c.sessions + {s}), Some(s))
  }

  /** closeSession: registration, subscription, undelivered replies and owners go
      in one critical section. */
  function CloseSession(c: Core, s: nat): Core
    requires s in c.sess
  {
    DropOwners(c.(sessions := c.sessions - {s}, subs := RemoveSess(c.subs, s), sess := c.sess[s := c.sess[s].(pending := {})]),
               {ConnOwner(s)})
  }

  function Subscribe(c: Core, s: nat): Core { c.(subs := [s] + RemoveSess(c.subs, s)) }

  function Unsubscribe(c: Core, s: nat): Core { c.(subs := RemoveSess(c.subs, s)) }

  function Relays(c: Core): set<nat> { set s | s in c.sessions && Relay(c, s) }

  function ConnOwners(ids: set<nat>): set<Owner> { set s | s in ids :: ConnOwner(s) }

  /** onDead: reconnecting, every relay session and its owners gone, everything
      pending, the transport taken. */
  function OnDead(c: Core): Core {
    var relays := Relays(c);
    Detach(DropOwners(c.(up := false, sessions := c.sessions - relays, subs := RemoveAll(c.subs, relays)), ConnOwners(relays)))
  }

  /** deliverTo's first critical section: a new event id, if the subscriber is
      still registered. */
  function BeginDelivery(c: Core, s: nat): (Core, Option<nat>) {
    if s !in c.sessions || s !in c.sess then (c, None)
    else
      var id := c.nextEvent + 1;
      (c.(nextEvent := id, sess := c.sess[s := c.sess[s].(pending := c.sess[s].pending + {id})]), Some(id))
  }

  /** routeReply, and the end of deliverTo: the event is no longer awaited. */
  function TakePending(c: Core, s: nat, id: nat): (Core, bool)
    requires s in c.sess
  {
    (c.(sess := c.sess[s := c.sess[s].(pending := c.sess[s].pending - {id})]), id in c.sess[s].pending)
  }
}
