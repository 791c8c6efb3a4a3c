/** The daemon as the object it is: fields under one lock, and the critical
    sections as methods that update them, each proved to do what the section's
    function in module Daemon says. */
module DaemonState {
  import opened Wrappers
  import D = Daemon

  lemma {:induction false} RemoveOneMore(list: seq<nat>, gone: set<nat>, s: nat)
    ensures D.RemoveSess(D.RemoveAll(list, gone), s) == D.RemoveAll(list, gone + {s})
  {
    if list != [] {
      RemoveOneMore(list[1..], gone, s);
    }
  }

  lemma {:induction false} RemoveNone(list: seq<nat>)
    ensures D.RemoveAll(list, {}) == list
  {
    if list != [] {
      RemoveNone(list[1..]);
    }
  }

  lemma {:induction false} RemoveSessNext(list: seq<nat>, i: nat, s: nat)
    requires i < |list|
    ensures D.RemoveSess(list[..i + 1], s) == D.RemoveSess(list[..i], s) + if list[i] != s then [list[i]] else []
  {
    if i > 0 {
      RemoveSessNext(list[1..], i - 1, s);
      assert list[1..][..i] == list[..i + 1][1..] && list[1..][..i - 1] == list[..i][1..];
    } else {
      assert list[..1][1..] == [] && list[..0] == [];
    }
  }

  class State {
    var tr: Option<nat>
    var up: bool
    var forwards: map<nat, D.Fwd>
    var sess: map<nat, D.Sess>
    var sessions: set<nat>
    var subs: seq<nat>
    var nextConn: nat
    var nextEvent: nat
    var nextFwd: nat

    ghost function Abs(): D.Core reads this {
      D.Core(tr, up, forwards, sess, sessions, subs, nextConn, nextEvent, nextFwd)
    }

    constructor (tr: nat)
      ensures Abs() == D.Core(Some(tr), true, map[], map[], {}, [], 0, 0, 0)
    {
      this.tr := Some(tr);
      up := true;
      forwards, sess, sessions, subs := map[], map[], {}, [];
      nextConn, nextEvent, nextFwd := 0, 0, 0;
    }

    // -------------------------------------------------------------------
    // Forwards
    // -------------------------------------------------------------------

    /** settleLocked. */
    method SettleLocked(guest: nat, fid: nat)
      modifies this`forwards
      ensures Abs() == D.Settle(old(Abs()), guest, fid)
    {
      if guest in forwards && forwards[guest].id == fid {
        if forwards[guest].owners == map[] {
          forwards := forwards - {guest};
        } else {
          forwards := forwards[guest := forwards[guest].(binding := false)];
        }
      }
    }

    /** releaseLocked: the closer of a forward whose last owner went, for the
        caller to close. */
    method ReleaseLocked(guest: nat) returns (closer: Option<nat>)
      requires guest in forwards
      modifies this`forwards
      ensures var f := old(forwards[guest]);
              if f.owners != map[] || f.binding then closer == None && forwards == old(forwards)
              else closer == f.closer && forwards == old(forwards) - {guest}
    {
      var f := forwards[guest];
      if f.owners != map[] || f.binding {
        return None;
      }
      forwards := forwards - {guest};
      return f.closer;
    }

    /** dropOwnersLocked: the loop deletes from the table it walks. */
    method DropOwnersLocked(gone: set<D.Owner>) returns (closers: seq<nat>)
      modifies this`forwards
      ensures Abs() == D.DropOwners(old(Abs()), gone)
      ensures forall l :: l in closers <==> l in D.Released(old(Abs()), gone)
    {
      ghost var was := forwards;
      closers := [];
      var todo: set<nat> := forwards.Keys;
      while todo != {}
        invariant todo <= was.Keys && forwards.Keys <= was.Keys
        invariant forall g :: g in todo ==> g in forwards && forwards[g] == was[g]
        invariant forall g :: g in was && g !in todo ==>
                    if D.Without(was[g], gone).Some? then g in forwards && forwards[g] == D.Without(was[g], gone).value
                    else g !in forwards && (was[g].closer.Some? ==> was[g].closer.value in closers)
        invariant forall l :: l in closers ==>
                    exists g :: g in was && g !in todo && D.Without(was[g], gone).None? && was[g].closer == Some(l)
        decreases todo
      {
        var g :| g in todo;
        todo := todo - {g};
        ghost var before := closers;
        var f := forwards[g];
        forwards := forwards[g := f.(owners := f.owners - gone)];
        var c := ReleaseLocked(g);
        if c.Some? {
          closers := closers + [c.value];
        }
        forall l | l in closers
          ensures exists h :: h in was && h !in todo && D.Without(was[h], gone).None? && was[h].closer == Some(l)
        {
          if l in before {
            var h :| h in was && h !in todo + {g} && D.Without(was[h], gone).None? && was[h].closer == Some(l);
            assert h !in todo;
          } else {
            assert was[g].closer == Some(l);
          }
        }
      }
      assert forwards == D.DropOwners(old(Abs()), gone).forwards;
    }

    ghost predicate Holds(o: D.Owner) reads this {
      o.TtlOwner? || (o.ConnOwner? && o.id in sessions && !D.Relay(Abs(), o.id))
    }

    /** bridgeHeldLocked. */
    method BridgeHeldLocked(f: D.Fwd) returns (held: bool)
      ensures held <==> D.BridgeHeld(Abs(), f)
    {
      held := false;
      var todo := f.owners.Keys;
      while todo != {}
        invariant todo <= f.owners.Keys && D.ConfOwner !in f.owners.Keys - todo
        invariant held <==> exists o :: o in f.owners.Keys && o !in todo && Holds(o)
        decreases todo
      {
        var o :| o in todo;
        ghost var before := todo;
        todo := todo - {o};
        assert forall p :: p in f.owners.Keys && p !in todo <==> (p in f.owners.Keys && p !in before) || p == o;
        match o {
          case ConfOwner => return false;
          case TtlOwner => held := true;
          case ConnOwner(id) =>
            if id in sessions && !(id in sess && sess[id].relay) {
              held := true;
            }
        }
      }
    }

    /** ephemeralRoomLocked: room for one more forward the bridge holds. */
    method EphemeralRoomLocked() returns (room: bool)
      ensures room <==> |D.HeldPorts(Abs())| < D.MAX_EPHEMERAL
    {
      var n := 0;
      var todo: set<nat> := forwards.Keys;
      ghost var held: set<nat> := {};
      while todo != {}
        invariant todo <= forwards.Keys && n == |held|
        invariant held == set g | g in forwards.Keys - todo && D.BridgeHeld(Abs(), forwards[g])
        decreases todo
      {
        var g :| g in todo;
        var h := BridgeHeldLocked(forwards[g]);
        assert g !in held;
        todo := todo - {g};
        if h {
          n := n + 1;
          held := held + {g};
        }
      }
      assert held == D.HeldPorts(Abs());
      return n < D.MAX_EPHEMERAL;
    }

    /** addWith's critical section. */
    method AddLocked(q: D.AddRequest) returns (out: D.AddOutcome)
      modifies this`forwards, this`nextFwd
      ensures (Abs(), out) == D.Add(old(Abs()), q)
    {
      if q.own.ConnOwner? && q.own.id !in sessions {
        return D.SessionGone;
      }
      var known := q.guest in forwards;
      if known && forwards[q.guest].binding {
        return D.Wait;
      }
      if known && q.exact && forwards[q.guest].host != q.pref {
        return D.PortBusy;
      }
      if !known && q.capped {
        var room := EphemeralRoomLocked();
        if !room {
          return D.NotAdmitted;
        }
      }
      hide D.HeldPorts;
      var f, added := D.Fwd(nextFwd, q.pref, false, None, false, map[q.own := q.expires]), true;
      if known {
        f := forwards[q.guest];
        added := q.own !in f.owners;
        if added || f.owners[q.own] < q.expires {
          f := f.(owners := f.owners[q.own := q.expires]);
        }
      } else {
        nextFwd := nextFwd + 1;
      }
      if f.closer.Some? || !up || tr.None? {
        if q.exact {
          f := f.(exact := true);
        }
        forwards := forwards[q.guest := f];
        return D.Recorded(f.host, f.closer.None?, added);
      }
      var target, exact := q.pref, q.exact;
      if f.exact {
        target, exact := f.host, true;
      }
      forwards := forwards[q.guest := f.(binding := true)];
      return D.Claimed(f.id, tr.value, target, exact, added);
    }

    /** adopt: whether the listener is the forward's now; if not, it is the
        caller's to close. */
    method Adopt(guest: nat, fid: nat, t: nat, host: int, closer: nat, exact: bool) returns (kept: bool)
      modifies this`forwards
      ensures (Abs(), kept) == D.Adopt(old(Abs()), guest, fid, t, host, closer, exact)
    {
      SettleLocked(guest, fid);
      if guest !in forwards || forwards[guest].id != fid || forwards[guest].closer.Some? || tr != Some(t) {
        return false;
      }
      var f := forwards[guest];
      forwards := forwards[guest := f.(host := host, closer := Some(closer), exact := f.exact || exact)];
      return true;
    }

    /** bindSlot after its bind failed. */
    method BindFailed(guest: nat, fid: nat, t: nat, own: D.Owner, added: bool, dead: bool) returns (pending: bool)
      modifies this`forwards
      ensures (Abs(), pending) == D.BindFailed(old(Abs()), guest, fid, t, own, added, dead)
    {
      SettleLocked(guest, fid);
      var mine := guest in forwards && forwards[guest].id == fid && forwards[guest].closer.None?;
      if mine && (tr != Some(t) || !up || dead) {
        return true;
      }
      if mine && added {
        var f := forwards[guest];
        f := f.(owners := f.owners - {own});
        forwards := if f.owners == map[] then forwards - {guest} else forwards[guest := f];
      }
      return false;
    }

    /** remove. */
    method Remove(guest: nat, own: D.Owner) returns (closer: Option<nat>)
      modifies this`forwards
      ensures Abs() == D.Remove(old(Abs()), guest, own)
      ensures var c := old(Abs());
              closer == if guest in c.forwards && D.Without(c.forwards[guest], {own}).None? then c.forwards[guest].closer else None
    {
      if guest !in forwards {
        return None;
      }
      var f := forwards[guest];
      forwards := forwards[guest := f.(owners := f.owners - {own})];
      closer := ReleaseLocked(guest);
    }

    // -------------------------------------------------------------------
    // Sessions, subscribers and events
    // -------------------------------------------------------------------

    /** removeSess, into a new list. */
    static method RemoveSess(list: seq<nat>, s: nat) returns (out: seq<nat>)
      ensures out == D.RemoveSess(list, s)
    {
      out := [];
      for i := 0 to |list|
        invariant out == D.RemoveSess(list[..i], s)
      {
        RemoveSessNext(list, i, s);
        if list[i] != s {
          out := out + [list[i]];
        }
      }
      assert list[..|list|] == list;
    }

    method OpenSession(relay: bool) returns (s: Option<nat>)
      modifies this`nextConn, this`sess, this`sessions
      ensures (Abs(), s) == D.OpenSession(old(Abs()), relay)
    {
      if relay && (!up || tr.None?) {
        return None;
      }
      nextConn := nextConn + 1;
      sess := sess[nextConn := D.Sess(relay, {})];
      sessions := sessions + {nextConn};
      return Some(nextConn);
    }

    method CloseSession(s: nat) returns (closers: seq<nat>)
      requires s in sess
      modifies this`sess, this`sessions, this`subs, this`forwards
      ensures Abs() == D.CloseSession(old(Abs()), s)
      ensures forall l :: l in closers <==> l in D.Released(old(Abs()), {D.ConnOwner(s)})
    {
      sessions := sessions - {s};
      subs := RemoveSess(subs, s);
      sess := sess[s := sess[s].(pending := {})];
      closers := DropOwnersLocked({D.ConnOwner(s)});
    }

    method Subscribe(s: nat)
      modifies this`subs
      ensures Abs() == D.Subscribe(old(Abs()), s)
    {
      var rest := RemoveSess(subs, s);
      subs := [s] + rest;
    }

    method Unsubscribe(s: nat)
      modifies this`subs
      ensures Abs() == D.Unsubscribe(old(Abs()), s)
    {
      subs := RemoveSess(subs, s);
    }

    /** relaySessionsLocked. */
    method RelaySessionsLocked() returns (out: set<nat>)
      ensures out == D.Relays(Abs())
    {
      out := {};
      var todo := sessions;
      while todo != {}
        invariant todo <= sessions
        invariant out == set s | s in sessions - todo && D.Relay(Abs(), s)
        decreases todo
      {
        var s :| s in todo;
        todo := todo - {s};
        if s in sess && sess[s].relay {
          out := out + {s};
        }
      }
    }

    /** onDead's critical section, with the transport it takes. */
    method OnDead() returns (taken: Option<nat>)
      modifies this`up, this`sessions, this`subs, this`forwards, this`tr
      ensures Abs() == D.OnDead(old(Abs())) && taken == old(tr)
    {
      up := false;
      var relays := RelaySessionsLocked();
      assert relays == D.Relays(old(Abs()));
      var todo := relays;
      RemoveNone(subs);
      assert relays - todo == {};
      while todo != {}
        invariant todo <= relays && !up && forwards == old(forwards) && tr == old(tr)
        invariant sessions == old(sessions) - (relays - todo)
        invariant subs == D.RemoveAll(old(subs), relays - todo)
        decreases todo
      {
        var s :| s in todo;
        RemoveOneMore(old(subs), relays - todo, s);
        assert relays - todo + {s} == relays - (todo - {s});
        todo := todo - {s};
        sessions := sessions - {s};
        subs := RemoveSess(subs, s);
      }
      assert relays - todo == relays;
      ghost var c := old(Abs());
      ghost var c1 := c.(up := false, sessions := c.sessions - relays, subs := D.RemoveAll(c.subs, relays));
      assert Abs() == c1;
      hide D.DropOwners, D.Detach;
      var _ := DropOwnersLocked(D.ConnOwners(relays));
      taken := DetachLocked();
    }

    /** detachLocked. */
    method DetachLocked() returns (taken: Option<nat>)
      modifies this`forwards, this`tr
      ensures Abs() == D.Detach(old(Abs())) && taken == old(tr)
    {
      var todo: set<nat> := forwards.Keys;
      while todo != {}
        invariant todo <= forwards.Keys == old(forwards).Keys && tr == old(tr)
        invariant forall g :: g in forwards ==>
                    forwards[g] == if g in todo then old(forwards)[g] else old(forwards)[g].(closer := None)
        decreases todo
      {
        var g :| g in todo;
        todo := todo - {g};
        forwards := forwards[g := forwards[g].(closer := None)];
      }
      assert forwards == D.Detach(old(Abs())).forwards;
      taken := tr;
      tr := None;
    }

    /** deliverTo's first critical section. */
    method BeginDelivery(s: nat) returns (id: Option<nat>)
      modifies this`nextEvent, this`sess
      ensures (Abs(), id) == D.BeginDelivery(old(Abs()), s)
    {
      if s !in sessions || s !in sess {
        return None;
      }
      nextEvent := nextEvent + 1;
      sess := sess[s := sess[s].(pending := sess[s].pending + {nextEvent})];
      return Some(nextEvent);
    }

    /** routeReply's critical section, and the one deliverTo ends with. */
    method TakePending(s: nat, id: nat) returns (awaited: bool)
      requires s in sess
      modifies this`sess
      ensures (Abs(), awaited) == D.TakePending(old(Abs()), s, id)
    {
      awaited := id in sess[s].pending;
      sess := sess[s := sess[s].(pending := sess[s].pending - {id})];
    }
  }
}
