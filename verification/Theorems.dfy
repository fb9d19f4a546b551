/** Statements about every run of the runtime, the bridge and BTstack together. */
module Theorems {
  import opened Gatt
  import opened Bridge
  import opened Server
  import opened Machine
  import opened Links
  import opened Tables
  import opened Delivery
  import opened Ledger
  import opened Stream

  /** What is true of every value ever handed to `rs_notify`. */
  ghost predicate HandedOk(db: seq<Attribute>, log: Log) {
    forall t :: t in log.handed ==>
      && t.item in log.accepted
      && t.peer.Some? && t.peer.value.generation == t.item.connection.generation
      && t.peer.value.handle == t.item.connection.handle
      && NotifyHandle(db, t.item.attribute)
      && |t.item.value| <= MAX_VALUE && |t.item.value| <= Payload(t.item.connection.mtu)
  }

  ghost predicate Inv(db: seq<Attribute>, hyp: Hypotheses, first: nat, s: System) {
    && LinksOk(hyp, s)
    && TablesOk(db, hyp, first, s)
    && BoundaryOk(hyp.oneChange, s.phase, s.bridge.events)
    && (hyp.sixteenLinks ==> WakeOk(s))
    && LedgerOk(s)
    && StreamOk(db, first, s)
    && HandedOk(db, s.log)
  }

  /** A queued value was accepted, because the ledger balances. */
  lemma QueuedWasAccepted(s: System, p: Pending)
    requires LedgerOk(s) && p in s.state.pending
    ensures p in s.log.accepted
  {
    var g := p.connection.generation;
    assert Balanced(s.log.accepted, s.log.dequeued, s.log.purged, s.state.pending, g);
    OfGenMembers(s.state.pending, g);
    OfGenMembers(s.log.accepted, g);
    assert p in OfGen(s.log.accepted, g);
  }

  lemma FlushKeepsHanded(db: seq<Attribute>, hyp: Hypotheses, first: nat, s: System, h: u16, status: byte)
    requires TablesOk(db, hyp, first, s) && LedgerOk(s) && HandedOk(db, s.log)
    ensures HandedOk(db, AfterFlush(s, h, status).log)
  {
    var i := FirstFor(s.state.pending, h);
    if i < |s.state.pending| {
      var p := s.state.pending[i];
      QueuedWasAccepted(s, p);
      assert EntryOk(db, s.state.connections, hyp.mtuGrows, p);
    }
  }

  lemma HandedStep(db: seq<Attribute>, hyp: Hypotheses, first: nat, s: System, l: Label)
    requires TablesOk(db, hyp, first, s) && LedgerOk(s) && HandedOk(db, s.log) && Enabled(hyp, s, l)
    ensures HandedOk(db, Apply(db, s, l).log)
  {
    if l.Process? && l.event.CanSend? {
      FlushKeepsHanded(db, hyp, first, s.(bridge := s.bridge.(events := s.bridge.events[1..])), l.event.handle, l.status);
    }
  }

  lemma InvStep(db: seq<Attribute>, hyp: Hypotheses, first: nat, s: System, l: Label)
    requires WellFormed(db) && hyp.freshLinks && Inv(db, hyp, first, s) && Enabled(hyp, s, l)
    ensures Inv(db, hyp, first, Apply(db, s, l))
  {
    LinksStep(db, hyp, s, l);
    TablesStep(db, hyp, first, s, l);
    BoundaryStep(db, hyp, s, l);
    if hyp.sixteenLinks { WakeStep(db, hyp, first, s, l); }
    LedgerStep(db, hyp, first, s, l);
    StreamStep(db, hyp, first, s, l);
    HandedStep(db, hyp, first, s, l);
  }

  lemma InvInitially(db: seq<Attribute>, hyp: Hypotheses, first: nat)
    ensures Inv(db, hyp, first, Initial(first))
  {
    LinksInitially(hyp, first);
    var s := Initial(first);
    forall g
      ensures Balanced([], [], [], [], g)
    {
    }
  }

  lemma {:induction false} InvAlways(db: seq<Attribute>, hyp: Hypotheses, first: nat, s: System, ls: seq<Label>)
    requires WellFormed(db) && hyp.freshLinks && Inv(db, hyp, first, s) && Runs(db, hyp, s, ls)
    ensures Inv(db, hyp, first, After(db, s, ls))
    decreases |ls|
  {
    if ls != [] {
      InvStep(db, hyp, first, s, ls[0]);
      InvAlways(db, hyp, first, Apply(db, s, ls[0]), ls[1..]);
    }
  }

  /** A session: a run from start-up. */
  ghost predicate Session(db: seq<Attribute>, hyp: Hypotheses, first: nat, ls: seq<Label>) {
    WellFormed(db) && hyp.freshLinks && Runs(db, hyp, Initial(first), ls)
  }

  lemma Reaches(db: seq<Attribute>, hyp: Hypotheses, first: nat, ls: seq<Label>)
    requires Session(db, hyp, first, ls)
    ensures Inv(db, hyp, first, After(db, Initial(first), ls))
  {
    InvInitially(db, hyp, first);
    InvAlways(db, hyp, first, Initial(first), ls);
  }

  // ----- No accepted notification is stranded -----

  /** With at most sixteen links, a queued value always has a wake-up on its way: a waiting slot, a
      posted can-send, a posted disconnect, or the flush of its handle in progress. */
  lemma NoLostWakeup(db: seq<Attribute>, hyp: Hypotheses, first: nat, ls: seq<Label>, p: Pending)
    requires Session(db, hyp, first, ls) && hyp.sixteenLinks
    requires p in After(db, Initial(first), ls).state.pending
    ensures var s := After(db, Initial(first), ls);
            var h := p.connection.handle;
            || (exists i :: 0 <= i < |s.bridge.slots| && s.bridge.slots[i].busy && s.bridge.slots[i].handle == h)
            || CanSend(h) in s.bridge.events
            || Disconnect(h) in s.bridge.events
            || s.phase == Flushing(h)
  {
    Reaches(db, hyp, first, ls);
  }

  /** After the first `k` labels every queued value is awaited; label `k` finds room for its request, if any. */
  ghost predicate AwakeAt(db: seq<Attribute>, first: nat, ls: seq<Label>, k: nat)
    requires k <= |ls|
  {
    WakeOk(After(db, Initial(first), ls[..k]))
  }

  ghost predicate FindsAt(db: seq<Attribute>, first: nat, ls: seq<Label>, k: nat)
    requires k < |ls|
  {
    Finds(db, After(db, Initial(first), ls[..k]), ls[k])
  }

  lemma AwakeStepIff(db: seq<Attribute>, hyp: Hypotheses, first: nat, ls: seq<Label>, k: nat)
    requires Session(db, hyp, first, ls) && k < |ls| && AwakeAt(db, first, ls, k)
    ensures AwakeAt(db, first, ls, k + 1) <==> FindsAt(db, first, ls, k)
  {
    PrefixStep(db, hyp, Initial(first), ls, k);
    Reaches(db, hyp, first, ls[..k]);
    WakeStepIff(db, hyp, first, After(db, Initial(first), ls[..k]), ls[k]);
  }

  lemma {:induction false} AwakeUpTo(db: seq<Attribute>, hyp: Hypotheses, first: nat, ls: seq<Label>, n: nat)
    requires Session(db, hyp, first, ls) && n <= |ls|
    requires forall k :: 0 <= k < n ==> FindsAt(db, first, ls, k)
    ensures AwakeAt(db, first, ls, n)
  {
    if n > 0 {
      AwakeUpTo(db, hyp, first, ls, n - 1);
      AwakeStepIff(db, hyp, first, ls, n - 1);
    } else {
      assert ls[..0] == [];
    }
  }

  /** Any number of links: in a whole run no value is ever without its wake-up if and only if every accepted
      command and every flush with more to send finds its handle waiting, its can-send or disconnect posted,
      or a slot free. */
  lemma WakeupsIff(db: seq<Attribute>, hyp: Hypotheses, first: nat, ls: seq<Label>)
    requires Session(db, hyp, first, ls)
    ensures (forall k :: 0 <= k <= |ls| ==> AwakeAt(db, first, ls, k)) <==> (forall k :: 0 <= k < |ls| ==> FindsAt(db, first, ls, k))
  {
    if forall k :: 0 <= k <= |ls| ==> AwakeAt(db, first, ls, k) {
      forall k | 0 <= k < |ls|
        ensures FindsAt(db, first, ls, k)
      {
        assert AwakeAt(db, first, ls, k) && AwakeAt(db, first, ls, k + 1);
        AwakeStepIff(db, hyp, first, ls, k);
      }
    }
    if forall k :: 0 <= k < |ls| ==> FindsAt(db, first, ls, k) {
      forall k | 0 <= k <= |ls|
        ensures AwakeAt(db, first, ls, k)
      {
        AwakeUpTo(db, hyp, first, ls, k);
      }
    }
  }

  /** The value of one accepted command gets its first wake-up if and only if that command finds room. */
  lemma NotifyWakesIff(db: seq<Attribute>, hyp: Hypotheses, first: nat, ls: seq<Label>, c: Connection, uuid: Uuid, value: seq<byte>)
    requires Session(db, hyp, first, ls)
    requires Enabled(hyp, After(db, Initial(first), ls), Notify(c, uuid, value))
    requires Admit(db, After(db, Initial(first), ls).state, c, uuid, value).Success?
    ensures var s := After(db, Initial(first), ls);
            var s' := Apply(db, s, Notify(c, uuid, value));
            Awaited(s'.phase, s'.bridge, c.handle) <==>
              || Waiting(s.bridge.slots, c.handle)
              || CanSend(c.handle) in s.bridge.events
              || exists i :: 0 <= i < |s.bridge.slots| && !s.bridge.slots[i].busy
  {
    Reaches(db, hyp, first, ls);
    var s := After(db, Initial(first), ls);
    RequestIsAwaitedIff(hyp, s.state.connections, s.bridge, s.links, s.phase, c.handle);
    assert Disconnect(c.handle) !in s.bridge.events;
  }

  /** Across all interleavings no two waiting slots share a handle and every waiting slot's link is live. */
  lemma {:induction false} SlotTableAlways(db: seq<Attribute>, hyp: Hypotheses, s: System, ls: seq<Label>)
    requires LinksOk(hyp, s) && Runs(db, hyp, s, ls)
    ensures SlotsOk(After(db, s, ls).bridge.slots, After(db, s, ls).links.Keys)
    decreases |ls|
  {
    if ls != [] {
      LinksStep(db, hyp, s, ls[0]);
      SlotTableAlways(db, hyp, Apply(db, s, ls[0]), ls[1..]);
    }
  }

  // ----- Order and conservation -----

  /** Per connection: accepted == dequeued, then purged, then pending, in order and without repetition;
      nothing is purged while it lives, and nothing waits once it is gone. */
  lemma FifoAndConservation(db: seq<Attribute>, hyp: Hypotheses, first: nat, ls: seq<Label>, g: nat)
    requires Session(db, hyp, first, ls)
    ensures var s := After(db, Initial(first), ls);
            && OfGen(s.log.accepted, g) == OfGen(s.log.dequeued, g) + OfGen(s.log.purged, g) + OfGen(s.state.pending, g)
            && (if LiveGeneration(s.state.connections, g) then OfGen(s.log.purged, g) == [] else OfGen(s.state.pending, g) == [])
            && |s.state.pending| <= 128
  {
    Reaches(db, hyp, first, ls);
    var s := After(db, Initial(first), ls);
    assert Balanced(s.log.accepted, s.log.dequeued, s.log.purged, s.state.pending, g);
    if LiveGeneration(s.state.connections, g) {
      NothingPurged(s, g);
    } else {
      OneGenerationPerHandle(db, hyp.mtuGrows, first, s.next, s.state);
      OfGenNone(s.state.pending, g);
    }
  }

  /** A disconnect empties its own connection's queue and touches no other's. */
  lemma DisconnectPurgesOneConnection(db: seq<Attribute>, hyp: Hypotheses, first: nat, ls: seq<Label>, h: u16, status: byte, g: nat)
    requires Session(db, hyp, first, ls)
    requires Enabled(hyp, After(db, Initial(first), ls), Process(Disconnect(h), status))
    ensures var s := After(db, Initial(first), ls);
            var s' := Apply(db, s, Process(Disconnect(h), status));
            if h in s.state.connections && s.state.connections[h].generation == g then
              OfGen(s'.state.pending, g) == [] && OfGen(s'.log.purged, g) == OfGen(s.state.pending, g)
            else
              OfGen(s'.state.pending, g) == OfGen(s.state.pending, g) && OfGen(s'.log.purged, g) == OfGen(s.log.purged, g)
  {
    Reaches(db, hyp, first, ls);
    var s := After(db, Initial(first), ls);
    var ps, cs := s.state.pending, s.state.connections;
    forall p | p in ps
      ensures p.connection.generation == g ==> (p.connection.handle == h <==> h in cs && cs[h].generation == g)
    {
      assert EntryOk(db, cs, hyp.mtuGrows, p);
    }
    OfGenConcat(s.log.purged, For(ps, h), g);
    ForMembers(ps, h);
    WithoutMembers(ps, h);
    if h in cs && cs[h].generation == g {
      NothingPurged(s, g);
      OfGenFor(ps, h, g);
      OfGenNone(Without(ps, h), g);
    } else {
      OfGenWithout(ps, h, g);
      OfGenNone(For(ps, h), g);
    }
  }

  lemma {:induction false} OldestFirst(ps: seq<Pending>, h: u16)
    requires FirstFor(ps, h) < |ps|
    ensures For(ps, h) != [] && ps[FirstFor(ps, h)] == For(ps, h)[0]
    ensures For(RemoveAt(ps, FirstFor(ps, h)), h) == For(ps, h)[1..]
  {
    if ps[0].connection.handle == h {
      assert RemoveAt(ps, 0) == ps[1..];
    } else {
      OldestFirst(ps[1..], h);
      RemoveLater(ps, FirstFor(ps, h));
    }
  }

  lemma {:induction false} OthersKept(ps: seq<Pending>, h: u16, k: u16)
    requires FirstFor(ps, h) < |ps| && k != h
    ensures For(RemoveAt(ps, FirstFor(ps, h)), k) == For(ps, k)
  {
    if ps[0].connection.handle == h {
      assert RemoveAt(ps, 0) == ps[1..];
      assert For(ps, k) == For(ps[1..], k);
    } else {
      OthersKept(ps[1..], h, k);
      RemoveLater(ps, FirstFor(ps, h));
    }
  }

  lemma RemoveLater(ps: seq<Pending>, i: nat)
    requires 0 < i < |ps|
    ensures RemoveAt(ps, i) != [] && RemoveAt(ps, i)[0] == ps[0]
    ensures RemoveAt(ps, i)[1..] == RemoveAt(ps[1..], i - 1)
  {
  }

  lemma {:induction false} NoneFor(ps: seq<Pending>, h: u16)
    requires FirstFor(ps, h) == |ps|
    ensures For(ps, h) == []
  {
    if ps != [] { NoneFor(ps[1..], h); }
  }

  /** A can-send event serves its own connection only: the oldest queued value goes to `rs_notify` exactly
      when the peer still subscribes, a failure is reported exactly when BTstack refuses it, and every
      other connection's queue is untouched. */
  lemma FlushServesTheOldest(db: seq<Attribute>, hyp: Hypotheses, first: nat, ls: seq<Label>, h: u16, status: byte, k: u16)
    requires Session(db, hyp, first, ls)
    requires Enabled(hyp, After(db, Initial(first), ls), Process(CanSend(h), status))
    ensures var s := After(db, Initial(first), ls);
            var s' := Apply(db, s, Process(CanSend(h), status));
            var queue := For(s.state.pending, h);
            && (k != h ==> For(s'.state.pending, k) == For(s.state.pending, k))
            && (queue == [] ==> s'.state == s.state && s'.log == s.log && s'.emitted == s.emitted && s'.phase.Draining?)
            && (queue != [] ==>
                  var p := queue[0];
                  var sent := Subscribed(s.state.subscriptions, h, p.attribute);
                  && For(s'.state.pending, h) == queue[1..] && s'.phase == Flushing(h)
                  && s'.log.dequeued == s.log.dequeued + [p]
                  && s'.log.handed == s.log.handed + (if sent then [Transmission(p, Current(s.state, h))] else [])
                  && s'.emitted == s.emitted + (if sent && status != 0 then [NotificationFailed(p.connection, status)] else []))
  {
    var s := After(db, Initial(first), ls);
    if FirstFor(s.state.pending, h) < |s.state.pending| {
      OldestFirst(s.state.pending, h);
      if k != h { OthersKept(s.state.pending, h, k); }
    } else {
      NoneFor(s.state.pending, h);
    }
  }

  /** After that the bridge is asked again exactly if more is queued for the handle, and nothing else happens. */
  lemma FlushAsksIffMore(db: seq<Attribute>, s: System, h: u16)
    requires s.phase == Flushing(h)
    ensures var s' := Apply(db, s, FlushMore);
            && s' == s.(phase := Draining, bridge := s'.bridge) && s'.bridge == s.bridge.(slots := s'.bridge.slots)
            && (For(s.state.pending, h) == [] ==> s'.bridge.slots == s.bridge.slots)
            && (For(s.state.pending, h) != [] && h in s.links ==>
                  (Waiting(s'.bridge.slots, h) <==>
                     Waiting(s.bridge.slots, h) || exists i :: 0 <= i < |s.bridge.slots| && !s.bridge.slots[i].busy))
  {
    ForMembers(s.state.pending, h);
    RequestWaitsIff(s.bridge.slots, h);
    if For(s.state.pending, h) != [] { assert For(s.state.pending, h)[0] in s.state.pending; }
  }

  // ----- Nothing goes to a stale or unsubscribed peer -----

  /** `p` was accepted earlier, for the very connection that holds handle `h` now, which subscribes to it on
      a notify-capable characteristic; it fits 512 octets and its MTU (today's too, if MTUs only grow). */
  ghost predicate SafeToHand(db: seq<Attribute>, hyp: Hypotheses, s: System, h: u16, p: Pending) {
    && p in s.log.accepted && p in s.state.pending
    && h in s.state.connections
    && p.connection.handle == h && p.connection.generation == s.state.connections[h].generation
    && Subscribed(s.state.subscriptions, h, p.attribute) && NotifyHandle(db, p.attribute)
    && |p.value| <= 512 && (p.value == [] || |p.value| + 3 <= p.connection.mtu)
    && (hyp.mtuGrows ==> p.value == [] || |p.value| + 3 <= s.state.connections[h].mtu)
  }

  lemma HandedIsSafe(db: seq<Attribute>, hyp: Hypotheses, first: nat, s: System, h: u16)
    requires Inv(db, hyp, first, s) && FirstFor(s.state.pending, h) < |s.state.pending|
    requires Subscribed(s.state.subscriptions, h, s.state.pending[FirstFor(s.state.pending, h)].attribute)
    ensures SafeToHand(db, hyp, s, h, s.state.pending[FirstFor(s.state.pending, h)])
  {
    var p := s.state.pending[FirstFor(s.state.pending, h)];
    QueuedWasAccepted(s, p);
    assert EntryOk(db, s.state.connections, hyp.mtuGrows, p);
  }

  /** Every `rs_notify` call of every run is safe. */
  lemma TransmissionSafety(db: seq<Attribute>, hyp: Hypotheses, first: nat, ls: seq<Label>, h: u16, status: byte)
    requires Session(db, hyp, first, ls)
    requires Enabled(hyp, After(db, Initial(first), ls), Process(CanSend(h), status))
    ensures var s := After(db, Initial(first), ls);
            var s' := Apply(db, s, Process(CanSend(h), status));
            s'.log.handed != s.log.handed ==>
              s'.log.handed != [] && SafeToHand(db, hyp, s, h, s'.log.handed[|s'.log.handed| - 1].item)
  {
    Reaches(db, hyp, first, ls);
    var s := After(db, Initial(first), ls);
    FlushServesTheOldest(db, hyp, first, ls, h, status, h);
    if FirstFor(s.state.pending, h) < |s.state.pending| {
      OldestFirst(s.state.pending, h);
      if Subscribed(s.state.subscriptions, h, s.state.pending[FirstFor(s.state.pending, h)].attribute) {
        HandedIsSafe(db, hyp, first, s, h);
      }
    } else {
      NoneFor(s.state.pending, h);
    }
  }

  lemma {:induction false} SingleStatus(grows: bool, links: map<u16, u16>, es: seq<Event>, h: u16)
    requires AtMostOne(es) && Sound(grows, links, es) && h in links
    ensures h in AbsorbAll(links, es) ==> forall e :: e in es && Status(e) ==> e.handle != h
    decreases |es|
  {
    if es != [] {
      var links' := Absorb(links, es[0]);
      if es[0] == Disconnect(h) {
        forall e | e in es[1..]
          ensures !Status(e)
        {
          var i :| 0 <= i < |es| - 1 && es[1..][i] == e;
          assert es[i + 1] == e;
        }
        NoStatusEvents(links', es[1..]);
      } else {
        assert AtMostOne(es[1..]);
        SingleStatus(grows, links', es[1..], h);
        assert es == [es[0]] + es[1..];
      }
    }
  }

  /** When one packet changes at most one link, a value handed over for a live link goes to the very
      link it was accepted on: no connect or disconnect of that handle is still unprocessed. */
  lemma SentToItsOwnLink(db: seq<Attribute>, hyp: Hypotheses, first: nat, ls: seq<Label>, h: u16, status: byte)
    requires Session(db, hyp, first, ls) && hyp.oneChange
    requires Enabled(hyp, After(db, Initial(first), ls), Process(CanSend(h), status))
    ensures var s := After(db, Initial(first), ls);
            Apply(db, s, Process(CanSend(h), status)).log.handed != s.log.handed && h in s.links ==>
              forall e :: e in s.bridge.events && Status(e) ==> e.handle != h
  {
    Reaches(db, hyp, first, ls);
    var s := After(db, Initial(first), ls);
    TransmissionSafety(db, hyp, first, ls, h, status);
    if h in s.state.connections {
      SingleStatus(hyp.mtuGrows, Mtus(s.state.connections), s.bridge.events, h);
    }
  }

  /** The runtime lags BTstack by at most one packet: when it asks for the next one, only can-send events
      are queued and both sides list the same links. */
  lemma AgreesAtPacketBoundary(db: seq<Attribute>, hyp: Hypotheses, first: nat, ls: seq<Label>)
    requires Session(db, hyp, first, ls) && Enabled(hyp, After(db, Initial(first), ls), BeginDelivery)
    ensures var s := After(db, Initial(first), ls);
            && (forall e :: e in s.bridge.events ==> e.CanSend?)
            && s.state.connections.Keys == s.links.Keys
  {
    Reaches(db, hyp, first, ls);
    ViewsAgree(hyp, After(db, Initial(first), ls));
  }

  // ----- The event stream -----

  /** Replaying the emitted events rebuilds exactly the live generations and the enabled pairs. */
  lemma EventsAreACompleteLog(db: seq<Attribute>, hyp: Hypotheses, first: nat, ls: seq<Label>, g: nat, u: Uuid)
    requires Session(db, hyp, first, ls)
    ensures var s := After(db, Initial(first), ls);
            var v := Replay(s.emitted);
            && (g in v.live <==> LiveGeneration(s.state.connections, g))
            && (g in v.live ==> v.live[g] in s.state.connections && s.state.connections[v.live[g]].generation == g)
            && ((g, u) in v.enabled <==>
                exists h, a :: h in s.state.connections && s.state.connections[h].generation == g
                               && a in db && a.characteristic.uuid == u && Subscribed(s.state.subscriptions, h, a.handle))
  {
    Reaches(db, hyp, first, ls);
    var s := After(db, Initial(first), ls);
    var v := Replay(s.emitted);
    FoundByUuid(db, u);
    if g in v.live && Enables(db, s.state.subscriptions, v.live[g], u) {
      var a := FindByUuid(db, u).value;
      assert v.live[g] in s.state.connections && a in db && Subscribed(s.state.subscriptions, v.live[g], a.handle);
    }
    forall h, a | h in s.state.connections && s.state.connections[h].generation == g
                  && a in db && a.characteristic.uuid == u && Subscribed(s.state.subscriptions, h, a.handle)
      ensures (g, u) in v.enabled
    {
      LookupsAreExact(db, a, a.handle);
    }
  }

  /** The events that a step emits. */
  function Emits(db: seq<Attribute>, s: System, l: Label): seq<ServerEvent> {
    var after := Apply(db, s, l).emitted;
    if |s.emitted| <= |after| then after[|s.emitted|..] else []
  }

  /** An event carries the connection as the tables hold it, MTU included: a new one as they hold it
      afterwards, a failure the one its value was accepted for, any other as they held it before. */
  ghost predicate CarriesExact(before: System, after: System, e: ServerEvent) {
    match e
    case Connected(c) => c.handle in after.state.connections && after.state.connections[c.handle] == c
    case NotificationFailed(c, _) => exists p :: p in before.state.pending && p in before.log.accepted && p.connection == c
    case _ => e.connection.handle in before.state.connections && before.state.connections[e.connection.handle] == e.connection
  }

  lemma WriteEmitsExact(db: seq<Attribute>, hyp: Hypotheses, first: nat, s: System, l: Label)
    requires TablesOk(db, hyp, first, s) && l.AttWrite?
    ensures |Emits(db, s, l)| <= 1 && Apply(db, s, l).emitted == s.emitted + Emits(db, s, l)
    ensures forall e :: e in Emits(db, s, l) ==> CarriesExact(s, Apply(db, s, l), e)
  {
    WriteCases(db, s.state, l.handle, l.attribute, l.mode, l.offset, l.value, l.verdict);
  }

  /** `after` emitted at most one event more than `before`, and that one carries its connection. */
  ghost predicate EmittedExact(before: System, after: System) {
    || after.emitted == before.emitted
    || (|after.emitted| == |before.emitted| + 1 && after.emitted == before.emitted + [after.emitted[|before.emitted|]]
        && CarriesExact(before, after, after.emitted[|before.emitted|]))
  }

  lemma FlushEmitsExact(db: seq<Attribute>, hyp: Hypotheses, first: nat, s: System, h: u16, status: byte)
    requires TablesOk(db, hyp, first, s) && LedgerOk(s)
    ensures EmittedExact(s, AfterFlush(s, h, status))
  {
    FlushShape(s, h, status);
    var i := FirstFor(s.state.pending, h);
    if i < |s.state.pending| { QueuedWasAccepted(s, s.state.pending[i]); }
  }

  lemma StatusEmitsExact(db: seq<Attribute>, hyp: Hypotheses, first: nat, s: System, e: Event, status: byte)
    requires TablesOk(db, hyp, first, s) && s.bridge.events != [] && !e.CanSend?
    ensures EmittedExact(s, AfterEvent(s, e, status))
  {
  }

  lemma ExactMeans(db: seq<Attribute>, s: System, l: Label)
    requires EmittedExact(s, Apply(db, s, l))
    ensures |Emits(db, s, l)| <= 1 && Apply(db, s, l).emitted == s.emitted + Emits(db, s, l)
    ensures forall e :: e in Emits(db, s, l) ==> CarriesExact(s, Apply(db, s, l), e)
  {
  }

  lemma EventEmitsExact(db: seq<Attribute>, hyp: Hypotheses, first: nat, s: System, l: Label)
    requires TablesOk(db, hyp, first, s) && LedgerOk(s) && Enabled(hyp, s, l) && l.Process?
    ensures |Emits(db, s, l)| <= 1 && Apply(db, s, l).emitted == s.emitted + Emits(db, s, l)
    ensures forall e :: e in Emits(db, s, l) ==> CarriesExact(s, Apply(db, s, l), e)
  {
    if l.event.CanSend? {
      FlushEmitsExact(db, hyp, first, s.(bridge := s.bridge.(events := s.bridge.events[1..])), l.event.handle, l.status);
    } else {
      StatusEmitsExact(db, hyp, first, s, l.event, l.status);
    }
    ExactMeans(db, s, l);
  }

  /** Each step emits at most one event, and every event of a session carries its connection exactly. */
  lemma EventsCarryTheConnection(db: seq<Attribute>, hyp: Hypotheses, first: nat, ls: seq<Label>, l: Label)
    requires Session(db, hyp, first, ls) && Enabled(hyp, After(db, Initial(first), ls), l)
    ensures var s := After(db, Initial(first), ls);
            && |Emits(db, s, l)| <= 1 && Apply(db, s, l).emitted == s.emitted + Emits(db, s, l)
            && forall e :: e in Emits(db, s, l) ==> CarriesExact(s, Apply(db, s, l), e)
  {
    Reaches(db, hyp, first, ls);
    var s := After(db, Initial(first), ls);
    if l.AttWrite? {
      WriteEmitsExact(db, hyp, first, s, l);
    } else if l.Process? {
      EventEmitsExact(db, hyp, first, s, l);
    }
  }

  // ----- The connection that a subscriber map stores -----

  /** An accepted CCCD write of the connection with generation `g`. */
  predicate Switches(db: seq<Attribute>, s: System, l: Label, g: nat) {
    && l.AttWrite? && Server.Write(db, s.state, l.handle, l.attribute, l.mode, l.offset, l.value, l.verdict).code == 0
    && l.handle in s.state.connections && s.state.connections[l.handle].generation == g
    && FindByHandle(db, l.attribute).Some? && FindByHandle(db, l.attribute).value.handle != l.attribute
  }

  /** The connection as it stood at the last accepted CCCD write of generation `g`. */
  function LastSwitch(db: seq<Attribute>, s: System, ls: seq<Label>, g: nat, last: Option<Connection>): Option<Connection>
    decreases |ls|
  {
    if ls == [] then last
    else LastSwitch(db, Apply(db, s, ls[0]), ls[1..], g,
                    if Switches(db, s, ls[0], g) then Some(s.state.connections[ls[0].handle]) else last)
  }

  ghost predicate MirrorKnows(es: seq<ServerEvent>, g: nat, last: Option<Connection>) {
    g in Mirror(es) ==> last == Some(Mirror(es)[g])
  }

  lemma MirrorAppend(es: seq<ServerEvent>, e: ServerEvent, g: nat, last: Option<Connection>)
    requires MirrorKnows(es, g, last)
    ensures !(e.SubscriptionChanged? && e.connection.generation == g) ==> MirrorKnows(es + [e], g, last)
    ensures e.SubscriptionChanged? ==> MirrorKnows(es + [e], e.connection.generation, Some(e.connection))
  {
    assert (es + [e])[..|es|] == es;
  }

  lemma WriteKeepsMirror(db: seq<Attribute>, s: System, l: Label, g: nat, last: Option<Connection>)
    requires MirrorKnows(s.emitted, g, last) && l.AttWrite?
    ensures MirrorKnows(Apply(db, s, l).emitted, g, if Switches(db, s, l, g) then Some(s.state.connections[l.handle]) else last)
  {
    var w := Server.Write(db, s.state, l.handle, l.attribute, l.mode, l.offset, l.value, l.verdict);
    WriteCases(db, s.state, l.handle, l.attribute, l.mode, l.offset, l.value, l.verdict);
    if w.events == [] {
      assert s.emitted + [] == s.emitted;
    } else {
      assert w.events == [w.events[0]] && w.events[0].SubscriptionChanged?;
      assert w.events[0].connection == s.state.connections[l.handle];
      MirrorAppend(s.emitted, w.events[0], g, last);
    }
  }

  lemma OtherStepsKeepMirror(db: seq<Attribute>, hyp: Hypotheses, first: nat, s: System, l: Label, g: nat, last: Option<Connection>)
    requires TablesOk(db, hyp, first, s) && LedgerOk(s) && Enabled(hyp, s, l)
    requires MirrorKnows(s.emitted, g, last) && !l.AttWrite?
    ensures MirrorKnows(Apply(db, s, l).emitted, g, last)
  {
    if l.Process? {
      EventEmitsExact(db, hyp, first, s, l);
      var es := Emits(db, s, l);
      if es == [] {
        assert s.emitted + [] == s.emitted;
      } else {
        assert es == [es[0]];
        EventsSwitchNothing(s, l.event, l.status);
        MirrorAppend(s.emitted, es[0], g, last);
      }
    }
  }

  lemma EventsSwitchNothing(s: System, e: Event, status: byte)
    requires s.bridge.events != []
    ensures var after := AfterEvent(s, e, status).emitted;
            |s.emitted| < |after| ==> !after[|s.emitted|].SubscriptionChanged?
  {
  }

  lemma {:induction false} MirrorFollows(db: seq<Attribute>, hyp: Hypotheses, first: nat, s: System, ls: seq<Label>, g: nat, last: Option<Connection>)
    requires WellFormed(db) && hyp.freshLinks && Inv(db, hyp, first, s) && Runs(db, hyp, s, ls) && MirrorKnows(s.emitted, g, last)
    ensures MirrorKnows(After(db, s, ls).emitted, g, LastSwitch(db, s, ls, g, last))
    decreases |ls|
  {
    if ls != [] {
      InvStep(db, hyp, first, s, ls[0]);
      if ls[0].AttWrite? {
        WriteKeepsMirror(db, s, ls[0], g, last);
      } else {
        OtherStepsKeepMirror(db, hyp, first, s, ls[0], g, last);
      }
      MirrorFollows(db, hyp, first, Apply(db, s, ls[0]), ls[1..], g,
                    if Switches(db, s, ls[0], g) then Some(s.state.connections[ls[0].handle]) else last);
    }
  }

  /** The subscriber map stores each connection as it stood at its last accepted CCCD write, MTU included. */
  lemma MirrorStoresTheLastSwitch(db: seq<Attribute>, hyp: Hypotheses, first: nat, ls: seq<Label>, g: nat)
    requires Session(db, hyp, first, ls) && g in Mirror(After(db, Initial(first), ls).emitted)
    ensures LastSwitch(db, Initial(first), ls, g, None) == Some(Mirror(After(db, Initial(first), ls).emitted)[g])
  {
    InvInitially(db, hyp, first);
    MirrorFollows(db, hyp, first, Initial(first), ls, g, None);
  }

  /** The example's subscriber map, for a server whose only notify characteristic is `tx`. */
  lemma MirrorIsTheSubscriptionTable(db: seq<Attribute>, hyp: Hypotheses, first: nat, ls: seq<Label>, tx: Attribute, g: nat)
    requires Session(db, hyp, first, ls)
    requires tx in db && forall a :: a in db && Notifies(a) ==> a == tx
    ensures var s := After(db, Initial(first), ls);
            var m := Mirror(s.emitted);
            && (g in m <==> exists h :: h in s.state.connections && s.state.connections[h].generation == g
                                        && Subscribed(s.state.subscriptions, h, tx.handle))
            && (g in m ==> m[g].generation == g && m[g].handle in s.state.connections
                           && s.state.connections[m[g].handle].generation == g)
  {
    Reaches(db, hyp, first, ls);
    var s := After(db, Initial(first), ls);
    MirrorIsEnabledSet(s.emitted, tx.characteristic.uuid);
    LookupsAreExact(db, tx, tx.handle);
  }

  /** Each connection's events: Connected, then changes and failures, then at most one Disconnected; it is
      open exactly while the connection is live. Connected ids are handed out in order without a gap. */
  lemma EventProtocol(db: seq<Attribute>, hyp: Hypotheses, first: nat, ls: seq<Label>, g: nat)
    requires Session(db, hyp, first, ls)
    ensures var s := After(db, Initial(first), ls);
            var es := EventsOf(s.emitted, g);
            && Lifecycle(es)
            && (es != [] <==> first <= g < s.next)
            && (es != [] ==> (es[|es| - 1].Disconnected? <==> !LiveGeneration(s.state.connections, g)))
            && first <= s.next && ConnectedIds(s.emitted) == Range(first, s.next)
  {
    Reaches(db, hyp, first, ls);
    var s := After(db, Initial(first), ls);
    StageIsLifecycle(s.emitted, g);
  }

  // ----- Stale tokens -----

  lemma ConnectionsAfterEvent(s: System, e: Event, status: byte)
    requires s.bridge.events != []
    ensures AfterEvent(s, e, status).state.connections ==
            match e
            case Connect(h, m) => s.state.connections[h := Connection(h, s.next, m)]
            case Disconnect(h) => s.state.connections - {h}
            case MtuExchanged(h, m) => SetMtu(s.state, h, m).connections
            case _ => s.state.connections
    ensures s.next <= AfterEvent(s, e, status).next
  {
  }

  /** Generations are only ever taken from the counter. */
  lemma NoGenerationReturns(db: seq<Attribute>, hyp: Hypotheses, s: System, l: Label, g: nat)
    requires LiveGeneration(Apply(db, s, l).state.connections, g) && g < s.next && Enabled(hyp, s, l)
    ensures LiveGeneration(s.state.connections, g)
  {
    var cs := Apply(db, s, l).state.connections;
    var h :| h in cs && cs[h].generation == g;
    if l.Process? {
      ConnectionsAfterEvent(s, l.event, l.status);
      assert h in s.state.connections && s.state.connections[h].generation == g;
    } else {
      ViewFrame(db, s, l);
    }
  }

  lemma DeadIsNotAdmitted(db: seq<Attribute>, s: System, c: Connection, uuid: Uuid, value: seq<byte>, g: nat)
    requires !LiveGeneration(s.state.connections, g)
    ensures c.generation == g ==> Admit(db, s.state, c, uuid, value) == Failure(NotActive)
    ensures OfGen(AfterNotify(db, s, c, uuid, value).log.accepted, g) == OfGen(s.log.accepted, g)
  {
    if Admit(db, s.state, c, uuid, value).Success? {
      var p := Admit(db, s.state, c, uuid, value).value;
      OfGenConcat(s.log.accepted, [p], g);
      OfGenOne(p, g);
    }
  }

  lemma DeadIsNotFlushed(db: seq<Attribute>, hyp: Hypotheses, first: nat, s: System, h: u16, status: byte, g: nat)
    requires TablesOk(db, hyp, first, s) && !LiveGeneration(s.state.connections, g)
    ensures OfGen(AfterFlush(s, h, status).log.dequeued, g) == OfGen(s.log.dequeued, g)
  {
    var i := FirstFor(s.state.pending, h);
    if i < |s.state.pending| {
      var p := s.state.pending[i];
      assert EntryOk(db, s.state.connections, hyp.mtuGrows, p);
      OfGenConcat(s.log.dequeued, [p], g);
      OfGenOne(p, g);
    }
  }

  lemma DeadStaysDead(db: seq<Attribute>, hyp: Hypotheses, s: System, l: Label, g: nat)
    requires Enabled(hyp, s, l) && g < s.next && !LiveGeneration(s.state.connections, g)
    ensures s.next <= Apply(db, s, l).next && !LiveGeneration(Apply(db, s, l).state.connections, g)
  {
    if l.Process? { ConnectionsAfterEvent(s, l.event, l.status); }
    if LiveGeneration(Apply(db, s, l).state.connections, g) { NoGenerationReturns(db, hyp, s, l, g); }
  }

  lemma DeadIsNotLogged(db: seq<Attribute>, hyp: Hypotheses, first: nat, s: System, l: Label, g: nat)
    requires TablesOk(db, hyp, first, s) && Enabled(hyp, s, l) && !LiveGeneration(s.state.connections, g)
    ensures OfGen(Apply(db, s, l).log.accepted, g) == OfGen(s.log.accepted, g)
    ensures OfGen(Apply(db, s, l).log.dequeued, g) == OfGen(s.log.dequeued, g)
  {
    if l.Notify? {
      DeadIsNotAdmitted(db, s, l.connection, l.uuid, l.value, g);
    } else if l.Process? && l.event.CanSend? {
      DeadIsNotFlushed(db, hyp, first, s.(bridge := s.bridge.(events := s.bridge.events[1..])), l.event.handle, l.status, g);
    }
  }

  lemma {:induction false} DeadGenerationStays(db: seq<Attribute>, hyp: Hypotheses, first: nat, s: System, ls: seq<Label>, g: nat)
    requires WellFormed(db) && hyp.freshLinks && Inv(db, hyp, first, s) && Runs(db, hyp, s, ls)
    requires g < s.next && !LiveGeneration(s.state.connections, g)
    ensures var s' := After(db, s, ls);
            && g < s'.next && !LiveGeneration(s'.state.connections, g)
            && OfGen(s'.log.accepted, g) == OfGen(s.log.accepted, g)
            && OfGen(s'.log.dequeued, g) == OfGen(s.log.dequeued, g)
    decreases |ls|
  {
    if ls != [] {
      DeadStaysDead(db, hyp, s, ls[0], g);
      DeadIsNotLogged(db, hyp, first, s, ls[0], g);
      InvStep(db, hyp, first, s, ls[0]);
      DeadGenerationStays(db, hyp, first, Apply(db, s, ls[0]), ls[1..], g);
    }
  }

  lemma {:induction false} DisconnectedIsClosed(es: seq<ServerEvent>, c: Connection)
    requires Disconnected(c) in es && StageOf(es, c.generation) != Broken
    ensures StageOf(es, c.generation) == Closed
  {
    var front := es[..|es| - 1];
    if es[|es| - 1] != Disconnected(c) {
      assert es == front + [es[|es| - 1]];
      DisconnectedIsClosed(front, c);
    }
  }

  /** Once Disconnected(c) is emitted, `c` is dead however often its handle is reused: in any continuation
      a Notify carrying it is refused as inactive, and nothing of it is accepted or sent. */
  lemma StaleTokensStayDead(db: seq<Attribute>, hyp: Hypotheses, first: nat, p: seq<Label>, q: seq<Label>, c: Connection,
                            uuid: Uuid, value: seq<byte>)
    requires Session(db, hyp, first, p + q)
    requires Disconnected(c) in After(db, Initial(first), p).emitted
    ensures var then_, now := After(db, Initial(first), p), After(db, Initial(first), p + q);
            && Admit(db, now.state, c, uuid, value) == Failure(NotActive)
            && OfGen(now.log.accepted, c.generation) == OfGen(then_.log.accepted, c.generation)
            && OfGen(now.log.dequeued, c.generation) == OfGen(then_.log.dequeued, c.generation)
  {
    RunsConcat(db, hyp, Initial(first), p, q);
    AfterConcat(db, Initial(first), p, q);
    Reaches(db, hyp, first, p);
    var s := After(db, Initial(first), p);
    DisconnectedIsClosed(s.emitted, c);
    assert StageOf(s.emitted, c.generation) == Closed;
    DeadGenerationStays(db, hyp, first, s, q, c.generation);
  }
}
