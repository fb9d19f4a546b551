/** Why the hypotheses are needed: concrete runs of the machine without them. */
module Limits {
  import opened Gatt
  import opened Bridge
  import opened Server
  import opened Machine
  import opened Delivery
  import opened Runtime
  import opened Owners
  import Theorems

  const UUID: Uuid := [0, 0, 0, 0, 0, 0, 0, 0, 0, 0, 0, 0, 0, 0, 0, 0]
  const TX := Attribute(10, Characteristic(UUID, NOTIFY, false, false))
  const DB := [TX]

  /** Any number of links; everything else as assumed elsewhere. */
  const CROWDED := Hypotheses(true, false, true, true)

  /** A connect event may come for a handle that is still live. */
  const CARELESS := Hypotheses(false, true, true, true)

  lemma Then(hyp: Hypotheses, s: System, ls: seq<Label>, t: System, l: Label, u: System)
    requires Runs(DB, hyp, s, ls) && After(DB, s, ls) == t && Enabled(hyp, t, l) && Apply(DB, t, l) == u
    ensures Runs(DB, hyp, s, ls + [l]) && After(DB, s, ls + [l]) == u
  {
    Extend(DB, hyp, s, ls, l);
  }

  lemma Look()
    ensures FindByUuid(DB, UUID) == Some(TX) && FindByHandle(DB, 11) == Some(TX) && Notifies(TX)
    ensures WellFormed(DB)
  {
    assert NOTIFY & NOTIFY != 0;
  }

  function Arrived(s: System, h: u16): System {
    s.(links := s.links[h := 23], state := Server.Connect(s.state, Connection(h, s.next, 23)), next := s.next + 1,
       emitted := s.emitted + [Connected(Connection(h, s.next, 23))])
  }

  function Arrival(h: u16): seq<Label> {
    [BeginDelivery, LinkUp(h, 23), BeginDrain, Process(Event.Connect(h, 23), 0), EndDrain]
  }

  lemma Join(hyp: Hypotheses, s: System, p: seq<Label>, t: System, q: seq<Label>, u: System)
    requires Runs(DB, hyp, s, p) && After(DB, s, p) == t && Runs(DB, hyp, t, q) && After(DB, t, q) == u
    ensures Runs(DB, hyp, s, p + q) && After(DB, s, p + q) == u
  {
    RunsConcat(DB, hyp, s, p, q);
    AfterConcat(DB, s, p, q);
  }

  lemma Nothing(hyp: Hypotheses, s: System)
    ensures Runs(DB, hyp, s, []) && After(DB, s, []) == s
  {
  }

  lemma Deliver(hyp: Hypotheses, s: System, h: u16)
    requires s.phase.Commands? && s.bridge.events == []
    requires (hyp.freshLinks ==> h !in s.links) && (hyp.sixteenLinks ==> |s.links| < SLOTS)
    ensures var t := s.(phase := Draining, links := s.links[h := 23], bridge := s.bridge.(events := [Event.Connect(h, 23)]));
            Runs(DB, hyp, s, [BeginDelivery, LinkUp(h, 23), BeginDrain]) && After(DB, s, [BeginDelivery, LinkUp(h, 23), BeginDrain]) == t
  {
    var s1 := s.(phase := Delivering(false));
    var s2 := s1.(phase := Delivering(true), links := s.links[h := 23], bridge := s.bridge.(events := [Event.Connect(h, 23)]));
    Nothing(hyp, s);
    Then(hyp, s, [], s, BeginDelivery, s1);
    assert [] + [BeginDelivery] == [BeginDelivery];
    Then(hyp, s, [BeginDelivery], s1, LinkUp(h, 23), s2);
    assert [BeginDelivery] + [LinkUp(h, 23)] == [BeginDelivery, LinkUp(h, 23)];
    Then(hyp, s, [BeginDelivery, LinkUp(h, 23)], s2, BeginDrain, s2.(phase := Draining));
    assert [BeginDelivery, LinkUp(h, 23)] + [BeginDrain] == [BeginDelivery, LinkUp(h, 23), BeginDrain];
  }

  lemma Learn(hyp: Hypotheses, t: System, h: u16)
    requires t.phase.Draining? && t.bridge.events == [Event.Connect(h, 23)]
    ensures var c := Connection(h, t.next, 23);
            var u := t.(phase := Commands, bridge := t.bridge.(events := []), state := Server.Connect(t.state, c),
                        next := t.next + 1, emitted := t.emitted + [Connected(c)]);
            Runs(DB, hyp, t, [Process(Event.Connect(h, 23), 0), EndDrain]) && After(DB, t, [Process(Event.Connect(h, 23), 0), EndDrain]) == u
  {
    var c := Connection(h, t.next, 23);
    var t1 := t.(bridge := t.bridge.(events := []), state := Server.Connect(t.state, c), next := t.next + 1,
                 emitted := t.emitted + [Connected(c)]);
    Nothing(hyp, t);
    assert t.bridge.events[1..] == [];
    Then(hyp, t, [], t, Process(Event.Connect(h, 23), 0), t1);
    assert [] + [Process(Event.Connect(h, 23), 0)] == [Process(Event.Connect(h, 23), 0)];
    Then(hyp, t, [Process(Event.Connect(h, 23), 0)], t1, EndDrain, t1.(phase := Commands));
    assert [Process(Event.Connect(h, 23), 0)] + [EndDrain] == [Process(Event.Connect(h, 23), 0), EndDrain];
  }

  /** One packet brings a link up, and the drain processes its connect event. */
  lemma Arrive(hyp: Hypotheses, s: System, h: u16)
    requires s.phase.Commands? && s.bridge.events == []
    requires (hyp.freshLinks ==> h !in s.links) && (hyp.sixteenLinks ==> |s.links| < SLOTS)
    ensures Runs(DB, hyp, s, Arrival(h)) && After(DB, s, Arrival(h)) == Arrived(s, h)
  {
    var t := s.(phase := Draining, links := s.links[h := 23], bridge := s.bridge.(events := [Event.Connect(h, 23)]));
    Deliver(hyp, s, h);
    Learn(hyp, t, h);
    Join(hyp, s, [BeginDelivery, LinkUp(h, 23), BeginDrain], t, [Process(Event.Connect(h, 23), 0), EndDrain], Arrived(s, h));
    assert [BeginDelivery, LinkUp(h, 23), BeginDrain] + [Process(Event.Connect(h, 23), 0), EndDrain] == Arrival(h);
  }

  function Subscription(h: u16): seq<Label> {
    [BeginDelivery, AttWrite(h, 11, 0, 0, [1, 0], Accepts), BeginDrain, EndDrain]
  }

  function Enrolled(s: System, h: u16): System
    requires h in s.state.connections
  {
    var w := Switch(s.state, h, TX, 11, true);
    s.(state := w.state, emitted := s.emitted + w.events)
  }

  lemma Enrol(hyp: Hypotheses, s: System, h: u16)
    requires s.phase.Commands? && s.bridge.events == [] && h in s.state.connections
    ensures Runs(DB, hyp, s, Subscription(h)) && After(DB, s, Subscription(h)) == Enrolled(s, h)
  {
    Look();
    var s1 := s.(phase := Delivering(false));
    var s2 := Enrolled(s, h).(phase := Delivering(false));
    var s3 := s2.(phase := Draining);
    var l := AttWrite(h, 11, 0, 0, [1, 0], Accepts);
    assert Runs(DB, hyp, s, []) && After(DB, s, []) == s;
    Then(hyp, s, [], s, BeginDelivery, s1);
    Then(hyp, s, [] + [BeginDelivery], s1, l, s2);
    Then(hyp, s, [] + [BeginDelivery] + [l], s2, BeginDrain, s3);
    Then(hyp, s, [] + [BeginDelivery] + [l] + [BeginDrain], s3, EndDrain, Enrolled(s, h));
    assert [] + [BeginDelivery] + [l] + [BeginDrain] + [EndDrain] == Subscription(h);
  }

  // ----- Seventeen links -----

  ghost predicate Reachable(t: System) {
    exists ls :: Leads(DB, CROWDED, Initial(0), t, ls)
  }

  lemma ReachStep(t: System, l: Label)
    requires Reachable(t) && Enabled(CROWDED, t, l)
    ensures Reachable(Apply(DB, t, l))
  {
    var ls :| Leads(DB, CROWDED, Initial(0), t, ls);
    Then(CROWDED, Initial(0), ls, t, l, Apply(DB, t, l));
    assert Leads(DB, CROWDED, Initial(0), Apply(DB, t, l), ls + [l]);
  }

  lemma ReachRun(t: System, u: System, ls: seq<Label>)
    requires Reachable(t) && Leads(DB, CROWDED, t, u, ls)
    ensures Reachable(u)
  {
    var before :| Leads(DB, CROWDED, Initial(0), t, before);
    LeadsOn(DB, CROWDED, Initial(0), t, u, before, ls);
  }

  ghost predicate Settled(st: State, h: u16) {
    h in st.connections && st.connections[h] == Connection(h, h, 23) && Subscribed(st.subscriptions, h, 10)
  }

  ghost predicate AllSettled(st: State, k: nat) {
    forall h: u16 :: h < k ==> Settled(st, h)
  }

  function Value(h: u16): Pending {
    Pending(Connection(h, h, 23), 10, [])
  }

  ghost predicate Quiet(s: System, links: nat) {
    && s.phase.Commands? && s.bridge.events == [] && s.next == links && AllSettled(s.state, links)
    && (forall h: u16 :: h in s.links <==> h < links)
  }

  function Welcomed(s: System, h: u16): System {
    Enrolled(Arrived(s, h), h)
  }

  lemma WelcomeSettles(s: System, h: u16)
    requires s.next == h && AllSettled(s.state, h)
    ensures AllSettled(Welcomed(s, h).state, h + 1)
  {
    var st := Welcomed(s, h).state;
    forall k: u16 | k < h + 1
      ensures Settled(st, k)
    {
      if k != h {
        assert Settled(s.state, k);
        assert (h, 10) != (k, 10);
      }
    }
  }

  lemma WelcomeKeepsQuiet(s: System, h: u16)
    requires Quiet(s, h)
    ensures Quiet(Welcomed(s, h), h + 1)
    ensures Welcomed(s, h).bridge == s.bridge && Welcomed(s, h).state.pending == s.state.pending
  {
    WelcomeSettles(s, h);
    assert Welcomed(s, h).links == s.links[h := 23];
  }

  /** A new link, connected and subscribed. */
  lemma Welcome(s: System, h: u16)
    requires Reachable(s) && Quiet(s, h)
    ensures Reachable(Welcomed(s, h)) && Quiet(Welcomed(s, h), h + 1)
    ensures Welcomed(s, h).bridge == s.bridge && Welcomed(s, h).state.pending == s.state.pending
  {
    WelcomeKeepsQuiet(s, h);
    Arrive(CROWDED, s, h);
    ReachRun(s, Arrived(s, h), Arrival(h));
    Enrol(CROWDED, Arrived(s, h), h);
    ReachRun(Arrived(s, h), Welcomed(s, h), Subscription(h));
  }

  function Queueing(s: System, h: u16): System {
    s.(state := Enqueue(s.state, Value(h)), log := s.log.(accepted := s.log.accepted + [Value(h)]),
       bridge := s.bridge.(slots := Request(s.bridge.slots, h, true)))
  }

  /** One more accepted value for a settled link. */
  lemma QueueOne(s: System, h: u16)
    requires s.phase.Commands? && Settled(s.state, h) && h in s.links && |s.state.pending| < MAX_PENDING
    ensures Queueing(s, h) == Apply(DB, s, Machine.Label.Notify(Connection(h, h, 23), UUID, []))
    ensures Reachable(s) ==> Reachable(Queueing(s, h))
  {
    Look();
    assert Admit(DB, s.state, Connection(h, h, 23), UUID, []) == Success(Value(h));
    if Reachable(s) { ReachStep(s, Machine.Label.Notify(Connection(h, h, 23), UUID, [])); }
  }

  /** Slot `i` waits for handle `i`, for the first `k` slots. */
  ghost predicate Taken(slots: seq<Slot>, k: nat) {
    && |slots| == SLOTS
    && (forall i :: 0 <= i < SLOTS ==> (slots[i].busy <==> i < k) && (i < k ==> slots[i].handle == i))
  }

  ghost predicate ValuesOf(ps: seq<Pending>, k: nat) {
    |ps| == k && forall j: u16 :: j < k ==> ps[j] == Value(j)
  }

  /** `k` links, each connected, subscribed and with one value queued; the first sixteen hold the slots. */
  ghost predicate Crowd(s: System, k: nat) {
    Quiet(s, k) && Taken(s.bridge.slots, k) && ValuesOf(s.state.pending, k)
  }

  lemma FirstFreeIs(slots: seq<Slot>, k: nat)
    requires k <= |slots| && (forall i :: 0 <= i < k ==> slots[i].busy) && (k < |slots| ==> !slots[k].busy)
    ensures FirstFree(slots) == k
  {
  }

  /** A new handle takes the next slot, or with all slots taken is lost. */
  lemma NextTakes(slots: seq<Slot>, k: u16)
    requires Taken(slots, k) && k <= SLOTS
    ensures Taken(Request(slots, k, true), k + 1)
    ensures Request(slots, k, true) == if k < SLOTS then slots[k := Slot(true, k)] else slots
  {
    FirstFreeIs(slots, k);
  }

  lemma CrowdGrows(s: System, k: u16)
    requires Reachable(s) && Quiet(s, k + 1) && k <= SLOTS && Taken(s.bridge.slots, k) && ValuesOf(s.state.pending, k)
    ensures Reachable(Queueing(s, k)) && Crowd(Queueing(s, k), k + 1)
  {
    var t := Queueing(s, k);
    assert Settled(s.state, k);
    QueueOne(s, k);
    NextTakes(s.bridge.slots, k);
    forall h: u16 | h < k + 1
      ensures Settled(t.state, h)
    {
      assert Settled(s.state, h);
    }
  }

  lemma {:induction false} CrowdGathers(k: nat)
    requires k <= SLOTS + 1
    ensures exists s :: Reachable(s) && Crowd(s, k)
  {
    if k == 0 {
      Nothing(CROWDED, Initial(0));
      assert Leads(DB, CROWDED, Initial(0), Initial(0), []);
      assert Crowd(Initial(0), 0);
    } else {
      CrowdGathers(k - 1);
      var s :| Reachable(s) && Crowd(s, k - 1);
      Welcome(s, k - 1);
      CrowdGrows(Welcomed(s, k - 1), k - 1);
    }
  }

  ghost predicate Stranded(s: System, p: Pending) {
    p in s.state.pending && p in s.log.accepted && !Awaited(s.phase, s.bridge, p.connection.handle)
  }

  lemma ReachableIsAccounted(s: System, p: Pending)
    requires Reachable(s) && p in s.state.pending
    ensures p in s.log.accepted
  {
    var ls :| Leads(DB, CROWDED, Initial(0), s, ls);
    Look();
    Theorems.Reaches(DB, CROWDED, 0, ls);
    Theorems.QueuedWasAccepted(s, p);
  }

  /** With seventeen links the bridge drops the request in silence: an accepted value is queued and nothing
      will ever bring the runtime back to it. So `NoLostWakeup` needs its bound of sixteen. */
  lemma SeventeenthIsStranded()
    ensures exists ls, p :: Theorems.Session(DB, CROWDED, 0, ls) && Stranded(After(DB, Initial(0), ls), p)
  {
    CrowdGathers(SLOTS + 1);
    var s :| Reachable(s) && Crowd(s, SLOTS + 1);
    var p := Value(SLOTS);
    assert s.state.pending[SLOTS] == p;
    ReachableIsAccounted(s, p);
    assert Stranded(s, p);
    var ls :| Leads(DB, CROWDED, Initial(0), s, ls);
    Look();
    assert Theorems.Session(DB, CROWDED, 0, ls);
  }

  // ----- A flush with more to send -----

  /** Fifteen links wait, each with its value; two more are up and subscribed, with nothing queued. */
  lemma SeventeenGather()
    ensures exists s :: Reachable(s) && Quiet(s, 17) && Taken(s.bridge.slots, 15) && ValuesOf(s.state.pending, 15)
  {
    CrowdGathers(15);
    var s :| Reachable(s) && Crowd(s, 15);
    Welcome(s, 15);
    Welcome(Welcomed(s, 15), 16);
  }

  lemma AlreadyWaits(slots: seq<Slot>, h: u16)
    requires Taken(slots, 15) && h < 15
    ensures Request(slots, h, true) == slots
  {
    assert slots[h].busy && slots[h].handle == h;
  }

  /** Handle 0 gets a second value, and handle 15 takes the last slot. */
  lemma SlotsFill(s: System)
    requires Reachable(s) && Quiet(s, 17) && Taken(s.bridge.slots, 15) && ValuesOf(s.state.pending, 15)
    ensures var t := Queueing(Queueing(s, 0), 15);
            Reachable(t) && Taken(t.bridge.slots, 16) && t.bridge.events == []
  {
    assert Settled(s.state, 0) && Settled(s.state, 15);
    QueueOne(s, 0);
    AlreadyWaits(s.bridge.slots, 0);
    assert Settled(Queueing(s, 0).state, 15);
    QueueOne(Queueing(s, 0), 15);
    NextTakes(s.bridge.slots, 15);
  }

  /** All slots are taken, none by handle 0. */
  ghost predicate TakenByOthers(slots: seq<Slot>) {
    |slots| == SLOTS && forall i :: 0 <= i < SLOTS ==> slots[i] == Slot(true, if i == 0 then 16 else i)
  }

  /** BTstack calls back for handle 0 at once, and handle 16 takes its slot. */
  lemma SlotPasses(s: System)
    requires Reachable(s) && s.phase.Commands? && s.bridge.events == [] && Taken(s.bridge.slots, 16)
    requires Settled(s.state, 16) && 16 in s.links && |s.state.pending| < MAX_PENDING
    ensures var t := Queueing(s.(bridge := Fire(s.bridge, 0)), 16);
            Reachable(t) && TakenByOthers(t.bridge.slots) && t.bridge.events == [CanSend(0)]
  {
    var f := s.(bridge := Fire(s.bridge, 0));
    assert s.bridge.slots[0] == Slot(true, 0);
    ReachStep(s, SlotReady(0));
    FirstFreeIs(f.bridge.slots, 0);
    QueueOne(f, 16);
    assert Settled(f.state, 16);
    assert !Waiting(f.bridge.slots, 16);
  }

  /** The flush of handle 0 has taken its first value; it has a second, and every other handle waits. */
  ghost predicate Halfway(s: System) {
    && s.phase == Flushing(0) && s.bridge.events == [] && TakenByOthers(s.bridge.slots)
    && Value(0) in s.state.pending && forall p :: p in s.state.pending ==> p.connection.handle <= 16
  }

  lemma FlushBegins(s: System)
    requires Reachable(s) && s.phase.Commands? && s.bridge.events == [CanSend(0)] && TakenByOthers(s.bridge.slots)
    requires |s.state.pending| > 1 && s.state.pending[0] == Value(0) && Value(0) in s.state.pending[1..]
    requires forall p :: p in s.state.pending ==> p.connection.handle <= 16
    ensures exists t :: Reachable(t) && Halfway(t)
  {
    ReachStep(s, BeginDelivery);
    var s1 := s.(phase := Delivering(false));
    ReachStep(s1, BeginDrain);
    var s2 := s1.(phase := Draining);
    ReachStep(s2, Process(CanSend(0), 0));
    FirstIsFlushed(s2);
  }

  lemma FirstIsFlushed(s: System)
    requires s.phase.Draining? && s.bridge.events == [CanSend(0)] && TakenByOthers(s.bridge.slots)
    requires |s.state.pending| > 1 && s.state.pending[0] == Value(0) && Value(0) in s.state.pending[1..]
    requires forall p :: p in s.state.pending ==> p.connection.handle <= 16
    ensures Halfway(Apply(DB, s, Process(CanSend(0), 0)))
  {
    assert FirstFor(s.state.pending, 0) == 0 && RemoveAt(s.state.pending, 0) == s.state.pending[1..];
    assert s.bridge.events[1..] == [];
  }

  lemma SecondBehind(ps: seq<Pending>)
    requires ValuesOf(ps, 15)
    ensures var qs := ps + [Value(0)] + [Value(15)] + [Value(16)];
            && |qs| == 18 && qs[0] == Value(0) && Value(0) in qs[1..]
            && forall p :: p in qs ==> p.connection.handle <= 16
  {
    var qs := ps + [Value(0)] + [Value(15)] + [Value(16)];
    assert qs[1..][14] == Value(0);
    forall p | p in qs
      ensures p.connection.handle <= 16
    {
      if p in ps {
        var j :| 0 <= j < 15 && ps[j] == p;
        assert ps[j as u16] == Value(j);
      }
    }
  }

  lemma HalfwayIsReached()
    ensures exists t :: Reachable(t) && Halfway(t)
  {
    SeventeenGather();
    var s :| Reachable(s) && Quiet(s, 17) && Taken(s.bridge.slots, 15) && ValuesOf(s.state.pending, 15);
    SlotsFill(s);
    var u := Queueing(Queueing(s, 0), 15);
    assert Settled(s.state, 16) && Settled(u.state, 16);
    SlotPasses(u);
    SecondBehind(s.state.pending);
    FlushBegins(Queueing(u.(bridge := Fire(u.bridge, 0)), 16));
  }

  lemma HalfwayIsAwake(s: System)
    requires Halfway(s)
    ensures WakeOk(s)
  {
    forall p | p in s.state.pending
      ensures Awaited(s.phase, s.bridge, p.connection.handle)
    {
      var h := p.connection.handle;
      if h != 0 { assert s.bridge.slots[if h == 16 then 0 else h].handle == h; }
    }
  }

  lemma HalfwayLosesItsRequest(s: System)
    requires Halfway(s)
    ensures AskAgain(s, 0).state == s.state && !Awaited(AskAgain(s, 0).phase, AskAgain(s, 0).bridge, 0)
  {
    FirstFreeIs(s.bridge.slots, SLOTS);
  }

  /** A value that did get its wake-up can lose it: with every queued value awaited, this one by its own
      handle's flush, the flush's repeated request meets a full table and is dropped in silence. */
  lemma FlushStrandsTheNext()
    ensures exists t, p :: && Reachable(t) && WakeOk(t) && Enabled(CROWDED, t, FlushMore)
                           && p in t.state.pending && Stranded(Apply(DB, t, FlushMore), p)
  {
    HalfwayIsReached();
    var t :| Reachable(t) && Halfway(t);
    HalfwayIsAwake(t);
    HalfwayLosesItsRequest(t);
    ReachableIsAccounted(t, Value(0));
    assert Stranded(Apply(DB, t, FlushMore), Value(0));
  }

  // ----- A connect event for a live handle -----

  function Flushed(h: u16): seq<Label> {
    [SlotReady(0), BeginDelivery, BeginDrain, Process(CanSend(h), 0)]
  }

  const FIRST: Connection := Connection(0, 0, 23)

  /** Connected twice without a disconnect; the value accepted in between is still queued. */
  ghost predicate Reused(s: System) {
    && s.phase.Commands? && s.bridge.events == [] && |s.bridge.slots| == SLOTS && s.bridge.slots[0] == Slot(true, 0)
    && s.state.pending == [Pending(FIRST, 10, [])] && Subscribed(s.state.subscriptions, 0, 10)
    && 0 in s.state.connections && s.state.connections[0].generation == 1 && s.log.handed == []
  }

  lemma ReuseHappens()
    ensures exists ls :: Runs(DB, CARELESS, Initial(0), ls) && Reused(After(DB, Initial(0), ls))
  {
    var s := Initial(0);
    var s1 := Arrived(s, 0);
    var s2 := Enrolled(s1, 0);
    var l := Machine.Label.Notify(FIRST, UUID, []);
    var s3 := Queueing(s2, 0);
    Arrive(CARELESS, s, 0);
    Enrol(CARELESS, s1, 0);
    Join(CARELESS, s, Arrival(0), s1, Subscription(0), s2);
    QueueOne(s2, 0);
    NextTakes(s.bridge.slots, 0);
    Then(CARELESS, s, Arrival(0) + Subscription(0), s2, l, s3);
    Arrive(CARELESS, s3, 0);
    var s4 := Arrived(s3, 0);
    Join(CARELESS, s, Arrival(0) + Subscription(0) + [l], s3, Arrival(0), s4);
    assert Reused(s4);
  }

  /** If BTstack ever connected a live handle again without disconnecting it first, a value accepted for the
      old connection would be sent on the new one: nothing purges it. So the safety theorems need `freshLinks`. */
  lemma ReusedHandleIsMisdirected()
    ensures exists ls :: Runs(DB, CARELESS, Initial(0), ls)
                         && var handed := After(DB, Initial(0), ls).log.handed; handed != [] && Misdirected(handed[0])
  {
    ReuseHappens();
    var ls :| Runs(DB, CARELESS, Initial(0), ls) && Reused(After(DB, Initial(0), ls));
    var s := After(DB, Initial(0), ls);
    FlushedAnyway(s);
    Join(CARELESS, Initial(0), ls, s, Flushed(0), After(DB, s, Flushed(0)));
  }

  lemma FlushedAnyway(s: System)
    requires Reused(s)
    ensures Runs(DB, CARELESS, s, Flushed(0))
    ensures After(DB, s, Flushed(0)).log.handed == [Transmission(s.state.pending[0], Some(s.state.connections[0]))]
  {
    var s1 := s.(bridge := Fire(s.bridge, 0));
    var s2 := s1.(phase := Delivering(false));
    var s3 := s1.(phase := Draining);
    Nothing(CARELESS, s);
    Then(CARELESS, s, [], s, SlotReady(0), s1);
    Then(CARELESS, s, [] + [SlotReady(0)], s1, BeginDelivery, s2);
    Then(CARELESS, s, [] + [SlotReady(0)] + [BeginDelivery], s2, BeginDrain, s3);
    Then(CARELESS, s, [] + [SlotReady(0)] + [BeginDelivery] + [BeginDrain], s3, Process(CanSend(0), 0), Apply(DB, s3, Process(CanSend(0), 0)));
    assert [] + [SlotReady(0)] + [BeginDelivery] + [BeginDrain] + [Process(CanSend(0), 0)] == Flushed(0);
  }
}
