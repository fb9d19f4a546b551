/** The emitted events are a complete log of the runtime: replaying them rebuilds its state. */
module Stream {
  import opened Gatt
  import opened Bridge
  import opened Server
  import opened Machine
  import opened Links
  import opened Tables

  // ----- What a consumer can rebuild -----

  /** Live generations with their handles, and the (generation, characteristic) pairs that are enabled. */
  datatype View = View(live: map<nat, u16>, enabled: set<(nat, Uuid)>)

  function Observe(v: View, e: ServerEvent): View {
    var g := e.connection.generation;
    match e
    case Connected(c) => v.(live := v.live[g := c.handle])
    case Disconnected(_) => View(v.live - {g}, set k | k in v.enabled && k.0 != g)
    case SubscriptionChanged(_, u, on) => v.(enabled := if on then v.enabled + {(g, u)} else v.enabled - {(g, u)})
    case NotificationFailed(_, _) => v
  }

  function Replay(es: seq<ServerEvent>): View {
    if es == [] then View(map[], {}) else Observe(Replay(es[..|es| - 1]), es[|es| - 1])
  }

  /** Whether the runtime has this characteristic enabled for the connection on this handle. */
  predicate Enables(db: seq<Attribute>, subs: Subscriptions, h: u16, u: Uuid) {
    FindByUuid(db, u).Some? && Subscribed(subs, h, FindByUuid(db, u).value.handle)
  }

  ghost predicate ViewAgrees(db: seq<Attribute>, cs: map<u16, Connection>, subs: Subscriptions, v: View) {
    && (forall h :: h in cs ==> cs[h].generation in v.live && v.live[cs[h].generation] == h)
    && (forall g :: g in v.live ==> v.live[g] in cs && cs[v.live[g]].generation == g)
    && (forall g, u :: (g, u) in v.enabled <==> g in v.live && Enables(db, subs, v.live[g], u))
  }

  // ----- The protocol of one connection -----

  datatype Stage = Fresh | Open | Closed | Broken

  function Advance(stage: Stage, e: ServerEvent): Stage {
    match stage
    case Fresh => if e.Connected? then Open else Broken
    case Open => if e.Connected? then Broken else if e.Disconnected? then Closed else Open
    case Closed => Broken
    case Broken => Broken
  }

  function StageOf(es: seq<ServerEvent>, g: nat): Stage {
    if es == [] then Fresh
    else
      var before := StageOf(es[..|es| - 1], g);
      if es[|es| - 1].connection.generation == g then Advance(before, es[|es| - 1]) else before
  }

  function EventsOf(es: seq<ServerEvent>, g: nat): seq<ServerEvent> {
    if es == [] then []
    else
      var before := EventsOf(es[..|es| - 1], g);
      if es[|es| - 1].connection.generation == g then before + [es[|es| - 1]] else before
  }

  /** Connected first, at most one Disconnected, and nothing after it. */
  ghost predicate Lifecycle(es: seq<ServerEvent>) {
    && (es != [] ==> es[0].Connected?)
    && (forall i :: 0 < i < |es| ==> !es[i].Connected?)
    && (forall i :: 0 <= i < |es| - 1 ==> !es[i].Disconnected?)
  }

  /** The stages accept exactly the streams of that form. */
  lemma {:induction false} StageIsLifecycle(es: seq<ServerEvent>, g: nat)
    ensures StageOf(es, g) != Broken <==> Lifecycle(EventsOf(es, g))
    ensures StageOf(es, g) == Fresh <==> EventsOf(es, g) == []
    ensures StageOf(es, g) == Closed <==>
            Lifecycle(EventsOf(es, g)) && EventsOf(es, g) != [] && EventsOf(es, g)[|EventsOf(es, g)| - 1].Disconnected?
  {
    if es != [] {
      var front, e := es[..|es| - 1], es[|es| - 1];
      StageIsLifecycle(front, g);
      if e.connection.generation == g { LifecycleNext(EventsOf(front, g), e); }
    }
  }

  lemma LifecycleNext(es: seq<ServerEvent>, e: ServerEvent)
    ensures Lifecycle(es + [e]) <==>
            Lifecycle(es) && if es == [] then e.Connected? else !es[|es| - 1].Disconnected? && !e.Connected?
  {
    var es' := es + [e];
    if Lifecycle(es') {
      assert forall i :: 0 <= i < |es| ==> es'[i] == es[i];
      assert es'[|es|] == e;
    }
  }

  function ConnectedIds(es: seq<ServerEvent>): seq<nat> {
    if es == [] then []
    else
      var before := ConnectedIds(es[..|es| - 1]);
      if es[|es| - 1].Connected? then before + [es[|es| - 1].connection.generation] else before
  }

  function Range(from: nat, to: nat): seq<nat>
    requires from <= to
  {
    seq(to - from, i requires 0 <= i => from + i)
  }

  // ----- The example application's mirror -----

  function Mirror(es: seq<ServerEvent>): map<nat, Connection> {
    if es == [] then map[]
    else
      var before, e := Mirror(es[..|es| - 1]), es[|es| - 1];
      match e
      case SubscriptionChanged(c, _, on) => if on then before[c.generation := c] else before - {c.generation}
      case Disconnected(c) => before - {c.generation}
      case _ => before
  }

  /** The loop of the example application, over the events it has received so far. */
  method Follow(es: seq<ServerEvent>) returns (subscribers: map<nat, Connection>)
    ensures subscribers == Mirror(es)
  {
    subscribers := map[];
    var i := 0;
    while i < |es|
      invariant 0 <= i <= |es|
      invariant subscribers == Mirror(es[..i])
    {
      match es[i] {
        case SubscriptionChanged(connection, _, notify) =>
          if notify {
            subscribers := subscribers[connection.generation := connection];
          } else {
            subscribers := subscribers - {connection.generation};
          }
        case Disconnected(connection) => subscribers := subscribers - {connection.generation};
        case _ =>
      }
      assert es[..i + 1][..i] == es[..i];
      i := i + 1;
    }
    assert es[..i] == es;
  }

  ghost predicate MirrorsView(m: map<nat, Connection>, v: View) {
    forall g :: g in m ==> g in v.live && m[g].generation == g && m[g].handle == v.live[g]
  }

  ghost predicate OnlySubscribes(es: seq<ServerEvent>, tx: Uuid) {
    forall e :: e in es && e.SubscriptionChanged? ==> e.characteristic == tx
  }

  /** With a single notify characteristic the mirror holds exactly the enabled connections. */
  lemma {:induction false} MirrorIsEnabledSet(es: seq<ServerEvent>, tx: Uuid)
    requires OnlySubscribes(es, tx)
    ensures forall g :: g in Mirror(es) <==> (g, tx) in Replay(es).enabled
  {
    if es != [] {
      var front, e := es[..|es| - 1], es[|es| - 1];
      assert e in es && forall x :: x in front ==> x in es;
      MirrorIsEnabledSet(front, tx);
    }
  }

  // ----- The invariant -----

  /** An event the runtime may emit in this view: a new connection takes the next id, others name a live one. */
  ghost predicate Fits(v: View, next: nat, e: ServerEvent) {
    if e.Connected? then e.connection.generation == next
    else e.connection.generation in v.live && v.live[e.connection.generation] == e.connection.handle
  }

  ghost predicate StagesOk(es: seq<ServerEvent>, live: map<nat, u16>, first: nat, next: nat) {
    forall g: nat :: StageOf(es, g) == if g in live then Open else if first <= g < next then Closed else Fresh
  }

  ghost predicate HistoryOk(es: seq<ServerEvent>, first: nat, next: nat) {
    && first <= next
    && StagesOk(es, Replay(es).live, first, next)
    && (forall g :: g in Replay(es).live ==> first <= g < next)
    && ConnectedIds(es) == Range(first, next)
    && MirrorsView(Mirror(es), Replay(es))
  }

  lemma EmitKeepsStages(es: seq<ServerEvent>, v: View, first: nat, next: nat, e: ServerEvent)
    requires first <= next && StagesOk(es, v.live, first, next) && (forall g :: g in v.live ==> first <= g < next)
    requires Fits(v, next, e)
    ensures StagesOk(es + [e], Observe(v, e).live, first, if e.Connected? then next + 1 else next)
    ensures forall g :: g in Observe(v, e).live ==> first <= g < if e.Connected? then next + 1 else next
  {
    var es' := es + [e];
    assert es'[..|es'| - 1] == es;
    assert forall g :: StageOf(es', g) == if e.connection.generation == g then Advance(StageOf(es, g), e) else StageOf(es, g);
  }

  lemma EmitKeepsIds(es: seq<ServerEvent>, first: nat, next: nat, e: ServerEvent)
    requires first <= next && ConnectedIds(es) == Range(first, next) && (e.Connected? ==> e.connection.generation == next)
    ensures ConnectedIds(es + [e]) == Range(first, if e.Connected? then next + 1 else next)
  {
    assert (es + [e])[..|es|] == es;
    assert Range(first, next + 1) == Range(first, next) + [next];
  }

  lemma ReplayAppend(es: seq<ServerEvent>, e: ServerEvent)
    ensures Replay(es + [e]) == Observe(Replay(es), e)
  {
    assert (es + [e])[..|es|] == es;
  }

  lemma EmitKeepsMirror(es: seq<ServerEvent>, v: View, next: nat, e: ServerEvent)
    requires MirrorsView(Mirror(es), v) && Fits(v, next, e) && next !in v.live
    ensures MirrorsView(Mirror(es + [e]), Observe(v, e))
  {
    assert (es + [e])[..|es|] == es;
  }

  lemma EmitKeepsHistory(es: seq<ServerEvent>, first: nat, next: nat, e: ServerEvent)
    requires HistoryOk(es, first, next) && Fits(Replay(es), next, e)
    ensures HistoryOk(es + [e], first, if e.Connected? then next + 1 else next)
    ensures Replay(es + [e]) == Observe(Replay(es), e)
  {
    ReplayAppend(es, e);
    EmitKeepsStages(es, Replay(es), first, next, e);
    EmitKeepsIds(es, first, next, e);
    EmitKeepsMirror(es, Replay(es), next, e);
  }

  lemma ConnectKeepsStream(db: seq<Attribute>, cs: map<u16, Connection>, subs: Subscriptions, v: View, c: Connection)
    requires ViewAgrees(db, cs, subs, v) && c.handle !in cs && c.generation !in v.live
    requires forall k :: k in subs ==> k.0 in cs
    ensures ViewAgrees(db, cs[c.handle := c], subs, Observe(v, Connected(c)))
  {
  }

  lemma DisconnectKeepsStream(db: seq<Attribute>, st: State, v: View, h: u16)
    requires ViewAgrees(db, st.connections, st.subscriptions, v)
    ensures var st' := Server.Disconnect(st, h);
            var v' := if h in st.connections then Observe(v, Disconnected(st.connections[h])) else v;
            ViewAgrees(db, st'.connections, st'.subscriptions, v')
  {
  }

  lemma SwitchKeepsStream(db: seq<Attribute>, st: State, v: View, h: u16, a: Attribute, attribute: u16, on: bool)
    requires WellFormed(db) && a in db && h in st.connections
    requires ViewAgrees(db, st.connections, st.subscriptions, v)
    ensures var w := Switch(st, h, a, attribute, on);
            ViewAgrees(db, w.state.connections, w.state.subscriptions, Observe(v, w.events[0]))
  {
    var w := Switch(st, h, a, attribute, on);
    var v' := Observe(v, w.events[0]);
    LookupsAreExact(db, a, a.handle);
    forall g, u
      ensures (g, u) in v'.enabled <==> g in v'.live && Enables(db, w.state.subscriptions, v'.live[g], u)
    {
      FoundByUuid(db, u);
      if FindByUuid(db, u).Some? { AtMostOneMatch(db, a, FindByUuid(db, u).value); }
    }
  }

  ghost predicate FromNotify(db: seq<Attribute>, es: seq<ServerEvent>) {
    forall e :: e in es && e.SubscriptionChanged? ==> exists a :: a in db && Notifies(a) && a.characteristic.uuid == e.characteristic
  }

  /** Attributes shown to a consumer of events: the view fits the tables, the history fits the view. */
  ghost predicate StreamInv(db: seq<Attribute>, first: nat, next: nat, cs: map<u16, Connection>, subs: Subscriptions,
                            es: seq<ServerEvent>)
  {
    && ViewAgrees(db, cs, subs, Replay(es))
    && HistoryOk(es, first, next)
    && FromNotify(db, es)
  }

  ghost predicate StreamOk(db: seq<Attribute>, first: nat, s: System) {
    StreamInv(db, first, s.next, s.state.connections, s.state.subscriptions, s.emitted)
  }

  lemma MtuKeepsStream(db: seq<Attribute>, st: State, v: View, h: u16, m: u16)
    requires ViewAgrees(db, st.connections, st.subscriptions, v)
    ensures ViewAgrees(db, SetMtu(st, h, m).connections, st.subscriptions, v)
  {
  }

  lemma WriteKeepsStream(db: seq<Attribute>, first: nat, next: nat, st: State, es: seq<ServerEvent>,
                         h: u16, attribute: u16, mode: u16, offset: u16, value: seq<byte>, verdict: WriteOutcome)
    requires WellFormed(db) && StreamInv(db, first, next, st.connections, st.subscriptions, es)
    requires forall k :: k in st.connections ==> st.connections[k].handle == k
    ensures var w := Write(db, st, h, attribute, mode, offset, value, verdict);
            StreamInv(db, first, next, w.state.connections, w.state.subscriptions, es + w.events)
  {
    var w := Write(db, st, h, attribute, mode, offset, value, verdict);
    WriteCases(db, st, h, attribute, mode, offset, value, verdict);
    if w.events == [] {
      assert es + w.events == es;
    } else {
      var a := FindByHandle(db, attribute).value;
      FoundByHandle(db, attribute);
      SwitchKeepsStream(db, st, Replay(es), h, a, attribute, value[0] == 1);
      EmitKeepsHistory(es, first, next, w.events[0]);
      assert w.events == [w.events[0]];
    }
  }

  lemma ConnectEventKeepsStream(db: seq<Attribute>, first: nat, st: State, es: seq<ServerEvent>, c: Connection)
    requires StreamInv(db, first, c.generation, st.connections, st.subscriptions, es) && c.handle !in st.connections
    requires forall k :: k in st.subscriptions ==> k.0 in st.connections
    ensures StreamInv(db, first, c.generation + 1, st.connections[c.handle := c], st.subscriptions, es + [Connected(c)])
  {
    EmitKeepsHistory(es, first, c.generation, Connected(c));
    ConnectKeepsStream(db, st.connections, st.subscriptions, Replay(es), c);
  }

  lemma DisconnectEventKeepsStream(db: seq<Attribute>, first: nat, next: nat, st: State, es: seq<ServerEvent>, h: u16)
    requires StreamInv(db, first, next, st.connections, st.subscriptions, es)
    requires forall k :: k in st.connections ==> st.connections[k].handle == k
    ensures StreamInv(db, first, next, Server.Disconnect(st, h).connections, Server.Disconnect(st, h).subscriptions,
                      if h in st.connections then es + [Disconnected(st.connections[h])] else es)
  {
    DisconnectKeepsStream(db, st, Replay(es), h);
    if h in st.connections { EmitKeepsHistory(es, first, next, Disconnected(st.connections[h])); }
  }

  lemma FailureKeepsStream(db: seq<Attribute>, grows: bool, first: nat, next: nat, st: State, es: seq<ServerEvent>,
                           p: Pending, status: byte)
    requires StreamInv(db, first, next, st.connections, st.subscriptions, es) && EntryOk(db, st.connections, grows, p)
    ensures StreamInv(db, first, next, st.connections, st.subscriptions, es + [NotificationFailed(p.connection, status)])
  {
    EmitKeepsHistory(es, first, next, NotificationFailed(p.connection, status));
  }

  lemma FlushKeepsStream(db: seq<Attribute>, hyp: Hypotheses, first: nat, s: System, h: u16, status: byte)
    requires TablesOk(db, hyp, first, s) && StreamOk(db, first, s)
    ensures StreamOk(db, first, AfterFlush(s, h, status))
  {
    FlushShape(s, h, status);
    var i := FirstFor(s.state.pending, h);
    if i < |s.state.pending| {
      FailureKeepsStream(db, hyp.mtuGrows, first, s.next, s.state, s.emitted, s.state.pending[i], status);
    }
  }

  lemma StatusEventKeepsStream(db: seq<Attribute>, hyp: Hypotheses, first: nat, s: System, e: Event, status: byte)
    requires TablesOk(db, hyp, first, s) && StreamOk(db, first, s) && s.bridge.events != []
    requires e.Connect? || e.Disconnect?
    requires HarmlessTo(hyp.mtuGrows, s.state.connections, e)
    ensures StreamOk(db, first, AfterEvent(s, e, status))
  {
    if e.Connect? {
      ConnectEventKeepsStream(db, first, s.state, s.emitted, Connection(e.handle, s.next, e.mtu));
    } else {
      DisconnectEventKeepsStream(db, first, s.next, s.state, s.emitted, e.handle);
    }
  }

  lemma QuietEventKeepsStream(db: seq<Attribute>, first: nat, s: System, e: Event, status: byte)
    requires StreamOk(db, first, s) && s.bridge.events != []
    requires !e.Connect? && !e.Disconnect? && !e.CanSend?
    ensures StreamOk(db, first, AfterEvent(s, e, status))
  {
    if e.MtuExchanged? { MtuKeepsStream(db, s.state, Replay(s.emitted), e.handle, e.mtu); }
  }

  lemma EventKeepsStream(db: seq<Attribute>, hyp: Hypotheses, first: nat, s: System, e: Event, status: byte)
    requires TablesOk(db, hyp, first, s) && StreamOk(db, first, s) && s.bridge.events != []
    requires HarmlessTo(hyp.mtuGrows, s.state.connections, e)
    ensures StreamOk(db, first, AfterEvent(s, e, status))
  {
    if e.CanSend? {
      FlushKeepsStream(db, hyp, first, s.(bridge := s.bridge.(events := s.bridge.events[1..])), e.handle, status);
    } else if e.Connect? || e.Disconnect? {
      StatusEventKeepsStream(db, hyp, first, s, e, status);
    } else {
      QuietEventKeepsStream(db, first, s, e, status);
    }
  }

  lemma StreamStep(db: seq<Attribute>, hyp: Hypotheses, first: nat, s: System, l: Label)
    requires WellFormed(db) && hyp.freshLinks && LinksOk(hyp, s) && TablesOk(db, hyp, first, s) && StreamOk(db, first, s)
    requires Enabled(hyp, s, l)
    ensures StreamOk(db, first, Apply(db, s, l))
  {
    match l
    case AttRead(h, a, offset, buffer, answer) => ReadKeepsTables(db, s.state, h, a, offset, buffer, answer);
    case AttWrite(h, a, mode, offset, value, verdict) =>
      WriteKeepsStream(db, first, s.next, s.state, s.emitted, h, a, mode, offset, value, verdict);
    case Process(e, status) =>
      HeadIsHarmless(hyp, s);
      EventKeepsStream(db, hyp, first, s, e, status);
    case _ =>
  }
}
