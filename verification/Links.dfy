/** How far the runtime's view of the links lags behind BTstack's, and who may wait in the slot table. */
module Links {
  import opened Gatt
  import opened Bridge
  import opened Server
  import opened Machine

  function Mtus(connections: map<u16, Connection>): map<u16, u16> {
    map h | h in connections :: connections[h].mtu
  }

  function Absorb(links: map<u16, u16>, e: Event): map<u16, u16> {
    match e
    case Connect(h, m) => links[h := m]
    case Disconnect(h) => links - {h}
    case MtuExchanged(h, m) => if h in links then links[h := m] else links
    case _ => links
  }

  function AbsorbAll(links: map<u16, u16>, es: seq<Event>): map<u16, u16>
    decreases |es|
  {
    if es == [] then links else AbsorbAll(Absorb(links, es[0]), es[1..])
  }

  /** A connect event finds its handle free, and (when MTUs grow) an MTU event never shrinks one. */
  ghost predicate Sound(grows: bool, links: map<u16, u16>, es: seq<Event>)
    decreases |es|
  {
    es == [] || (
      && (es[0].Connect? ==> es[0].handle !in links)
      && (grows && es[0].MtuExchanged? && es[0].handle in links ==> links[es[0].handle] <= es[0].mtu)
      && Sound(grows, Absorb(links, es[0]), es[1..]))
  }

  ghost predicate Harmless(grows: bool, links: map<u16, u16>, e: Event) {
    && (e.Connect? ==> e.handle !in links)
    && (grows && e.MtuExchanged? && e.handle in links ==> links[e.handle] <= e.mtu)
  }

  lemma {:induction false} AbsorbAppend(links: map<u16, u16>, es: seq<Event>, e: Event)
    ensures AbsorbAll(links, es + [e]) == Absorb(AbsorbAll(links, es), e)
    decreases |es|
  {
    if es == [] {
      assert (es + [e])[1..] == [];
    } else {
      AbsorbAppend(Absorb(links, es[0]), es[1..], e);
      assert (es + [e])[1..] == es[1..] + [e];
    }
  }

  lemma {:induction false} SoundAppend(grows: bool, links: map<u16, u16>, es: seq<Event>, e: Event)
    requires Sound(grows, links, es) && Harmless(grows, AbsorbAll(links, es), e)
    ensures Sound(grows, links, es + [e])
    decreases |es|
  {
    if es == [] {
      assert (es + [e])[1..] == [];
    } else {
      SoundAppend(grows, Absorb(links, es[0]), es[1..], e);
      assert (es + [e])[1..] == es[1..] + [e];
    }
  }

  /** A link that the runtime still lists but BTstack has lost has its disconnect event on the way. */
  lemma {:induction false} LostLinkIsAnnounced(links: map<u16, u16>, es: seq<Event>, h: u16)
    requires h in links && h !in AbsorbAll(links, es)
    ensures Disconnect(h) in es
    decreases |es|
  {
    if es[0] != Disconnect(h) {
      LostLinkIsAnnounced(Absorb(links, es[0]), es[1..], h);
      assert es == [es[0]] + es[1..];
    }
  }

  lemma {:induction false} NoStatusEvents(links: map<u16, u16>, es: seq<Event>)
    requires forall e :: e in es ==> !e.Connect? && !e.Disconnect?
    ensures AbsorbAll(links, es).Keys == links.Keys
    decreases |es|
  {
    if es != [] {
      assert es[0] in es;
      NoStatusEvents(Absorb(links, es[0]), es[1..]);
    }
  }

  // ----- The invariant -----

  /** Once the queue is absorbed, the runtime's view `mtus` is BTstack's. */
  ghost predicate Lag(hyp: Hypotheses, mtus: map<u16, u16>, b: Bridge, links: map<u16, u16>) {
    && AbsorbAll(mtus, b.events) == links
    && (hyp.freshLinks ==> Sound(hyp.mtuGrows, mtus, b.events))
    && SlotsOk(b.slots, links.Keys)
    && (hyp.sixteenLinks ==> |links.Keys| <= SLOTS)
  }

  ghost predicate LinksOk(hyp: Hypotheses, s: System) {
    Lag(hyp, Mtus(s.state.connections), s.bridge, s.links)
  }

  lemma PostKeepsLag(hyp: Hypotheses, mtus: map<u16, u16>, b: Bridge, links: map<u16, u16>, e: Event)
    requires Lag(hyp, mtus, b, links) && (hyp.freshLinks ==> Harmless(hyp.mtuGrows, links, e))
    ensures AbsorbAll(mtus, b.events + [e]) == Absorb(links, e)
    ensures hyp.freshLinks ==> Sound(hyp.mtuGrows, mtus, b.events + [e])
  {
    AbsorbAppend(mtus, b.events, e);
    if hyp.freshLinks {
      SoundAppend(hyp.mtuGrows, mtus, b.events, e);
    }
  }

  lemma QuietPost(hyp: Hypotheses, mtus: map<u16, u16>, b: Bridge, links: map<u16, u16>, e: Event)
    requires Lag(hyp, mtus, b, links) && !e.Connect? && !e.Disconnect? && !e.MtuExchanged?
    ensures Lag(hyp, mtus, Post(b, e), links)
  {
    PostKeepsLag(hyp, mtus, b, links, e);
  }

  lemma CompletionKeepsLag(hyp: Hypotheses, mtus: map<u16, u16>, b: Bridge, links: map<u16, u16>, opcode: u16, status: byte)
    requires Lag(hyp, mtus, b, links)
    ensures Lag(hyp, mtus, CommandComplete(b, opcode, status), links)
  {
    QuietPost(hyp, mtus, b, links, Advertising(status));
    QuietPost(hyp, mtus, b, links, CommandFailed(opcode, status));
    QuietPost(hyp, mtus, Post(b, Advertising(status)), links, CommandFailed(opcode, status));
  }

  lemma LinkDownKeepsLag(hyp: Hypotheses, mtus: map<u16, u16>, b: Bridge, links: map<u16, u16>, h: u16)
    requires Lag(hyp, mtus, b, links)
    ensures Lag(hyp, mtus, DisconnectionComplete(b, h), links - {h})
  {
    PostKeepsLag(hyp, mtus, b, links, Disconnect(h));
    SubsetSize((links - {h}).Keys, links.Keys);
  }

  lemma LinkUpKeepsLag(hyp: Hypotheses, mtus: map<u16, u16>, b: Bridge, links: map<u16, u16>, h: u16, m: u16)
    requires Lag(hyp, mtus, b, links)
    requires (hyp.freshLinks ==> h !in links) && (hyp.sixteenLinks ==> |links| < SLOTS)
    ensures Lag(hyp, mtus, Post(b, Event.Connect(h, m)), links[h := m])
  {
    PostKeepsLag(hyp, mtus, b, links, Event.Connect(h, m));
    assert links[h := m].Keys == links.Keys + {h};
    assert |links.Keys| == |links|;
  }

  lemma MtuKeepsLag(hyp: Hypotheses, mtus: map<u16, u16>, b: Bridge, links: map<u16, u16>, h: u16, m: u16)
    requires Lag(hyp, mtus, b, links) && (hyp.mtuGrows && h in links ==> links[h] <= m)
    ensures Lag(hyp, mtus, Post(b, MtuExchanged(h, m)), if h in links then links[h := m] else links)
  {
    PostKeepsLag(hyp, mtus, b, links, MtuExchanged(h, m));
    if h in links { assert links[h := m].Keys == links.Keys; }
  }

  lemma FireKeepsLag(hyp: Hypotheses, mtus: map<u16, u16>, b: Bridge, links: map<u16, u16>, i: nat)
    requires Lag(hyp, mtus, b, links)
    ensures Lag(hyp, mtus, Fire(b, i), links)
  {
    FireKeepsSlots(b, links.Keys, i);
    if i < |b.slots| { QuietPost(hyp, mtus, b, links, CanSend(b.slots[i].handle)); }
  }

  lemma RequestKeepsLag(hyp: Hypotheses, mtus: map<u16, u16>, b: Bridge, links: map<u16, u16>, h: u16)
    requires Lag(hyp, mtus, b, links)
    ensures Lag(hyp, mtus, b.(slots := Request(b.slots, h, h in links)), links)
  {
    RequestKeepsSlots(b.slots, links.Keys, h);
  }

  lemma MtusAfterConnect(st: State, c: Connection)
    ensures Mtus(Server.Connect(st, c).connections) == Mtus(st.connections)[c.handle := c.mtu]
  {
  }

  lemma MtusAfterMtu(st: State, h: u16, m: u16)
    ensures Mtus(SetMtu(st, h, m).connections) == if h in Mtus(st.connections) then Mtus(st.connections)[h := m] else Mtus(st.connections)
  {
  }

  /** Processing the head event moves the runtime's view by exactly that event. */
  lemma ViewAfterEvent(s: System, e: Event, status: byte)
    requires s.bridge.events != []
    ensures Mtus(AfterEvent(s, e, status).state.connections) == Absorb(Mtus(s.state.connections), e)
    ensures AfterEvent(s, e, status).bridge == s.bridge.(events := s.bridge.events[1..])
    ensures AfterEvent(s, e, status).links == s.links
  {
    match e
    case Connect(h, m) => MtusAfterConnect(s.state, Connection(h, s.next, m));
    case MtuExchanged(h, m) => MtusAfterMtu(s.state, h, m);
    case Disconnect(h) => assert Mtus(s.state.connections - {h}) == Mtus(s.state.connections) - {h};
    case _ =>
  }

  /** Callbacks and commands leave the view alone. */
  lemma ViewFrame(db: seq<Attribute>, s: System, l: Label)
    requires !l.Process?
    ensures Apply(db, s, l).state.connections == s.state.connections
  {
  }

  lemma StackStep(db: seq<Attribute>, hyp: Hypotheses, s: System, l: Label)
    requires LinksOk(hyp, s) && Enabled(hyp, s, l)
    requires l.LinkUp? || l.LinkDown? || l.MtuExchange? || l.Completion? || l.Working? || l.SlotReady?
    ensures LinksOk(hyp, Apply(db, s, l))
  {
    var mtus := Mtus(s.state.connections);
    match l
    case LinkUp(h, m) => LinkUpKeepsLag(hyp, mtus, s.bridge, s.links, h, m);
    case LinkDown(h) => LinkDownKeepsLag(hyp, mtus, s.bridge, s.links, h);
    case MtuExchange(h, m) => MtuKeepsLag(hyp, mtus, s.bridge, s.links, h, m);
    case Completion(opcode, status) => CompletionKeepsLag(hyp, mtus, s.bridge, s.links, opcode, status);
    case Working => QuietPost(hyp, mtus, s.bridge, s.links, StackWorking);
    case SlotReady(i) => FireKeepsLag(hyp, mtus, s.bridge, s.links, i);
  }

  lemma LinksStep(db: seq<Attribute>, hyp: Hypotheses, s: System, l: Label)
    requires LinksOk(hyp, s) && Enabled(hyp, s, l)
    ensures LinksOk(hyp, Apply(db, s, l))
  {
    var mtus := Mtus(s.state.connections);
    if l.Process? {
      ViewAfterEvent(s, l.event, l.status);
    } else {
      ViewFrame(db, s, l);
      match l
      case Notify(c, _, _) => RequestKeepsLag(hyp, mtus, s.bridge, s.links, c.handle);
      case FlushMore => RequestKeepsLag(hyp, mtus, s.bridge, s.links, s.phase.handle);
      case BeginDelivery | BeginDrain | EndDrain | Stop =>
      case AttRead(_, _, _, _, _) =>
      case AttWrite(_, _, _, _, _, _) =>
      case _ => StackStep(db, hyp, s, l);
    }
  }

  lemma LinksInitially(hyp: Hypotheses, first: nat)
    ensures LinksOk(hyp, Initial(first))
  {
    assert Mtus(map[]) == map[];
  }

  /** The head event is one the runtime's view can take: a new link is new to it, an MTU no smaller. */
  lemma HeadIsHarmless(hyp: Hypotheses, s: System)
    requires hyp.freshLinks && LinksOk(hyp, s) && s.bridge.events != []
    ensures HarmlessTo(hyp.mtuGrows, s.state.connections, s.bridge.events[0])
  {
  }

  ghost predicate HarmlessTo(grows: bool, cs: map<u16, Connection>, e: Event) {
    && (e.Connect? ==> e.handle !in cs)
    && (grows && e.MtuExchanged? && e.handle in cs ==> cs[e.handle].mtu <= e.mtu)
  }
}
