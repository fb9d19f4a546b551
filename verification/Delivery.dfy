/** The notification queue against the slot table: nothing accepted is stranded, reordered, duplicated or misdirected. */
module Delivery {
  import opened Gatt
  import opened Bridge
  import opened Server
  import opened Machine
  import opened Links
  import opened Tables

  // ----- Packet boundaries -----

  predicate Status(e: Event) {
    e.Connect? || e.Disconnect?
  }

  ghost predicate Calm(es: seq<Event>) {
    forall e :: e in es ==> !Status(e)
  }

  ghost predicate AtMostOne(es: seq<Event>) {
    forall i, j :: 0 <= i < j < |es| ==> !(Status(es[i]) && Status(es[j]))
  }

  ghost predicate BoundaryOk(oneChange: bool, phase: Phase, es: seq<Event>) {
    && (phase.Commands? ==> forall e :: e in es ==> e.CanSend?)
    && (phase == Delivering(false) ==> Calm(es))
    && (oneChange && !phase.Stopping? ==> AtMostOne(es))
  }

  lemma BoundaryQuiet(one: bool, phase: Phase, es: seq<Event>, more: seq<Event>)
    requires BoundaryOk(one, phase, es) && Calm(more) && (phase.Commands? ==> forall e :: e in more ==> e.CanSend?)
    ensures BoundaryOk(one, phase, es + more)
  {
    assert forall k :: |es| <= k < |es + more| ==> (es + more)[k] in more;
  }

  lemma BoundaryChange(one: bool, phase: Phase, es: seq<Event>, e: Event)
    requires BoundaryOk(one, phase, es) && InStack(phase) && (one && phase.Delivering? ==> !phase.changed)
    ensures BoundaryOk(one, if phase.Delivering? then Delivering(true) else phase, es + [e])
  {
    if phase == Delivering(false) {
      assert forall k :: 0 <= k < |es| ==> es[k] in es;
    }
  }

  lemma BoundaryTail(one: bool, es: seq<Event>, after: Phase)
    requires BoundaryOk(one, Draining, es) && es != [] && (after.Draining? || after.Flushing? || after.Stopping?)
    ensures BoundaryOk(one, after, es[1..])
  {
  }

  lemma BoundaryPosts(hyp: Hypotheses, s: System, l: Label, db: seq<Attribute>)
    requires BoundaryOk(hyp.oneChange, s.phase, s.bridge.events) && Enabled(hyp, s, l)
    requires l.Completion? || l.LinkDown? || l.LinkUp? || l.MtuExchange? || l.Working? || l.SlotReady?
    ensures BoundaryOk(hyp.oneChange, Apply(db, s, l).phase, Apply(db, s, l).bridge.events)
    ensures s.bridge.events <= Apply(db, s, l).bridge.events
  {
    var one, es := hyp.oneChange, s.bridge.events;
    match l
    case LinkUp(h, m) => BoundaryChange(one, s.phase, es, Event.Connect(h, m));
    case LinkDown(h) => BoundaryChange(one, s.phase, es, Disconnect(h));
    case MtuExchange(h, m) => BoundaryQuiet(one, s.phase, es, [MtuExchanged(h, m)]);
    case Working => BoundaryQuiet(one, s.phase, es, [StackWorking]);
    case SlotReady(i) => BoundaryQuiet(one, s.phase, es, [CanSend(s.bridge.slots[i].handle)]);
    case Completion(opcode, status) =>
      var posted := CommandComplete(s.bridge, opcode, status).events;
      BoundaryQuiet(one, s.phase, es, posted[|es|..]);
      assert posted == es + posted[|es|..];
  }

  lemma BoundaryStep(db: seq<Attribute>, hyp: Hypotheses, s: System, l: Label)
    requires BoundaryOk(hyp.oneChange, s.phase, s.bridge.events) && Enabled(hyp, s, l)
    ensures BoundaryOk(hyp.oneChange, Apply(db, s, l).phase, Apply(db, s, l).bridge.events)
  {
    match l
    case Process(e, status) =>
      ViewAfterEvent(s, e, status);
      BoundaryTail(hyp.oneChange, s.bridge.events, AfterEvent(s, e, status).phase);
    case Notify(_, _, _) =>
    case AttRead(_, _, _, _, _) =>
    case AttWrite(_, _, _, _, _, _) =>
    case BeginDelivery | BeginDrain | EndDrain | Stop | FlushMore =>
    case _ => BoundaryPosts(hyp, s, l, db);
  }

  // ----- No lost wake-up -----

  /** Something will bring the runtime back to this handle's queue. */
  ghost predicate Awaited(phase: Phase, b: Bridge, h: u16) {
    || Waiting(b.slots, h)
    || CanSend(h) in b.events
    || Disconnect(h) in b.events
    || phase == Flushing(h)
  }

  ghost predicate AllAwaited(phase: Phase, b: Bridge, ps: seq<Pending>) {
    forall p :: p in ps ==> Awaited(phase, b, p.connection.handle)
  }

  ghost predicate WakeOk(s: System) {
    AllAwaited(s.phase, s.bridge, s.state.pending)
  }

  /** In the command phase the two views name the same links, so an accepted value finds its link live. */
  lemma ViewsAgree(hyp: Hypotheses, s: System)
    requires LinksOk(hyp, s) && Calm(s.bridge.events)
    ensures s.links.Keys == s.state.connections.Keys
  {
    NoStatusEvents(Mtus(s.state.connections), s.bridge.events);
    assert Mtus(s.state.connections).Keys == s.state.connections.Keys;
  }

  lemma LinkDownKeepsWake(s: System, h: u16)
    requires WakeOk(s)
    ensures AllAwaited(s.phase, DisconnectionComplete(s.bridge, h), s.state.pending)
  {
    var b := DisconnectionComplete(s.bridge, h);
    forall p | p in s.state.pending
      ensures Awaited(s.phase, b, p.connection.handle)
    {
      var k := p.connection.handle;
      if k != h && Waiting(s.bridge.slots, k) {
        var i :| 0 <= i < |s.bridge.slots| && s.bridge.slots[i].busy && s.bridge.slots[i].handle == k;
        assert b.slots[i] == s.bridge.slots[i];
      }
    }
  }

  lemma EventKeepsWake(db: seq<Attribute>, s: System, status: byte)
    requires WakeOk(s) && s.bridge.events != [] && s.phase.Draining?
    ensures WakeOk(AfterEvent(s, s.bridge.events[0], status))
  {
    var e := s.bridge.events[0];
    var s' := AfterEvent(s, e, status);
    ViewAfterEvent(s, e, status);
    PendingAfterEvent(s, e, status);
    assert s.bridge.events == [e] + s'.bridge.events;
    forall p | p in s'.state.pending
      ensures Awaited(s'.phase, s'.bridge, p.connection.handle)
    {
      assert Awaited(s.phase, s.bridge, p.connection.handle);
    }
  }

  /** The head event leaves no value of a disconnected handle, and begins a flush exactly when one is queued. */
  lemma PendingAfterEvent(s: System, e: Event, status: byte)
    requires s.bridge.events != [] && s.phase.Draining?
    ensures var s' := AfterEvent(s, e, status);
            && (forall p :: p in s'.state.pending ==> p in s.state.pending)
            && (e.Disconnect? ==> forall p :: p in s'.state.pending ==> p.connection.handle != e.handle)
            && (e.CanSend? ==> s'.phase == Flushing(e.handle) || forall p :: p in s'.state.pending ==> p.connection.handle != e.handle)
  {
    if e.Disconnect? {
      WithoutMembers(s.state.pending, e.handle);
    }
  }

  /** What a request for `h` must find, or it is dropped in silence. */
  ghost predicate Room(b: Bridge, h: u16) {
    || Waiting(b.slots, h)
    || CanSend(h) in b.events
    || Disconnect(h) in b.events
    || exists i :: 0 <= i < |b.slots| && !b.slots[i].busy
  }

  /** The two steps that request a send: an accepted command, and a flush with more to send. */
  ghost predicate Finds(db: seq<Attribute>, s: System, l: Label) {
    match l
    case Notify(c, uuid, value) => Admit(db, s.state, c, uuid, value).Success? ==> Room(s.bridge, c.handle)
    case FlushMore => s.phase.Flushing? && Queued(s.state.pending, s.phase.handle) ==> Room(s.bridge, s.phase.handle)
    case _ => true
  }

  /** A request for a handle the runtime lists: BTstack takes it, or the link's loss is announced already. */
  lemma RequestIsAwaitedIff(hyp: Hypotheses, cs: map<u16, Connection>, b: Bridge, links: map<u16, u16>, phase: Phase, h: u16)
    requires Lag(hyp, Mtus(cs), b, links) && h in cs && !phase.Flushing?
    ensures Awaited(phase, b.(slots := Request(b.slots, h, h in links)), h) <==> Room(b, h)
  {
    if h in links {
      RequestWaitsIff(b.slots, h);
    } else {
      LostLinkIsAnnounced(Mtus(cs), b.events, h);
    }
  }

  lemma SixteenLinksFindRoom(hyp: Hypotheses, cs: map<u16, Connection>, b: Bridge, links: map<u16, u16>, h: u16)
    requires hyp.sixteenLinks && Lag(hyp, Mtus(cs), b, links) && h in cs
    ensures Room(b, h)
  {
    if h in links {
      RequestIsNeverLost(b.slots, links.Keys, h);
      RequestWaitsIff(b.slots, h);
    } else {
      LostLinkIsAnnounced(Mtus(cs), b.events, h);
    }
  }

  lemma NotifyWakeIff(db: seq<Attribute>, hyp: Hypotheses, first: nat, s: System, c: Connection, uuid: Uuid, value: seq<byte>)
    requires LinksOk(hyp, s) && TablesOk(db, hyp, first, s) && WakeOk(s) && s.phase.Commands? && |value| <= MAX_VALUE
    requires Admit(db, s.state, c, uuid, value).Success?
    ensures WakeOk(AfterNotify(db, s, c, uuid, value)) <==> Room(s.bridge, c.handle)
  {
    var s' := AfterNotify(db, s, c, uuid, value);
    AdmittedIsOk(db, hyp, first, s, c, uuid, value);
    RequestIsAwaitedIff(hyp, s.state.connections, s.bridge, s.links, s.phase, c.handle);
    RequestKeepsSlots(s.bridge.slots, s.links.Keys, c.handle);
    assert s'.state.pending[|s.state.pending|].connection.handle == c.handle;
  }

  lemma AskAgainWakeIff(hyp: Hypotheses, s: System, h: u16)
    requires LinksOk(hyp, s) && s.phase == Flushing(h) && WakeOk(s)
    requires forall p :: p in s.state.pending ==> p.connection.handle in s.state.connections
    ensures WakeOk(AskAgain(s, h)) <==> (Queued(s.state.pending, h) ==> Room(s.bridge, h))
  {
    RequestKeepsSlots(s.bridge.slots, s.links.Keys, h);
    if Queued(s.state.pending, h) {
      RequestIsAwaitedIff(hyp, s.state.connections, s.bridge, s.links, Draining, h);
    }
  }

  /** Any number of links: a step leaves every queued value awaited if and only if its request, if it makes
      one, finds room. */
  lemma WakeStepIff(db: seq<Attribute>, hyp: Hypotheses, first: nat, s: System, l: Label)
    requires WellFormed(db) && LinksOk(hyp, s) && TablesOk(db, hyp, first, s) && WakeOk(s)
    requires BoundaryOk(hyp.oneChange, s.phase, s.bridge.events) && Enabled(hyp, s, l)
    ensures WakeOk(Apply(db, s, l)) <==> Finds(db, s, l)
  {
    match l
    case Notify(c, uuid, value) =>
      if Admit(db, s.state, c, uuid, value).Success? { NotifyWakeIff(db, hyp, first, s, c, uuid, value); }
    case FlushMore => AskAgainWakeIff(hyp, s, s.phase.handle);
    case _ => OtherStepsKeepWake(db, hyp, first, s, l);
  }

  lemma OtherStepsKeepWake(db: seq<Attribute>, hyp: Hypotheses, first: nat, s: System, l: Label)
    requires WellFormed(db) && LinksOk(hyp, s) && TablesOk(db, hyp, first, s) && WakeOk(s)
    requires BoundaryOk(hyp.oneChange, s.phase, s.bridge.events) && Enabled(hyp, s, l) && !l.Notify? && !l.FlushMore?
    ensures WakeOk(Apply(db, s, l))
  {
    match l
    case LinkDown(h) => LinkDownKeepsWake(s, h);
    case SlotReady(i) => FireKeepsSlots(s.bridge, s.links.Keys, i);
    case Process(e, status) => EventKeepsWake(db, s, status);
    case AttRead(h, a, offset, buffer, answer) => ReadKeepsTables(db, s.state, h, a, offset, buffer, answer);
    case AttWrite(h, a, mode, offset, value, verdict) => WriteKeepsTables(db, s.state, h, a, mode, offset, value, verdict);
    case LinkUp(_, _) => BoundaryPosts(hyp, s, l, db);
    case MtuExchange(_, _) => BoundaryPosts(hyp, s, l, db);
    case Completion(_, _) => BoundaryPosts(hyp, s, l, db);
    case Working => BoundaryPosts(hyp, s, l, db);
    case _ =>
  }

  /** With at most sixteen links every request finds room. */
  lemma WakeStep(db: seq<Attribute>, hyp: Hypotheses, first: nat, s: System, l: Label)
    requires WellFormed(db) && hyp.sixteenLinks && LinksOk(hyp, s) && TablesOk(db, hyp, first, s) && WakeOk(s)
    requires BoundaryOk(hyp.oneChange, s.phase, s.bridge.events) && Enabled(hyp, s, l)
    ensures WakeOk(Apply(db, s, l))
  {
    WakeStepIff(db, hyp, first, s, l);
    if l.Notify? && Admit(db, s.state, l.connection, l.uuid, l.value).Success? {
      SixteenLinksFindRoom(hyp, s.state.connections, s.bridge, s.links, l.connection.handle);
    } else if l.FlushMore? && Queued(s.state.pending, s.phase.handle) {
      SixteenLinksFindRoom(hyp, s.state.connections, s.bridge, s.links, s.phase.handle);
    }
  }
}
