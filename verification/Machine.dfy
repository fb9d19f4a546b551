/** The runtime thread, the bridge and BTstack as one state machine.

    Steps follow the loop in `run`: a batch of commands, the delivery of one packet (during which
    BTstack calls back), and the drain of the posted events. BTstack and the application are the
    environment: labels carry their answers. A `can_send` callback that BTstack makes from inside
    `rs_request_send` or `rs_notify` is a `CanSend` step right after it. */
module Machine {
  import opened Gatt
  import opened Bridge
  import opened Server

  /** Assumptions about BTstack beyond what `Enabled` always demands. A theorem names those it needs. */
  datatype Hypotheses = Hypotheses(
    freshLinks: bool,     // a connect event comes only for a handle that is not live
    sixteenLinks: bool,   // at most as many live links as the bridge has slots
    mtuGrows: bool,       // an MTU event never shrinks a link's MTU
    oneChange: bool)      // one delivered packet changes the status of at most one link, once

  datatype Phase =
    | Commands
    | Delivering(changed: bool)
    | Draining
    | Flushing(handle: u16)   // between rs_notify and the decision to ask for another send
    | Stopping                // `run` has returned; BTstack may still call back

  /** A value given to `rs_notify`, with the connection that held the handle at that moment. */
  datatype Transmission = Transmission(item: Pending, peer: Option<Connection>)

  /** History, kept only to state properties. */
  datatype Log = Log(
    accepted: seq<Pending>,       // admitted by a Notify command
    dequeued: seq<Pending>,       // taken from the queue by a flush
    purged: seq<Pending>,         // removed by a disconnect
    handed: seq<Transmission>)    // given to rs_notify

  datatype System = System(
    phase: Phase,
    state: State,
    bridge: Bridge,
    links: map<u16, u16>,         // BTstack's live links and their MTUs
    next: nat,                    // NEXT_CONNECTION
    started: bool,
    emitted: seq<ServerEvent>,
    log: Log)

  datatype Label =
    | Notify(connection: Connection, uuid: Uuid, value: seq<byte>)
    | BeginDelivery
    | LinkUp(handle: u16, mtu: u16)
    | LinkDown(handle: u16)
    | MtuExchange(handle: u16, mtu: u16)
    | Completion(opcode: u16, status: byte)
    | Working
    | AttRead(handle: u16, attribute: u16, offset: u16, buffer: Option<u16>, answer: ReadOutcome)
    | AttWrite(handle: u16, attribute: u16, mode: u16, offset: u16, value: seq<byte>, verdict: WriteOutcome)
    | SlotReady(slot: nat)
    | BeginDrain
    | Process(event: Event, status: byte)
    | FlushMore
    | EndDrain
    | Stop

  predicate InStack(phase: Phase) {
    phase.Delivering? || phase.Stopping?
  }

  ghost predicate Enabled(hyp: Hypotheses, s: System, l: Label) {
    match l
    case Notify(_, _, value) => s.phase.Commands? && |value| <= MAX_VALUE
    case BeginDelivery => s.phase.Commands?
    case LinkUp(h, _) =>
      && InStack(s.phase)
      && (hyp.freshLinks ==> h !in s.links)
      && (hyp.sixteenLinks ==> |s.links| < SLOTS)
      && (hyp.oneChange && s.phase.Delivering? ==> !s.phase.changed)
    case LinkDown(_) => InStack(s.phase) && (hyp.oneChange && s.phase.Delivering? ==> !s.phase.changed)
    case MtuExchange(h, m) => InStack(s.phase) && (hyp.mtuGrows && h in s.links ==> s.links[h] <= m)
    case Completion(_, _) => InStack(s.phase)
    case Working => InStack(s.phase)
    case AttRead(_, _, _, _, _) => InStack(s.phase)
    case AttWrite(_, _, _, _, _, _) => InStack(s.phase)
    case SlotReady(i) => i < |s.bridge.slots| && s.bridge.slots[i].busy
    case BeginDrain => s.phase.Delivering?
    case Process(e, _) => s.phase.Draining? && s.bridge.events != [] && s.bridge.events[0] == e
    case FlushMore => s.phase.Flushing?
    case EndDrain => s.phase.Draining? && s.bridge.events == []
    case Stop => !s.phase.Flushing?
  }

  /** Only the bridge and BTstack's own links change. */
  function Posted(s: System, bridge: Bridge, links: map<u16, u16>, status: bool): System {
    s.(bridge := bridge, links := links,
       phase := if status && s.phase.Delivering? then Delivering(true) else s.phase)
  }

  function AfterNotify(db: seq<Attribute>, s: System, c: Connection, uuid: Uuid, value: seq<byte>): System {
    match Admit(db, s.state, c, uuid, value)
    case Failure(_) => s
    case Success(p) =>
      s.(state := Enqueue(s.state, p),
         bridge := s.bridge.(slots := Request(s.bridge.slots, c.handle, c.handle in s.links)),
         log := s.log.(accepted := s.log.accepted + [p]))
  }

  function Current(st: State, handle: u16): Option<Connection> {
    if handle in st.connections then Some(st.connections[handle]) else None
  }

  function AfterFlush(s: System, handle: u16, status: byte): System {
    var i := FirstFor(s.state.pending, handle);
    if i == |s.state.pending| then s
    else
      var p := s.state.pending[i];
      var taken := s.(phase := Flushing(handle),
                      state := s.state.(pending := RemoveAt(s.state.pending, i)),
                      log := s.log.(dequeued := s.log.dequeued + [p]));
      if Subscribed(s.state.subscriptions, handle, p.attribute) then
        taken.(emitted := if status == 0 then s.emitted else s.emitted + [NotificationFailed(p.connection, status)],
               log := taken.log.(handed := s.log.handed + [Transmission(p, Current(s.state, handle))]))
      else taken
  }

  /** A flush takes at most one entry and reports at most one failure, for that entry's connection. */
  lemma FlushShape(s: System, h: u16, status: byte)
    ensures var s' := AfterFlush(s, h, status);
            var i := FirstFor(s.state.pending, h);
            && s'.state == s.state.(pending := s'.state.pending)
            && s'.next == s.next && s'.bridge == s.bridge
            && (s'.emitted == s.emitted
                || (i < |s.state.pending|
                    && s'.emitted == s.emitted + [NotificationFailed(s.state.pending[i].connection, status)]))
  {
  }

  function AskAgain(s: System, h: u16): System {
    var asked := if Queued(s.state.pending, h) then Request(s.bridge.slots, h, h in s.links) else s.bridge.slots;
    s.(phase := Draining, bridge := s.bridge.(slots := asked))
  }

  function AfterConnect(s: System, h: u16, m: u16): System {
    var c := Connection(h, s.next, m);
    s.(state := Server.Connect(s.state, c), next := s.next + 1, emitted := s.emitted + [Connected(c)])
  }

  function AfterDisconnect(s: System, h: u16): System {
    var gone := s.(state := Server.Disconnect(s.state, h), log := s.log.(purged := s.log.purged + For(s.state.pending, h)));
    if h in s.state.connections then gone.(emitted := s.emitted + [Disconnected(s.state.connections[h])]) else gone
  }

  function AfterEvent(s0: System, e: Event, status: byte): System
    requires s0.bridge.events != []
  {
    var s := s0.(bridge := s0.bridge.(events := s0.bridge.events[1..]));
    match e
    case StackWorking => s
    case Advertising(code) => if code != 0 then s.(phase := Stopping) else s.(started := true)
    case CommandFailed(_, _) => s.(phase := Stopping)
    case Connect(h, m) => AfterConnect(s, h, m)
    case Disconnect(h) => AfterDisconnect(s, h)
    case MtuExchanged(h, m) => s.(state := SetMtu(s.state, h, m))
    case CanSend(h) => AfterFlush(s, h, status)
  }

  function Apply(db: seq<Attribute>, s: System, l: Label): System {
    match l
    case Notify(c, uuid, value) => AfterNotify(db, s, c, uuid, value)
    case BeginDelivery => s.(phase := Delivering(false))
    case LinkUp(h, m) => Posted(s, Post(s.bridge, Event.Connect(h, m)), s.links[h := m], true)
    case LinkDown(h) => Posted(s, DisconnectionComplete(s.bridge, h), s.links - {h}, true)
    case MtuExchange(h, m) =>
      Posted(s, Post(s.bridge, MtuExchanged(h, m)), if h in s.links then s.links[h := m] else s.links, false)
    case Completion(opcode, status) => Posted(s, CommandComplete(s.bridge, opcode, status), s.links, false)
    case Working => Posted(s, Post(s.bridge, StackWorking), s.links, false)
    case AttRead(h, a, offset, buffer, answer) => s.(state := Server.Read(db, s.state, h, a, offset, buffer, answer).0)
    case AttWrite(h, a, mode, offset, value, verdict) =>
      var w := Server.Write(db, s.state, h, a, mode, offset, value, verdict);
      s.(state := w.state, emitted := s.emitted + w.events)
    case SlotReady(i) => s.(bridge := Fire(s.bridge, i))
    case BeginDrain => s.(phase := Draining)
    case Process(e, status) => if s.bridge.events == [] then s else AfterEvent(s, e, status)
    case FlushMore => if s.phase.Flushing? then AskAgain(s, s.phase.handle) else s
    case EndDrain => s.(phase := Commands)
    case Stop => s.(phase := Stopping)
  }

  ghost predicate Runs(db: seq<Attribute>, hyp: Hypotheses, s: System, ls: seq<Label>)
    decreases |ls|
  {
    ls == [] || (Enabled(hyp, s, ls[0]) && Runs(db, hyp, Apply(db, s, ls[0]), ls[1..]))
  }

  function After(db: seq<Attribute>, s: System, ls: seq<Label>): System
    decreases |ls|
  {
    if ls == [] then s else After(db, Apply(db, s, ls[0]), ls[1..])
  }

  /** A worker thread just after `rs_start`; earlier sessions have used the generations below `first`. */
  function Initial(first: nat): System {
    System(Commands, EMPTY, Bridge(seq(SLOTS, _ => Slot(false, 0)), [], true), map[], first, false, [], Log([], [], [], []))
  }

  lemma {:induction false} AfterConcat(db: seq<Attribute>, s: System, p: seq<Label>, q: seq<Label>)
    ensures After(db, s, p + q) == After(db, After(db, s, p), q)
    decreases |p|
  {
    if p == [] {
      assert p + q == q;
    } else {
      AfterConcat(db, Apply(db, s, p[0]), p[1..], q);
      assert (p + q)[1..] == p[1..] + q;
    }
  }

  lemma {:induction false} RunsConcat(db: seq<Attribute>, hyp: Hypotheses, s: System, p: seq<Label>, q: seq<Label>)
    ensures Runs(db, hyp, s, p + q) <==> Runs(db, hyp, s, p) && Runs(db, hyp, After(db, s, p), q)
    decreases |p|
  {
    if p == [] {
      assert p + q == q;
    } else {
      var s' := Apply(db, s, p[0]);
      RunsConcat(db, hyp, s', p[1..], q);
      assert (p + q)[1..] == p[1..] + q;
    }
  }

  /** A prefix of a run is a run, and the next label takes it one step further. */
  lemma PrefixStep(db: seq<Attribute>, hyp: Hypotheses, s: System, ls: seq<Label>, k: nat)
    requires Runs(db, hyp, s, ls) && k < |ls|
    ensures Runs(db, hyp, s, ls[..k]) && Runs(db, hyp, s, ls[..k + 1])
    ensures Enabled(hyp, After(db, s, ls[..k]), ls[k])
    ensures After(db, s, ls[..k + 1]) == Apply(db, After(db, s, ls[..k]), ls[k])
  {
    var t := After(db, s, ls[..k]);
    assert ls == ls[..k] + ls[k..];
    RunsConcat(db, hyp, s, ls[..k], ls[k..]);
    assert ls[..k + 1] == ls[..k] + [ls[k]];
    RunsConcat(db, hyp, s, ls[..k], [ls[k]]);
    AfterConcat(db, s, ls[..k], [ls[k]]);
    assert [ls[k]][1..] == [];
    var t' := Apply(db, t, ls[k]);
    assert Runs(db, hyp, t', []) && After(db, t', []) == t';
  }
}
