/** The runtime thread itself: its fields updated in place, each method proved to be steps of the machine. */
module Runtime {
  import opened Gatt
  import opened Bridge
  import opened Server
  import opened Machine
  import opened Ledger

  /** Callbacks that BTstack makes from inside a call are `SlotReady` steps. */
  function Fires(s: System, fired: seq<nat>): System {
    s.(bridge := FireAll(s.bridge, fired))
  }

  function FireLabels(s: System, fired: seq<nat>): seq<Label> {
    if fired == [] then []
    else
      var front, i := fired[..|fired| - 1], fired[|fired| - 1];
      var b := FireAll(s.bridge, front);
      FireLabels(s, front) + (if i < |b.slots| && b.slots[i].busy then [SlotReady(i)] else [])
  }

  lemma Extend(db: seq<Attribute>, hyp: Hypotheses, s: System, ls: seq<Label>, l: Label)
    requires Runs(db, hyp, s, ls) && Enabled(hyp, After(db, s, ls), l)
    ensures Runs(db, hyp, s, ls + [l]) && After(db, s, ls + [l]) == Apply(db, After(db, s, ls), l)
  {
    var t := After(db, s, ls);
    RunsConcat(db, hyp, s, ls, [l]);
    AfterConcat(db, s, ls, [l]);
    assert [l][1..] == [];
    assert Runs(db, hyp, Apply(db, t, l), []) && After(db, Apply(db, t, l), []) == Apply(db, t, l);
  }

  lemma {:induction false} FiresAreSteps(db: seq<Attribute>, hyp: Hypotheses, s: System, fired: seq<nat>)
    ensures Runs(db, hyp, s, FireLabels(s, fired))
    ensures After(db, s, FireLabels(s, fired)) == Fires(s, fired)
    ensures forall l :: l in FireLabels(s, fired) ==> l.SlotReady?
  {
    if fired != [] {
      var front, i := fired[..|fired| - 1], fired[|fired| - 1];
      FiresAreSteps(db, hyp, s, front);
      var b := FireAll(s.bridge, front);
      if i < |b.slots| && b.slots[i].busy {
        Extend(db, hyp, s, FireLabels(s, front), SlotReady(i));
      } else {
        assert FireLabels(s, fired) == FireLabels(s, front);
      }
    }
  }

  /** A run from `s` to `t` made of drain steps only. */
  ghost predicate Drains(db: seq<Attribute>, hyp: Hypotheses, s: System, t: System, ls: seq<Label>) {
    Runs(db, hyp, s, ls) && After(db, s, ls) == t && forall l :: l in ls ==> DrainLabel(l)
  }

  lemma DrainsConcat(db: seq<Attribute>, hyp: Hypotheses, s: System, t: System, u: System, p: seq<Label>, q: seq<Label>)
    requires Drains(db, hyp, s, t, p) && Drains(db, hyp, t, u, q)
    ensures Drains(db, hyp, s, u, p + q)
  {
    RunsConcat(db, hyp, s, p, q);
    AfterConcat(db, s, p, q);
  }

  lemma DrainsOne(db: seq<Attribute>, hyp: Hypotheses, s: System, l: Label)
    requires Enabled(hyp, s, l) && DrainLabel(l)
    ensures Drains(db, hyp, s, Apply(db, s, l), [l])
  {
    assert Runs(db, hyp, s, []) && After(db, s, []) == s;
    Extend(db, hyp, s, [], l);
    assert [] + [l] == [l];
  }

  /** Process the head event, with callbacks inside rs_notify, then ask again, with callbacks inside that. */
  lemma FlushIsARun(db: seq<Attribute>, hyp: Hypotheses, s: System, h: u16, status: byte, inNotify: seq<nat>, inRequest: seq<nat>)
    requires Enabled(hyp, s, Process(CanSend(h), status))
    requires Apply(db, s, Process(CanSend(h), status)).phase == Flushing(h)
    ensures var sent := Fires(Apply(db, s, Process(CanSend(h), status)), inNotify);
            var ls := [Process(CanSend(h), status)] + FireLabels(Apply(db, s, Process(CanSend(h), status)), inNotify)
                      + [FlushMore] + FireLabels(AskAgain(sent, h), inRequest);
            Drains(db, hyp, s, Fires(AskAgain(sent, h), inRequest), ls)
  {
    var p := Apply(db, s, Process(CanSend(h), status));
    var sent := Fires(p, inNotify);
    var asked := AskAgain(sent, h);
    DrainsOne(db, hyp, s, Process(CanSend(h), status));
    FiresAreSteps(db, hyp, p, inNotify);
    DrainsConcat(db, hyp, s, p, sent, [Process(CanSend(h), status)], FireLabels(p, inNotify));
    DrainsOne(db, hyp, sent, FlushMore);
    DrainsConcat(db, hyp, s, sent, asked, [Process(CanSend(h), status)] + FireLabels(p, inNotify), [FlushMore]);
    FiresAreSteps(db, hyp, asked, inRequest);
    DrainsConcat(db, hyp, s, asked, Fires(asked, inRequest),
                 [Process(CanSend(h), status)] + FireLabels(p, inNotify) + [FlushMore], FireLabels(asked, inRequest));
  }

  lemma NotifyIsARun(db: seq<Attribute>, hyp: Hypotheses, s: System, c: Connection, uuid: Uuid, value: seq<byte>, fired: seq<nat>)
    requires s.phase.Commands? && |value| <= MAX_VALUE
    ensures var queued := AfterNotify(db, s, c, uuid, value);
            var ls := [Machine.Label.Notify(c, uuid, value)] + FireLabels(queued, fired);
            Runs(db, hyp, s, ls) && After(db, s, ls) == Fires(queued, fired)
            && forall l :: l in ls[1..] ==> l.SlotReady?
  {
    var l := Machine.Label.Notify(c, uuid, value);
    var queued := AfterNotify(db, s, c, uuid, value);
    assert Runs(db, hyp, s, []) && After(db, s, []) == s;
    Extend(db, hyp, s, [], l);
    assert [] + [l] == [l];
    FiresAreSteps(db, hyp, queued, fired);
    RunsConcat(db, hyp, s, [l], FireLabels(queued, fired));
    AfterConcat(db, s, [l], FireLabels(queued, fired));
    assert ([l] + FireLabels(queued, fired))[1..] == FireLabels(queued, fired);
  }

  function Popped(s: System): System
    requires s.bridge.events != []
  {
    s.(bridge := s.bridge.(events := s.bridge.events[1..]))
  }

  /** What BTstack does during the k-th event of a drain. */
  datatype Answers = Answers(status: nat -> byte, inNotify: nat -> seq<nat>, inRequest: nat -> seq<nat>)

  datatype NotifyError = ValueTooLong | RefusedBy(refusal: Refusal)

  datatype Command =
    | StopCommand
    | NotifyCommand(connection: Connection, uuid: Uuid, value: seq<byte>, fired: seq<nat>)

  const BATCH := 128

  /** The answer to a Notify command, and the tables after it; callbacks never touch the tables. */
  function Respond(db: seq<Attribute>, st: State, c: Command): Result<(), NotifyError>
    requires c.NotifyCommand?
  {
    if |c.value| > MAX_VALUE then Failure(ValueTooLong)
    else
      match Admit(db, st, c.connection, c.uuid, c.value)
      case Failure(refusal) => Failure(RefusedBy(refusal))
      case Success(_) => Success(())
  }

  function Execute(db: seq<Attribute>, st: State, c: Command): State {
    if c.NotifyCommand? && Respond(db, st, c).Success? then Enqueue(st, Admit(db, st, c.connection, c.uuid, c.value).value)
    else st
  }

  function ExecuteAll(db: seq<Attribute>, st: State, cs: seq<Command>): State {
    if cs == [] then st else Execute(db, ExecuteAll(db, st, cs[..|cs| - 1]), cs[|cs| - 1])
  }

  /** One answer for each Notify command, in order; each depends on the commands before it. */
  function RespondAll(db: seq<Attribute>, st: State, cs: seq<Command>): seq<Result<(), NotifyError>> {
    if cs == [] then []
    else
      var front, c := cs[..|cs| - 1], cs[|cs| - 1];
      RespondAll(db, st, front) + (if c.NotifyCommand? then [Respond(db, ExecuteAll(db, st, front), c)] else [])
  }

  /** BTstack calls back only from inside a registration that it took. */
  function Called(s: System, h: u16, fired: seq<nat>): seq<nat> {
    if h in s.links && Registers(s.bridge.slots, h) then fired else []
  }

  /** The steps that a command is. */
  function CommandLabels(db: seq<Attribute>, s: System, c: Command): seq<Label> {
    if c.StopCommand? then [Machine.Label.Stop]
    else if Respond(db, s.state, c).Failure? then []
    else
      [Machine.Label.Notify(c.connection, c.uuid, c.value)]
      + FireLabels(AfterNotify(db, s, c.connection, c.uuid, c.value), Called(s, c.connection.handle, c.fired))
  }

  function BatchLabels(db: seq<Attribute>, s: System, cs: seq<Command>): seq<Label> {
    if cs == [] then []
    else
      var before := BatchLabels(db, s, cs[..|cs| - 1]);
      before + CommandLabels(db, After(db, s, before), cs[|cs| - 1])
  }

  /** Obeying `cs` from `s` leads to `t` by the steps `ls` and gives these answers. */
  ghost predicate Answered(db: seq<Attribute>, s: System, cs: seq<Command>, t: System, responses: seq<Result<(), NotifyError>>,
                           ls: seq<Label>)
  {
    && responses == RespondAll(db, s.state, cs) && t.state == ExecuteAll(db, s.state, cs)
    && ls == BatchLabels(db, s, cs) && t == After(db, s, ls)
  }

  lemma AnsweredNext(db: seq<Attribute>, s: System, queue: seq<Command>, k: nat, t: System, responses: seq<Result<(), NotifyError>>,
                     ls: seq<Label>, u: System)
    requires k < |queue| && Answered(db, s, queue[..k], t, responses, ls)
    requires u.state == Execute(db, t.state, queue[k]) && u == After(db, t, CommandLabels(db, t, queue[k]))
    ensures Answered(db, s, queue[..k + 1], u,
                     responses + if queue[k].NotifyCommand? then [Respond(db, t.state, queue[k])] else [],
                     ls + CommandLabels(db, t, queue[k]))
  {
    assert queue[..k + 1][..k] == queue[..k];
    AfterConcat(db, s, ls, CommandLabels(db, t, queue[k]));
  }

  /** The oldest value of `h` is still wanted. */
  predicate Wanted(s: System, h: u16) {
    var i := FirstFor(s.state.pending, h);
    i < |s.state.pending| && Subscribed(s.state.subscriptions, h, s.state.pending[i].attribute)
  }

  function InNotify(s: System, h: u16, fired: seq<nat>): seq<nat> {
    if Wanted(s, h) then fired else []
  }

  function InRequest(s: System, h: u16, fired: seq<nat>): seq<nat> {
    if Queued(s.state.pending, h) then Called(s, h, fired) else []
  }

  /** The steps that a flush is: callbacks come inside rs_notify and inside the repeated request. */
  function FlushLabels(db: seq<Attribute>, s: System, h: u16, status: byte, inNotify: seq<nat>, inRequest: seq<nat>): seq<Label>
    requires s.bridge.events != []
  {
    var p := AfterFlush(Popped(s), h, status);
    if !p.phase.Flushing? then [Process(CanSend(h), status)]
    else
      var sent := Fires(p, InNotify(Popped(s), h, inNotify));
      [Process(CanSend(h), status)] + FireLabels(p, InNotify(Popped(s), h, inNotify))
      + [FlushMore] + FireLabels(AskAgain(sent, h), InRequest(sent, h, inRequest))
  }

  /** The steps that the k-th event of a drain is. */
  function EventLabels(db: seq<Attribute>, s: System, answers: Answers, k: nat): seq<Label>
    requires s.bridge.events != []
  {
    var e := s.bridge.events[0];
    if e.CanSend? then FlushLabels(db, s, e.handle, answers.status(k), answers.inNotify(k), answers.inRequest(k))
    else [Process(e, 0)]
  }

  /** No assumption on BTstack beyond what `Enabled` always demands. */
  const ANY := Hypotheses(false, false, false, false)

  lemma EventIsARun(db: seq<Attribute>, s: System, answers: Answers, k: nat)
    requires s.phase.Draining? && s.bridge.events != []
    ensures var ls := EventLabels(db, s, answers, k);
            Drains(db, ANY, s, After(db, s, ls), ls) && Weight(After(db, s, ls)) < Weight(s)
  {
    var e := s.bridge.events[0];
    var ls := EventLabels(db, s, answers, k);
    if e.CanSend? && AfterFlush(Popped(s), e.handle, answers.status(k)).phase.Flushing? {
      var p := AfterFlush(Popped(s), e.handle, answers.status(k));
      var notified := InNotify(Popped(s), e.handle, answers.inNotify(k));
      FlushIsARun(db, ANY, s, e.handle, answers.status(k), notified,
                  InRequest(Fires(p, notified), e.handle, answers.inRequest(k)));
    } else {
      DrainsOne(db, ANY, s, ls[0]);
    }
    DrainTerminates(db, ANY, s, ls);
  }

  /** The steps of a whole drain: every posted event in order, until none is left or one is an error. */
  ghost function DrainLabels(db: seq<Attribute>, s: System, answers: Answers, k: nat): seq<Label>
    decreases Weight(s)
  {
    if !s.phase.Draining? || s.bridge.events == [] then []
    else
      EventIsARun(db, s, answers, k);
      var ls := EventLabels(db, s, answers, k);
      ls + DrainLabels(db, After(db, s, ls), answers, k + 1)
  }

  /** The drain that began in `s` has made the steps `ls`, and the k-th event in `t` comes next. */
  ghost predicate Drained(db: seq<Attribute>, hyp: Hypotheses, s: System, t: System, ls: seq<Label>, answers: Answers, k: nat) {
    Drains(db, hyp, s, t, ls) && ls + DrainLabels(db, t, answers, k) == DrainLabels(db, s, answers, 0)
  }

  lemma DrainUnfolds(db: seq<Attribute>, s: System, answers: Answers, k: nat)
    requires s.phase.Draining? && s.bridge.events != []
    ensures var ls := EventLabels(db, s, answers, k);
            DrainLabels(db, s, answers, k) == ls + DrainLabels(db, After(db, s, ls), answers, k + 1)
  {
  }

  lemma AssocLabels(a: seq<Label>, b: seq<Label>, c: seq<Label>)
    ensures a + (b + c) == a + b + c
  {
  }

  lemma DrainedNext(db: seq<Attribute>, hyp: Hypotheses, s: System, t: System, u: System, ls: seq<Label>, more: seq<Label>,
                    answers: Answers, k: nat)
    requires Drained(db, hyp, s, t, ls, answers, k) && t.phase.Draining? && t.bridge.events != []
    requires more == EventLabels(db, t, answers, k) && Drains(db, hyp, t, u, more)
    ensures Drained(db, hyp, s, u, ls + more, answers, k + 1) && Weight(u) < Weight(t)
  {
    EventIsARun(db, t, answers, k);
    DrainUnfolds(db, t, answers, k);
    DrainsConcat(db, hyp, s, t, u, ls, more);
    AssocLabels(ls, more, DrainLabels(db, u, answers, k + 1));
  }

  ghost predicate Leads(db: seq<Attribute>, hyp: Hypotheses, s: System, t: System, ls: seq<Label>) {
    Runs(db, hyp, s, ls) && After(db, s, ls) == t
  }

  lemma LeadsOn(db: seq<Attribute>, hyp: Hypotheses, s: System, t: System, u: System, p: seq<Label>, q: seq<Label>)
    requires Leads(db, hyp, s, t, p) && Leads(db, hyp, t, u, q)
    ensures Leads(db, hyp, s, u, p + q)
  {
    RunsConcat(db, hyp, s, p, q);
    AfterConcat(db, s, p, q);
  }

  class Worker {
    const db: seq<Attribute>
    const shim: Shim
    var connections: map<u16, Connection>
    var subscriptions: Subscriptions
    var snapshots: Snapshots
    var pending: seq<Pending>
    var emitted: seq<ServerEvent>
    var next: nat
    var started: bool
    var links: map<u16, u16>
    ghost var phase: Phase
    ghost var log: Log

    ghost predicate Valid()
      reads this, shim
    {
      shim.Valid()
    }

    ghost function Sys(): System
      reads this, shim, shim.slots
    {
      System(phase, State(connections, subscriptions, snapshots, pending), shim.Abs(), links, next, started, emitted, log)
    }

    /** A worker that has just started advertising: BTstack has no links yet. */
    constructor (db: seq<Attribute>, shim: Shim, first: nat)
      requires shim.Valid() && shim.Abs() == Initial(first).bridge
      ensures Valid() && this.db == db && this.shim == shim && Sys() == Initial(first)
    {
      this.db, this.shim, next := db, shim, first;
      connections, subscriptions, snapshots, pending, emitted := map[], map[], map[], [], [];
      started, links, phase, log := false, map[], Commands, Log([], [], [], []);
    }

    /** `Runtime::notify` and the Notify command: a refusal changes nothing; an accepted value is queued
        and BTstack is asked for a can-send, which it may grant before the call returns. */
    method Notify(c: Connection, uuid: Uuid, value: seq<byte>, fired: seq<nat>, ghost hyp: Hypotheses)
      returns (r: Result<(), NotifyError>, ghost ls: seq<Label>)
      requires Valid() && phase.Commands?
      modifies this, shim, shim.slots
      ensures Valid() && Runs(db, hyp, old(Sys()), ls) && Sys() == After(db, old(Sys()), ls) && phase.Commands?
      ensures r == Failure(ValueTooLong) <==> |value| > MAX_VALUE
      ensures |value| <= MAX_VALUE ==>
                match Admit(db, old(Sys()).state, c, uuid, value)
                case Failure(refusal) => r == Failure(RefusedBy(refusal)) && ls == []
                case Success(p) => r.Success? && ls != [] && ls[0] == Machine.Label.Notify(c, uuid, value)
                                   && log.accepted == old(log.accepted) + [p]
      ensures var command := NotifyCommand(c, uuid, value, fired);
              && r == Respond(db, old(Sys()).state, command) && Sys().state == Execute(db, old(Sys()).state, command)
              && ls == CommandLabels(db, old(Sys()), command)
      ensures r.Failure? ==> ls == []
      ensures ls != [] ==> forall l :: l in ls[1..] ==> l.SlotReady?
    {
      ls := [];
      if |value| > MAX_VALUE { return Failure(ValueTooLong), []; }
      ghost var before := Sys();
      if c.handle !in connections || connections[c.handle].generation != c.generation { return Failure(RefusedBy(NotActive)), []; }
      var current := connections[c.handle];
      var found := FindByUuid(db, uuid);
      if found.None? { return Failure(RefusedBy(UnknownCharacteristic)), []; }
      var attribute := found.value.handle;
      if !Subscribed(subscriptions, c.handle, attribute) { return Failure(RefusedBy(NotSubscribed)), []; }
      if |value| > Payload(current.mtu) { return Failure(RefusedBy(TooLong)), []; }
      if |pending| >= MAX_PENDING { return Failure(RefusedBy(QueueFull)), []; }
      pending := pending + [Pending(current, attribute, value)];
      log := log.(accepted := log.accepted + [Pending(current, attribute, value)]);
      shim.RequestSend(c.handle, c.handle in links, fired);
      ghost var queued := AfterNotify(db, before, c, uuid, value);
      ghost var called := Called(before, c.handle, fired);
      assert Sys() == Fires(queued, called);
      NotifyIsARun(db, hyp, before, c, uuid, value, called);
      ls := [Machine.Label.Notify(c, uuid, value)] + FireLabels(queued, called);
      r := Success(());
    }

    /** One command. */
    method Obey(c: Command, ghost hyp: Hypotheses) returns (stop: bool, response: seq<Result<(), NotifyError>>, ghost ls: seq<Label>)
      requires Valid() && phase.Commands?
      modifies this, shim, shim.slots
      ensures Valid() && Runs(db, hyp, old(Sys()), ls) && Sys() == After(db, old(Sys()), ls)
      ensures if stop then phase.Stopping? else phase.Commands?
      ensures stop <==> c.StopCommand?
      ensures response == if c.NotifyCommand? then [Respond(db, old(Sys()).state, c)] else []
      ensures Sys().state == Execute(db, old(Sys()).state, c) && ls == CommandLabels(db, old(Sys()), c)
    {
      ghost var before := Sys();
      stop := c.StopCommand?;
      if stop {
        response, ls := [], [Machine.Label.Stop];
        assert Runs(db, hyp, before, []) && After(db, before, []) == before;
        Extend(db, hyp, before, [], Machine.Label.Stop);
        assert [] + [Machine.Label.Stop] == ls;
        phase := Stopping;
      } else {
        var answer;
        answer, ls := Notify(c.connection, c.uuid, c.value, c.fired, hyp);
        response := [answer];
      }
    }

    /** The command loop of `run`: up to 128 commands in order, each answered, until one is Stop. */
    method RunCommands(queue: seq<Command>, ghost hyp: Hypotheses)
      returns (taken: nat, stopped: bool, responses: seq<Result<(), NotifyError>>, ghost ls: seq<Label>)
      requires Valid() && phase.Commands?
      modifies this, shim, shim.slots
      ensures Valid() && Runs(db, hyp, old(Sys()), ls) && Sys() == After(db, old(Sys()), ls)
      ensures taken <= |queue| && taken <= BATCH && if stopped then phase.Stopping? else phase.Commands?
      ensures forall k :: 0 <= k < taken ==> (queue[k].StopCommand? <==> stopped && k == taken - 1)
      ensures if stopped then taken > 0 else taken == |queue| || taken == BATCH
      ensures Answered(db, old(Sys()), queue[..taken], Sys(), responses, ls)
    {
      ghost var start := Sys();
      ls, responses, taken, stopped := [], [], 0, false;
      while taken < BATCH && taken < |queue| && !stopped
        invariant Valid() && Leads(db, hyp, start, Sys(), ls)
        invariant taken <= |queue| && taken <= BATCH
        invariant if stopped then phase.Stopping? && taken > 0 else phase.Commands?
        invariant forall k :: 0 <= k < taken ==> (queue[k].StopCommand? <==> stopped && k == taken - 1)
        invariant Answered(db, start, queue[..taken], Sys(), responses, ls)
        decreases BATCH - taken
      {
        ghost var before := Sys();
        var response;
        ghost var more;
        stopped, response, more := Obey(queue[taken], hyp);
        LeadsOn(db, hyp, start, before, Sys(), ls, more);
        AnsweredNext(db, start, queue, taken, before, responses, ls, Sys());
        ls := ls + more;
        responses := responses + response;
        taken := taken + 1;
      }
    }

    /** The first half of `flush_notification`: take the oldest value and hand it over if still wanted. */
    method HandOver(h: u16, status: byte, inNotify: seq<nat>) returns (taken: bool, ghost notified: seq<nat>)
      requires Valid() && phase.Draining?
      modifies this`pending, this`log, this`phase, this`emitted, shim`events, shim.slots
      ensures Sys() == Fires(AfterFlush(old(Sys()), h, status), notified)
      ensures taken <==> FirstFor(old(pending), h) < |old(pending)|
      ensures if taken then phase == Flushing(h) else phase.Draining?
      ensures notified == InNotify(old(Sys()), h, inNotify)
    {
      var index := FirstFor(pending, h);
      notified := [];
      if index == |pending| { return false, []; }
      var p := pending[index];
      pending := RemoveAt(pending, index);
      log := log.(dequeued := log.dequeued + [p]);
      phase := Flushing(h);
      if Subscribed(subscriptions, h, p.attribute) {
        log := log.(handed := log.handed + [Transmission(p, Current(old(Sys()).state, h))]);
        shim.Callbacks(inNotify);
        notified := inNotify;
        if status != 0 {
          emitted := emitted + [NotificationFailed(p.connection, status)];
        }
      }
      taken := true;
    }

    /** The second half: ask for another send if more is queued for this connection. */
    method AskForMore(h: u16, inRequest: seq<nat>) returns (ghost requested: seq<nat>)
      requires Valid() && phase == Flushing(h)
      modifies this`phase, shim`events, shim.slots
      ensures Sys() == Fires(AskAgain(old(Sys()), h), requested)
      ensures requested == InRequest(old(Sys()), h, inRequest)
    {
      ghost var before := Sys();
      var more := Queued(pending, h);
      requested := [];
      phase := Draining;
      if more {
        shim.RequestSend(h, h in links, inRequest);
        requested := Called(before, h, inRequest);
      }
    }

    /** `flush_notification` for the can-send event at the head of the queue. */
    method FlushNotification(h: u16, status: byte, inNotify: seq<nat>, inRequest: seq<nat>, ghost hyp: Hypotheses)
      returns (ghost ls: seq<Label>)
      requires Valid() && phase.Draining? && shim.events != [] && shim.events[0] == CanSend(h)
      modifies this, shim, shim.slots
      ensures Valid() && phase.Draining?
      ensures Drains(db, hyp, old(Sys()), Sys(), ls) && ls == FlushLabels(db, old(Sys()), h, status, inNotify, inRequest)
    {
      ghost var before := Sys();
      DrainsOne(db, hyp, before, Process(CanSend(h), status));
      ls := [Process(CanSend(h), status)];
      var e := shim.Take();
      assert Sys() == Popped(before);
      ghost var first := AfterFlush(Popped(before), h, status);
      var taken, notified := HandOver(h, status, inNotify);
      if taken {
        ghost var sent := Sys();
        var requested := AskForMore(h, inRequest);
        FlushIsARun(db, hyp, before, h, status, notified, requested);
        ls := ls + FireLabels(first, notified) + [FlushMore] + FireLabels(AskAgain(sent, h), requested);
      }
    }

    method OnConnect(h: u16, m: u16)
      modifies this`next, this`connections, this`emitted
      ensures Sys() == AfterConnect(old(Sys()), h, m)
    {
      var c := Connection(h, next, m);
      next := next + 1;
      connections := connections[h := c];
      emitted := emitted + [Connected(c)];
    }

    method OnDisconnect(h: u16)
      modifies this`connections, this`subscriptions, this`snapshots, this`pending, this`emitted, this`log
      ensures Sys() == AfterDisconnect(old(Sys()), h)
    {
      log := log.(purged := log.purged + For(pending, h));
      subscriptions := map k | k in subscriptions && k.0 != h :: subscriptions[k];
      snapshots := map k | k in snapshots && k.0 != h :: snapshots[k];
      pending := Without(pending, h);
      if h in connections {
        emitted := emitted + [Disconnected(connections[h])];
      }
      connections := connections - {h};
    }

    method OnMtu(h: u16, m: u16)
      modifies this`connections
      ensures Sys() == old(Sys()).(state := SetMtu(old(Sys()).state, h, m))
    {
      if h in connections {
        connections := connections[h := connections[h].(mtu := m)];
      }
    }

    /** Every event but can-send; `failed` means that `run` returns an error. */
    method HandleEvent(ghost hyp: Hypotheses) returns (failed: bool, ghost ls: seq<Label>)
      requires Valid() && phase.Draining? && shim.events != [] && !shim.events[0].CanSend?
      modifies this, shim
      ensures Valid() && (if failed then phase.Stopping? else phase.Draining?)
      ensures ls == [Process(old(shim.events)[0], 0)] && Drains(db, hyp, old(Sys()), Sys(), ls)
      ensures failed <==> var e := old(shim.events)[0]; e.CommandFailed? || (e.Advertising? && e.status != 0)
    {
      ghost var before := Sys();
      var e := shim.Take();
      assert Sys() == Popped(before);
      ls := [Process(e, 0)];
      DrainsOne(db, hyp, before, Process(e, 0));
      failed := false;
      match e {
        case StackWorking =>
        case Advertising(status) => if status != 0 { failed := true; } else { started := true; }
        case Connect(h, m) => OnConnect(h, m);
        case Disconnect(h) => OnDisconnect(h);
        case MtuExchanged(h, m) => OnMtu(h, m);
        case CommandFailed(_, _) => failed := true;
      }
      if failed { phase := Stopping; }
    }

    /** The event at the head of the queue. */
    method HandleNext(answers: Answers, k: nat, ghost hyp: Hypotheses) returns (ok: bool, ghost ls: seq<Label>)
      requires Valid() && phase.Draining? && shim.events != []
      modifies this, shim, shim.slots
      ensures Valid() && if ok then phase.Draining? else phase.Stopping?
      ensures ls == EventLabels(db, old(Sys()), answers, k) && Drains(db, hyp, old(Sys()), Sys(), ls)
    {
      var e := shim.events[0];
      ok := true;
      if e.CanSend? {
        ls := FlushNotification(e.handle, answers.status(k), answers.inNotify(k), answers.inRequest(k), hyp);
      } else {
        var failed;
        failed, ls := HandleEvent(hyp);
        ok := !failed;
      }
    }

    /** The event loop of `run`: it ends, with the queue empty or with `run` returning an error, and all it
        did is a run of the machine, whatever BTstack answers and whichever slots it calls back meanwhile. */
    method Drain(answers: Answers, ghost hyp: Hypotheses) returns (ok: bool, ghost ls: seq<Label>)
      requires Valid() && phase.Draining?
      modifies this, shim, shim.slots
      ensures Valid() && Drains(db, hyp, old(Sys()), Sys(), ls)
      ensures if ok then phase.Draining? && shim.events == [] else phase.Stopping?
      ensures |ls| <= Weight(old(Sys())) && ls == DrainLabels(db, old(Sys()), answers, 0)
    {
      ghost var start := Sys();
      ls, ok := [], true;
      var k: nat := 0;
      assert [] + DrainLabels(db, start, answers, 0) == DrainLabels(db, start, answers, 0);
      while ok && shim.events != []
        invariant Valid() && (if ok then phase.Draining? else phase.Stopping?)
        invariant Drained(db, hyp, start, Sys(), ls, answers, k)
        decreases Weight(Sys())
      {
        ghost var before := Sys();
        ghost var more;
        ok, more := HandleNext(answers, k, hyp);
        DrainedNext(db, hyp, start, before, Sys(), ls, more, answers, k);
        ls := ls + more;
        k := k + 1;
      }
      DrainTerminates(db, hyp, start, ls);
    }

    /** The ATT read callback. */
    method Read(h: u16, attribute: u16, offset: u16, buffer: Option<u16>, answer: ReadOutcome) returns (reply: Reply)
      modifies this`snapshots
      ensures Sys() == Apply(db, old(Sys()), AttRead(h, attribute, offset, buffer, answer))
      ensures reply == Server.Read(db, old(Sys()).state, h, attribute, offset, buffer, answer).1
    {
      if h !in connections { return Reply(ReadError(UnlikelyError.Code()), []); }
      var found := FindByHandle(db, attribute);
      if found.None? { return Reply(ReadError(ReadNotPermitted.Code()), []); }
      var key := (h, attribute);
      if buffer.None? || key !in snapshots {
        var captured := Capture(found.value, Subscribed(subscriptions, h, found.value.handle), attribute, answer);
        if captured.Failure? { return Reply(captured.error, []); }
        snapshots := snapshots[key := captured.value];
      }
      reply := Answer(snapshots[key], offset, buffer);
    }

    /** The ATT write callback. */
    method Write(h: u16, attribute: u16, mode: u16, offset: u16, value: seq<byte>, verdict: WriteOutcome) returns (code: byte)
      modifies this`snapshots, this`subscriptions, this`emitted
      ensures Sys() == Apply(db, old(Sys()), AttWrite(h, attribute, mode, offset, value, verdict))
      ensures code == Server.Write(db, old(Sys()).state, h, attribute, mode, offset, value, verdict).code
    {
      assert emitted + [] == emitted;
      if mode != 0 { return RequestNotSupported.Code(); }
      if offset != 0 { return InvalidOffset.Code(); }
      if h !in connections { return UnlikelyError.Code(); }
      var found := FindByHandle(db, attribute);
      if found.None? { return WriteNotPermitted.Code(); }
      var a := found.value;
      if a.handle != attribute {
        if |value| != 2 { return InvalidValueLength.Code(); }
        if value[1] != 0 || value[0] > 1 { return ValueNotAllowed.Code(); }
        subscriptions := subscriptions[(h, a.handle) := value[0] == 1];
        snapshots := snapshots - {(h, attribute)};
        emitted := emitted + [SubscriptionChanged(connections[h], a.characteristic.uuid, value[0] == 1)];
        return 0;
      }
      if |value| > MAX_VALUE { return InvalidValueLength.Code(); }
      if !a.characteristic.writable { return WriteNotPermitted.Code(); }
      match verdict {
        case Accepts =>
          snapshots := snapshots - {(h, attribute)};
          code := 0;
        case WriteRefused(status) => code := status.Code();
        case WritePanics => code := UnlikelyError.Code();
      }
    }
  }
}
