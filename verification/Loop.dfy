/** The loop of `run` from end to end: every turn of it is a run of the machine. */
module Loop {
  import opened Gatt
  import opened Bridge
  import opened Server
  import opened Machine
  import opened Links
  import opened Runtime
  import opened Ledger
  import opened Restarts
  import Theorems

  /** What BTstack may do while the loop hands it a packet or polls it. */
  predicate FromStack(l: Label) {
    || l.LinkUp? || l.LinkDown? || l.MtuExchange? || l.Completion? || l.Working?
    || l.AttRead? || l.AttWrite? || l.SlotReady?
  }

  /** What one turn meets: new commands, whether the transport could be read, BTstack's calls, whether a
      send failed meanwhile, BTstack's answers during the drain, and whether the startup deadline is over. */
  datatype Turn = Turn(arrivals: seq<Command>, readable: bool, calls: seq<Label>, sendFailed: bool, answers: Answers, late: bool)

  // ----- What a turn is, step by step -----

  /** The calls that are steps, in order: BTstack never calls back a slot that is not waiting. */
  ghost function Made(db: seq<Attribute>, s: System, calls: seq<Label>): seq<Label>
    decreases |calls|
  {
    if calls == [] then []
    else if Enabled(ANY, s, calls[0]) then [calls[0]] + Made(db, Apply(db, s, calls[0]), calls[1..])
    else Made(db, s, calls[1..])
  }

  /** Delivery and drain. */
  ghost function ServeLabels(db: seq<Attribute>, s: System, t: Turn): seq<Label> {
    var delivered := [BeginDelivery] + Made(db, Apply(db, s, BeginDelivery), t.calls);
    if t.sendFailed then delivered + [Machine.Label.Stop]
    else
      var begun := delivered + [BeginDrain];
      var drained := begun + DrainLabels(db, After(db, s, begun), t.answers, 0);
      var end := After(db, s, drained);
      if end.phase.Stopping? then drained
      else drained + [if !end.started && t.late then Machine.Label.Stop else EndDrain]
  }

  /** How many commands one turn takes: up to 128, and none after a Stop. */
  function Taken(queue: seq<Command>, limit: nat): (n: nat)
    ensures n <= |queue| && n <= limit
  {
    if limit == 0 || queue == [] then 0
    else if queue[0].StopCommand? then 1
    else 1 + Taken(queue[1..], limit - 1)
  }

  ghost function TurnLabels(db: seq<Attribute>, s: System, queue: seq<Command>, t: Turn): seq<Label> {
    var obeyed := BatchLabels(db, s, queue[..Taken(queue, 128)]);
    var after := After(db, s, obeyed);
    if after.phase.Stopping? then obeyed
    else if !t.readable then obeyed + [Machine.Label.Stop]
    else obeyed + ServeLabels(db, after, t)
  }

  /** Turn after turn, until one ends the loop; commands that are left over wait. */
  ghost function RunLabels(db: seq<Attribute>, s: System, queue: seq<Command>, turns: seq<Turn>): seq<Label>
    decreases |turns|
  {
    if turns == [] || !s.phase.Commands? then []
    else
      var q := queue + turns[0].arrivals;
      var ls := TurnLabels(db, s, q, turns[0]);
      ls + RunLabels(db, After(db, s, ls), q[Taken(q, 128)..], turns[1..])
  }

  /** The answers given, in order. */
  ghost function RunResponses(db: seq<Attribute>, s: System, queue: seq<Command>, turns: seq<Turn>): seq<Result<(), NotifyError>>
    decreases |turns|
  {
    if turns == [] || !s.phase.Commands? then []
    else
      var q := queue + turns[0].arrivals;
      var n := Taken(q, 128);
      RespondAll(db, s.state, q[..n]) + RunResponses(db, After(db, s, TurnLabels(db, s, q, turns[0])), q[n..], turns[1..])
  }

  /** The commands that still wait at the end. */
  ghost function RunWaiting(db: seq<Attribute>, s: System, queue: seq<Command>, turns: seq<Turn>): seq<Command>
    decreases |turns|
  {
    if turns == [] || !s.phase.Commands? then queue
    else
      var q := queue + turns[0].arrivals;
      RunWaiting(db, After(db, s, TurnLabels(db, s, q, turns[0])), q[Taken(q, 128)..], turns[1..])
  }

  lemma {:induction false} TakenIs(queue: seq<Command>, limit: nat, n: nat, stopped: bool)
    requires n <= |queue| && n <= limit
    requires forall k :: 0 <= k < n ==> (queue[k].StopCommand? <==> stopped && k == n - 1)
    requires if stopped then n > 0 else n == |queue| || n == limit
    ensures Taken(queue, limit) == n
  {
    if n > 0 && !queue[0].StopCommand? {
      forall k | 0 <= k < n - 1
        ensures queue[1..][k].StopCommand? <==> stopped && k == n - 2
      {
        assert queue[1..][k] == queue[k + 1];
      }
      TakenIs(queue[1..], limit - 1, n - 1, stopped);
    }
  }

  // ----- The loop -----

  /** BTstack makes one call. It never calls back a slot that is not waiting: such a call is no step. */
  method Callback(w: Worker, call: Label) returns (ghost ls: seq<Label>)
    requires w.Valid() && w.phase.Delivering? && FromStack(call)
    modifies w, w.shim, w.shim.slots
    ensures w.Valid() && w.phase.Delivering?
    ensures ls == if Enabled(ANY, old(w.Sys()), call) then [call] else []
    ensures Runs(w.db, ANY, old(w.Sys()), ls) && w.Sys() == After(w.db, old(w.Sys()), ls)
  {
    ghost var before := w.Sys();
    ls := [];
    assert Runs(w.db, ANY, before, ls) && After(w.db, before, ls) == before;
    if call.SlotReady? && (call.slot >= SLOTS || !w.shim.slots[call.slot].busy) { return; }
    match call {
      case LinkUp(h, m) =>
        w.shim.Forward(Event.Connect(h, m));
        w.links := w.links[h := m];
      case LinkDown(h) =>
        w.shim.OnDisconnectionComplete(h);
        w.links := w.links - {h};
      case MtuExchange(h, m) =>
        w.shim.Forward(MtuExchanged(h, m));
        if h in w.links { w.links := w.links[h := m]; }
      case Completion(opcode, status) => w.shim.OnCommandComplete(opcode, status);
      case Working => w.shim.Forward(StackWorking);
      case AttRead(h, a, offset, buffer, answer) => var reply := w.Read(h, a, offset, buffer, answer);
      case AttWrite(h, a, mode, offset, value, verdict) => var code := w.Write(h, a, mode, offset, value, verdict);
      case SlotReady(i) => w.shim.CanSendNow(i);
    }
    w.phase := Apply(w.db, before, call).phase;
    Extend(w.db, ANY, before, [], call);
    ls := [call];
    assert [] + [call] == ls;
  }

  lemma MadeUnfolds(db: seq<Attribute>, s: System, calls: seq<Label>, i: nat)
    requires i < |calls|
    ensures var step := if Enabled(ANY, s, calls[i]) then [calls[i]] else [];
            Made(db, s, calls[i..]) == step + Made(db, After(db, s, step), calls[i + 1..])
  {
    assert calls[i..][0] == calls[i] && calls[i..][1..] == calls[i + 1..];
    var s' := Apply(db, s, calls[i]);
    assert [calls[i]][1..] == [] && After(db, s', []) == s';
  }

  /** One packet and one poll: every call is made, in order; the posted events wait for the drain. */
  method Deliver(w: Worker, calls: seq<Label>) returns (ghost ls: seq<Label>)
    requires w.Valid() && w.phase.Delivering? && forall l :: l in calls ==> FromStack(l)
    modifies w, w.shim, w.shim.slots
    ensures w.Valid() && w.phase.Delivering?
    ensures ls == Made(w.db, old(w.Sys()), calls) && Leads(w.db, ANY, old(w.Sys()), w.Sys(), ls)
  {
    ghost var start := w.Sys();
    ls := [];
    var i := 0;
    assert calls[0..] == calls && [] + Made(w.db, start, calls) == Made(w.db, start, calls);
    while i < |calls|
      invariant 0 <= i <= |calls|
      invariant w.Valid() && w.phase.Delivering?
      invariant Leads(w.db, ANY, start, w.Sys(), ls)
      invariant ls + Made(w.db, w.Sys(), calls[i..]) == Made(w.db, start, calls)
    {
      ghost var before := w.Sys();
      MadeUnfolds(w.db, before, calls, i);
      ghost var more := Callback(w, calls[i]);
      LeadsOn(w.db, ANY, start, before, w.Sys(), ls, more);
      AssocLabels(ls, more, Made(w.db, w.Sys(), calls[i + 1..]));
      ls := ls + more;
      i := i + 1;
    }
  }

  lemma StepOn(db: seq<Attribute>, s: System, t: System, ls: seq<Label>, l: Label)
    requires Leads(db, ANY, s, t, ls) && Enabled(ANY, t, l)
    ensures Leads(db, ANY, s, Apply(db, t, l), ls + [l])
  {
    Extend(db, ANY, s, ls, l);
  }

  /** Leave the loop, or move on to its next part. */
  method Enter(w: Worker, l: Label, ghost start: System, ghost ls: seq<Label>) returns (ghost ls': seq<Label>)
    requires w.Valid() && (l.BeginDelivery? || l.BeginDrain? || l.EndDrain? || l.Stop?)
    requires Leads(w.db, ANY, start, w.Sys(), ls) && Enabled(ANY, w.Sys(), l)
    modifies w`phase
    ensures w.Valid() && w.Sys() == Apply(w.db, old(w.Sys()), l)
    ensures ls' == ls + [l] && Leads(w.db, ANY, start, w.Sys(), ls')
  {
    StepOn(w.db, start, w.Sys(), ls, l);
    w.phase := Apply(w.db, w.Sys(), l).phase;
    ls' := ls + [l];
  }

  /** From a delivery to the end of the drain; `go` when the loop continues. */
  method Serve(w: Worker, t: Turn) returns (go: bool, ghost ls: seq<Label>)
    requires w.Valid() && w.phase.Commands? && forall l :: l in t.calls ==> FromStack(l)
    modifies w, w.shim, w.shim.slots
    ensures w.Valid() && Leads(w.db, ANY, old(w.Sys()), w.Sys(), ls)
    ensures ls == ServeLabels(w.db, old(w.Sys()), t)
    ensures if go then w.phase.Commands? && w.shim.events == [] else w.phase.Stopping?
    ensures go ==> !t.sendFailed && (t.late ==> w.started)
  {
    ghost var start := w.Sys();
    ls := [];
    assert Leads(w.db, ANY, start, w.Sys(), ls);
    ls := Enter(w, BeginDelivery, start, ls);
    assert ls == [BeginDelivery];
    ghost var before := w.Sys();
    ghost var more := Deliver(w, t.calls);
    LeadsOn(w.db, ANY, start, before, w.Sys(), ls, more);
    ls := ls + more;
    if t.sendFailed {
      ls := Enter(w, Machine.Label.Stop, start, ls);
      return false, ls;
    }
    ls := Enter(w, BeginDrain, start, ls);
    go, ls := Finish(w, t, start, ls);
  }

  /** The drain, and what follows it. */
  method Finish(w: Worker, t: Turn, ghost start: System, ghost begun: seq<Label>) returns (go: bool, ghost ls: seq<Label>)
    requires w.Valid() && w.phase.Draining? && Leads(w.db, ANY, start, w.Sys(), begun)
    modifies w, w.shim, w.shim.slots
    ensures w.Valid() && Leads(w.db, ANY, start, w.Sys(), ls)
    ensures var drained := begun + DrainLabels(w.db, old(w.Sys()), t.answers, 0);
            var end := After(w.db, start, drained);
            ls == if end.phase.Stopping? then drained
                  else drained + [if !end.started && t.late then Machine.Label.Stop else EndDrain]
    ensures if go then w.phase.Commands? && w.shim.events == [] else w.phase.Stopping?
    ensures go ==> t.late ==> w.started
  {
    ghost var before := w.Sys();
    ghost var more;
    go, more := w.Drain(t.answers, ANY);
    LeadsOn(w.db, ANY, start, before, w.Sys(), begun, more);
    ls := begun + more;
    if !go { return; }
    if !w.started && t.late {
      ls := Enter(w, Machine.Label.Stop, start, ls);
      return false, ls;
    }
    ls := Enter(w, EndDrain, start, ls);
  }

  /** One turn: a batch of commands, each answered, then a packet and the drain. Commands beyond the batch
      wait for the next turn. */
  method TakeTurn(w: Worker, queue: seq<Command>, t: Turn)
    returns (rest: seq<Command>, go: bool, responses: seq<Result<(), NotifyError>>, ghost ls: seq<Label>)
    requires w.Valid() && w.phase.Commands? && forall l :: l in t.calls ==> FromStack(l)
    modifies w, w.shim, w.shim.slots
    ensures w.Valid() && Leads(w.db, ANY, old(w.Sys()), w.Sys(), ls)
    ensures ls == TurnLabels(w.db, old(w.Sys()), queue, t)
    ensures responses == RespondAll(w.db, old(w.Sys()).state, queue[..Taken(queue, 128)])
    ensures rest == queue[Taken(queue, 128)..]
    ensures if go then w.phase.Commands? && w.shim.events == [] else w.phase.Stopping?
    ensures go ==> t.readable && !t.sendFailed && (t.late ==> w.started)
  {
    ghost var start := w.Sys();
    var taken, stopped;
    taken, stopped, responses, ls := w.RunCommands(queue, ANY);
    TakenIs(queue, 128, taken, stopped);
    rest, go := queue[taken..], false;
    if stopped { return; }
    if !t.readable {
      ls := Enter(w, Machine.Label.Stop, start, ls);
      return;
    }
    ghost var before := w.Sys();
    ghost var more;
    go, more := Serve(w, t);
    LeadsOn(w.db, ANY, start, before, w.Sys(), ls, more);
    ls := ls + more;
  }

  /** `ls` and `responses` are what the turns up to here made of it; `later` turns are still to come. */
  ghost predicate SoFar(db: seq<Attribute>, s: System, turns: seq<Turn>, t: System, queue: seq<Command>, later: seq<Turn>,
                        ls: seq<Label>, responses: seq<Result<(), NotifyError>>)
  {
    && Leads(db, ANY, s, t, ls)
    && ls + RunLabels(db, t, queue, later) == RunLabels(db, s, [], turns)
    && responses + RunResponses(db, t, queue, later) == RunResponses(db, s, [], turns)
    && RunWaiting(db, t, queue, later) == RunWaiting(db, s, [], turns)
  }

  lemma AssocResponses(a: seq<Result<(), NotifyError>>, b: seq<Result<(), NotifyError>>, c: seq<Result<(), NotifyError>>)
    ensures a + (b + c) == a + b + c
  {
  }

  lemma SoFarNext(db: seq<Attribute>, s: System, turns: seq<Turn>, t: System, queue: seq<Command>, later: seq<Turn>,
                  ls: seq<Label>, responses: seq<Result<(), NotifyError>>, u: System, more: seq<Label>)
    requires SoFar(db, s, turns, t, queue, later, ls, responses) && t.phase.Commands? && later != []
    requires more == TurnLabels(db, t, queue + later[0].arrivals, later[0]) && Leads(db, ANY, t, u, more)
    ensures var q := queue + later[0].arrivals;
            SoFar(db, s, turns, u, q[Taken(q, 128)..], later[1..], ls + more,
                  responses + RespondAll(db, t.state, q[..Taken(q, 128)]))
  {
    var q := queue + later[0].arrivals;
    var n := Taken(q, 128);
    LeadsOn(db, ANY, s, t, u, ls, more);
    AssocLabels(ls, more, RunLabels(db, u, q[n..], later[1..]));
    AssocResponses(responses, RespondAll(db, t.state, q[..n]), RunResponses(db, u, q[n..], later[1..]));
  }

  /** The loop from start-up: exactly the steps of its turns, one after the other, and their answers. Whatever
      happens, it leaves a sound slot table; and if what BTstack did meets the hypotheses of a theorem about
      runs, the worker's own fields are what that theorem speaks of. */
  method Run(w: Worker, turns: seq<Turn>, ghost first: nat)
    returns (running: bool, waiting: seq<Command>, responses: seq<Result<(), NotifyError>>, ghost ls: seq<Label>)
    requires w.Valid() && w.Sys() == Initial(first)
    requires forall t :: t in turns ==> forall l :: l in t.calls ==> FromStack(l)
    modifies w, w.shim, w.shim.slots
    ensures w.Valid() && (running <==> w.phase.Commands?)
    ensures Leads(w.db, ANY, Initial(first), w.Sys(), ls)
    ensures ls == RunLabels(w.db, Initial(first), [], turns)
    ensures responses == RunResponses(w.db, Initial(first), [], turns)
    ensures waiting == RunWaiting(w.db, Initial(first), [], turns)
    ensures running ==> |responses| <= |Arrivals(turns)| && waiting == Arrivals(turns)[|responses|..]
    ensures SlotsOk(w.shim.slots[..], w.links.Keys)
    ensures running <==> AllGoOn(w.db, first, [], [], turns)
    ensures forall hyp :: Theorems.Session(w.db, hyp, first, ls) ==> Theorems.Inv(w.db, hyp, first, w.Sys())
  {
    var i := 0;
    running, waiting, responses, ls := true, [], [], [];
    assert turns[0..] == turns;
    assert [] + RunLabels(w.db, Initial(first), [], turns) == RunLabels(w.db, Initial(first), [], turns);
    assert [] + RunResponses(w.db, Initial(first), [], turns) == RunResponses(w.db, Initial(first), [], turns);
    while running && i < |turns|
      invariant 0 <= i <= |turns|
      invariant w.Valid() && (if running then w.phase.Commands? else w.phase.Stopping?)
      invariant SoFar(w.db, Initial(first), turns, w.Sys(), waiting, turns[i..], ls, responses)
      decreases |turns| - i
    {
      ghost var before, queue := w.Sys(), waiting;
      assert turns[i..][0] == turns[i] && turns[i..][1..] == turns[i + 1..];
      var answered;
      ghost var more;
      waiting, running, answered, more := TakeTurn(w, waiting + turns[i].arrivals, turns[i]);
      SoFarNext(w.db, Initial(first), turns, before, queue, turns[i..], ls, responses, w.Sys(), more);
      ls, responses := ls + more, responses + answered;
      i := i + 1;
    }
    RunIsSound(w.db, first, w.Sys(), ls);
    RunTells(w.db, first, turns);
  }

  lemma RunTells(db: seq<Attribute>, first: nat, turns: seq<Turn>)
    requires forall t :: t in turns ==> forall l :: l in t.calls ==> FromStack(l)
    ensures var s := Initial(first);
            var running, n := After(db, s, RunLabels(db, s, [], turns)).phase.Commands?, |RunResponses(db, s, [], turns)|;
            && (running <==> AllGoOn(db, first, [], [], turns))
            && (running ==> n <= |Arrivals(turns)| && RunWaiting(db, s, [], turns) == Arrivals(turns)[n..])
  {
    assert Runs(db, ANY, Initial(first), []) && After(db, Initial(first), []) == Initial(first);
    LoopGoesOnIff(db, first, [], [], turns);
    if AllGoOn(db, first, [], [], turns) {
      CommandsAreAnsweredOnce(db, first, [], [], turns);
      assert [] + Arrivals(turns) == Arrivals(turns);
    }
  }

  lemma RunIsSound(db: seq<Attribute>, first: nat, s: System, ls: seq<Label>)
    requires Leads(db, ANY, Initial(first), s, ls)
    ensures SlotsOk(s.bridge.slots, s.links.Keys)
    ensures forall hyp :: Theorems.Session(db, hyp, first, ls) ==> Theorems.Inv(db, hyp, first, s)
  {
    LinksInitially(ANY, first);
    Theorems.SlotTableAlways(db, ANY, Initial(first), ls);
    forall hyp | Theorems.Session(db, hyp, first, ls)
      ensures Theorems.Inv(db, hyp, first, s)
    {
      Theorems.Reaches(db, hyp, first, ls);
    }
  }

  // ----- When the loop goes on -----

  lemma CommandRuns(db: seq<Attribute>, s: System, c: Command)
    requires s.phase.Commands?
    ensures var ls := CommandLabels(db, s, c);
            && Runs(db, ANY, s, ls)
            && (if c.StopCommand? then After(db, s, ls).phase.Stopping? else After(db, s, ls).phase.Commands?)
            && forall l :: l in ls ==> l.Notify? || l.SlotReady? || (l.Stop? && c.StopCommand?)
  {
    if c.StopCommand? {
      assert Runs(db, ANY, s, []) && After(db, s, []) == s;
      Extend(db, ANY, s, [], Machine.Label.Stop);
      assert [] + [Machine.Label.Stop] == [Machine.Label.Stop];
    } else if Respond(db, s.state, c).Success? {
      NotifyIsARun(db, ANY, s, c.connection, c.uuid, c.value, Called(s, c.connection.handle, c.fired));
      var ls := CommandLabels(db, s, c);
      assert ls == [ls[0]] + ls[1..];
    }
  }

  lemma {:induction false} BatchRuns(db: seq<Attribute>, s: System, cs: seq<Command>)
    requires s.phase.Commands? && forall k :: 0 <= k < |cs| - 1 ==> cs[k].NotifyCommand?
    ensures var ls, stops := BatchLabels(db, s, cs), cs != [] && cs[|cs| - 1].StopCommand?;
            && Runs(db, ANY, s, ls)
            && (if stops then After(db, s, ls).phase.Stopping? else After(db, s, ls).phase.Commands?)
            && forall l :: l in ls ==> l.Notify? || l.SlotReady? || (l.Stop? && stops)
  {
    if cs != [] {
      var front, c := cs[..|cs| - 1], cs[|cs| - 1];
      BatchRuns(db, s, front);
      var before := BatchLabels(db, s, front);
      CommandRuns(db, After(db, s, before), c);
      RunsConcat(db, ANY, s, before, CommandLabels(db, After(db, s, before), c));
      AfterConcat(db, s, before, CommandLabels(db, After(db, s, before), c));
    }
  }

  lemma CallsStayInDelivery(db: seq<Attribute>, s: System, l: Label)
    requires s.phase.Delivering? && FromStack(l)
    ensures Apply(db, s, l).phase.Delivering?
  {
  }

  lemma {:induction false} MadeRuns(db: seq<Attribute>, s: System, calls: seq<Label>)
    requires s.phase.Delivering? && forall l :: l in calls ==> FromStack(l)
    ensures var ls := Made(db, s, calls);
            && Runs(db, ANY, s, ls) && After(db, s, ls).phase.Delivering?
            && (forall l :: l in ls ==> l in calls) && (forall l :: l in calls && l.Completion? ==> l in ls)
    decreases |calls|
  {
    if calls != [] {
      assert calls == [calls[0]] + calls[1..];
      if Enabled(ANY, s, calls[0]) {
        CallsStayInDelivery(db, s, calls[0]);
        MadeRuns(db, Apply(db, s, calls[0]), calls[1..]);
        MadeOne(db, s, calls);
      } else {
        MadeRuns(db, s, calls[1..]);
      }
    }
  }

  lemma MadeOne(db: seq<Attribute>, s: System, calls: seq<Label>)
    requires calls != [] && Enabled(ANY, s, calls[0])
    ensures var ls, rest := Made(db, s, calls), Made(db, Apply(db, s, calls[0]), calls[1..]);
            && ls == [calls[0]] + rest
            && (Runs(db, ANY, Apply(db, s, calls[0]), rest) ==> Runs(db, ANY, s, ls))
            && After(db, s, ls) == After(db, Apply(db, s, calls[0]), rest)
  {
    var rest := Made(db, Apply(db, s, calls[0]), calls[1..]);
    assert ([calls[0]] + rest)[1..] == rest;
  }

  lemma {:induction false} DrainRuns(db: seq<Attribute>, s: System, answers: Answers, k: nat)
    requires s.phase.Draining? || s.phase.Stopping?
    ensures var ls := DrainLabels(db, s, answers, k);
            && Drains(db, ANY, s, After(db, s, ls), ls)
            && (After(db, s, ls).phase.Stopping? || (After(db, s, ls).phase.Draining? && After(db, s, ls).bridge.events == []))
    decreases Weight(s)
  {
    if s.phase.Draining? && s.bridge.events != [] {
      EventIsARun(db, s, answers, k);
      var ls := EventLabels(db, s, answers, k);
      var t := After(db, s, ls);
      EventLeavesTheDrain(db, s, answers, k);
      DrainRuns(db, t, answers, k + 1);
      DrainsConcat(db, ANY, s, t, After(db, t, DrainLabels(db, t, answers, k + 1)), ls, DrainLabels(db, t, answers, k + 1));
    }
  }

  lemma EventLeavesTheDrain(db: seq<Attribute>, s: System, answers: Answers, k: nat)
    requires s.phase.Draining? && s.bridge.events != []
    ensures var t := After(db, s, EventLabels(db, s, answers, k)); t.phase.Draining? || t.phase.Stopping?
  {
    var e := s.bridge.events[0];
    var ls := EventLabels(db, s, answers, k);
    if e.CanSend? && AfterFlush(Popped(s), e.handle, answers.status(k)).phase.Flushing? {
      var p := AfterFlush(Popped(s), e.handle, answers.status(k));
      var notified := InNotify(Popped(s), e.handle, answers.inNotify(k));
      FlushIsARun(db, ANY, s, e.handle, answers.status(k), notified,
                  InRequest(Fires(p, notified), e.handle, answers.inRequest(k)));
    } else {
      assert ls[1..] == [];
      assert After(db, s, ls) == After(db, Apply(db, s, ls[0]), []) == Apply(db, s, ls[0]);
    }
  }

  lemma {:induction false} TakenHasNoStop(queue: seq<Command>, limit: nat)
    ensures forall k :: 0 <= k < Taken(queue, limit) - 1 ==> queue[k].NotifyCommand?
  {
    if limit > 0 && queue != [] && !queue[0].StopCommand? {
      TakenHasNoStop(queue[1..], limit - 1);
      forall k | 0 <= k < Taken(queue, limit) - 1
        ensures queue[k].NotifyCommand?
      {
        if k > 0 { assert queue[k] == queue[1..][k - 1]; }
      }
    }
  }

  /** What lets the loop go on after a turn. */
  ghost predicate GoesOn(past: seq<Label>, queue: seq<Command>, t: Turn) {
    && (forall k :: 0 <= k < Taken(queue, 128) ==> !queue[k].StopCommand?)
    && t.readable && !t.sendFailed
    && (forall l :: l in t.calls ==> !Fails(l))
    && (t.late ==> CONFIRMED in past || CONFIRMED in t.calls)
  }

  lemma Single(db: seq<Attribute>, s: System, l: Label)
    requires Enabled(ANY, s, l)
    ensures Runs(db, ANY, s, [l]) && After(db, s, [l]) == Apply(db, s, l)
  {
    assert Runs(db, ANY, s, []) && After(db, s, []) == s;
    Extend(db, ANY, s, [], l);
    assert [] + [l] == [l];
  }

  lemma Chain(db: seq<Attribute>, s: System, p: seq<Label>, q: seq<Label>)
    requires Runs(db, ANY, s, p) && Runs(db, ANY, After(db, s, p), q)
    ensures Runs(db, ANY, s, p + q) && After(db, s, p + q) == After(db, After(db, s, p), q)
  {
    RunsConcat(db, ANY, s, p, q);
    AfterConcat(db, s, p, q);
  }

  /** The parts of a turn up to the end of its delivery, and up to the end of its drain. */
  ghost function DeliveredLabels(db: seq<Attribute>, s: System, t: Turn): seq<Label> {
    [BeginDelivery] + Made(db, Apply(db, s, BeginDelivery), t.calls)
  }

  ghost function DrainedLabels(db: seq<Attribute>, s: System, t: Turn): seq<Label> {
    var begun := DeliveredLabels(db, s, t) + [BeginDrain];
    begun + DrainLabels(db, After(db, s, begun), t.answers, 0)
  }

  /** The completions among `ls` are those among `calls`, and there is no Stop. */
  ghost predicate SameResults(ls: seq<Label>, calls: seq<Label>) {
    (forall l :: l in ls && l.Completion? <==> l in calls && l.Completion?) && Machine.Label.Stop !in ls
  }

  lemma SameResultsConcat(p: seq<Label>, q: seq<Label>, calls: seq<Label>)
    requires SameResults(p, calls) && forall l :: l in q ==> !l.Completion? && !l.Stop?
    ensures SameResults(p + q, calls)
  {
  }

  lemma DeliveredRuns(db: seq<Attribute>, s: System, t: Turn)
    requires s.phase.Commands? && forall l :: l in t.calls ==> FromStack(l)
    ensures var ls := DeliveredLabels(db, s, t);
            Runs(db, ANY, s, ls) && After(db, s, ls).phase.Delivering? && SameResults(ls, t.calls)
  {
    Single(db, s, BeginDelivery);
    MadeRuns(db, Apply(db, s, BeginDelivery), t.calls);
    Chain(db, s, [BeginDelivery], Made(db, Apply(db, s, BeginDelivery), t.calls));
  }

  lemma DrainedRuns(db: seq<Attribute>, s: System, t: Turn)
    requires s.phase.Commands? && forall l :: l in t.calls ==> FromStack(l)
    ensures var ls := DrainedLabels(db, s, t);
            && Runs(db, ANY, s, ls) && Settled(After(db, s, ls)) && !After(db, s, ls).phase.Commands?
            && SameResults(ls, t.calls)
  {
    var delivered := DeliveredLabels(db, s, t);
    DeliveredRuns(db, s, t);
    var d := After(db, s, delivered);
    Single(db, d, BeginDrain);
    Chain(db, s, delivered, [BeginDrain]);
    var begun := delivered + [BeginDrain];
    var b := After(db, s, begun);
    assert b == Apply(db, d, BeginDrain);
    DrainRuns(db, b, t.answers, 0);
    Chain(db, s, begun, DrainLabels(db, b, t.answers, 0));
    SameResultsConcat(delivered, [BeginDrain], t.calls);
    SameResultsConcat(begun, DrainLabels(db, b, t.answers, 0), t.calls);
  }

  lemma ServeGoesOnIff(db: seq<Attribute>, first: nat, past: seq<Label>, t: Turn)
    requires Runs(db, ANY, Initial(first), past) && After(db, Initial(first), past).phase.Commands?
    requires forall l :: l in t.calls ==> FromStack(l)
    ensures var s := After(db, Initial(first), past);
            var ls := ServeLabels(db, s, t);
            && Runs(db, ANY, s, ls)
            && (After(db, s, ls).phase.Commands? <==>
                  && !t.sendFailed && (forall l :: l in t.calls ==> !Fails(l))
                  && (t.late ==> CONFIRMED in past || CONFIRMED in t.calls))
            && (After(db, s, ls).phase.Commands? || After(db, s, ls).phase.Stopping?)
  {
    var s := After(db, Initial(first), past);
    DrainedRuns(db, s, t);
    if t.sendFailed {
      var delivered := DeliveredLabels(db, s, t);
      DeliveredRuns(db, s, t);
      Single(db, After(db, s, delivered), Machine.Label.Stop);
      Chain(db, s, delivered, [Machine.Label.Stop]);
    } else {
      var drained := DrainedLabels(db, s, t);
      Chain(db, Initial(first), past, drained);
      DrainTells(db, first, past, drained, t);
      var end := After(db, s, drained);
      if !end.phase.Stopping? {
        var last := if !end.started && t.late then Machine.Label.Stop else EndDrain;
        Single(db, end, last);
        Chain(db, s, drained, [last]);
      }
    }
  }

  lemma DrainTells(db: seq<Attribute>, first: nat, past: seq<Label>, drained: seq<Label>, t: Turn)
    requires Runs(db, ANY, Initial(first), past) && After(db, Initial(first), past).phase.Commands?
    requires Runs(db, ANY, Initial(first), past + drained) && Settled(After(db, Initial(first), past + drained))
    requires SameResults(drained, t.calls)
    ensures var end := After(db, Initial(first), past + drained);
            && (end.phase.Stopping? <==> exists l :: l in t.calls && Fails(l))
            && (!end.phase.Stopping? ==> (end.started <==> CONFIRMED in past || CONFIRMED in t.calls))
  {
    FailureEndsTheSession(db, ANY, first, past);
    FailureEndsTheSession(db, ANY, first, past + drained);
    ReadyMeansAdvertising(db, ANY, first, past + drained);
    assert CONFIRMED in drained <==> CONFIRMED in t.calls;
    if l :| l in t.calls && Fails(l) { assert l in past + drained; }
  }

  lemma ObeyedGoesOnIff(db: seq<Attribute>, first: nat, past: seq<Label>, obeyed: seq<Label>, t: Turn)
    requires Runs(db, ANY, Initial(first), past) && Runs(db, ANY, After(db, Initial(first), past), obeyed)
    requires After(db, After(db, Initial(first), past), obeyed).phase.Commands?
    requires forall l :: l in t.calls ==> FromStack(l)
    requires forall l :: l in obeyed ==> !l.Completion?
    ensures var s := After(db, Initial(first), past);
            var ls := obeyed + ServeLabels(db, After(db, s, obeyed), t);
            && Runs(db, ANY, s, ls)
            && (After(db, s, ls).phase.Commands? <==>
                  && !t.sendFailed && (forall l :: l in t.calls ==> !Fails(l))
                  && (t.late ==> CONFIRMED in past || CONFIRMED in t.calls))
            && (After(db, s, ls).phase.Commands? || After(db, s, ls).phase.Stopping?)
  {
    var s := After(db, Initial(first), past);
    Chain(db, Initial(first), past, obeyed);
    ServeGoesOnIff(db, first, past + obeyed, t);
    Chain(db, s, obeyed, ServeLabels(db, After(db, s, obeyed), t));
    assert CONFIRMED in past + obeyed <==> CONFIRMED in past;
  }

  predicate TakesStop(queue: seq<Command>) {
    Taken(queue, 128) > 0 && queue[Taken(queue, 128) - 1].StopCommand?
  }

  lemma TakesStopIff(queue: seq<Command>)
    ensures TakesStop(queue) <==> exists k :: 0 <= k < Taken(queue, 128) && queue[k].StopCommand?
  {
    TakenHasNoStop(queue, 128);
  }

  /** What obeying the commands of a turn leads to. */
  lemma ObeyedRuns(db: seq<Attribute>, s: System, queue: seq<Command>)
    requires s.phase.Commands?
    ensures var obeyed := BatchLabels(db, s, queue[..Taken(queue, 128)]);
            && Runs(db, ANY, s, obeyed)
            && (if TakesStop(queue) then After(db, s, obeyed).phase.Stopping? else After(db, s, obeyed).phase.Commands?)
            && forall l :: l in obeyed ==> !l.Completion?
  {
    TakenHasNoStop(queue, 128);
    var cs := queue[..Taken(queue, 128)];
    assert forall k :: 0 <= k < |cs| ==> cs[k] == queue[k];
    BatchRuns(db, s, cs);
  }

  lemma TurnEnds(db: seq<Attribute>, s: System, queue: seq<Command>, t: Turn)
    requires s.phase.Commands? && (TakesStop(queue) || !t.readable)
    ensures Runs(db, ANY, s, TurnLabels(db, s, queue, t)) && After(db, s, TurnLabels(db, s, queue, t)).phase.Stopping?
  {
    ObeyedRuns(db, s, queue);
    if !TakesStop(queue) {
      var obeyed := BatchLabels(db, s, queue[..Taken(queue, 128)]);
      Single(db, After(db, s, obeyed), Machine.Label.Stop);
      Chain(db, s, obeyed, [Machine.Label.Stop]);
    }
  }

  /** In any session the loop goes on after a turn if and only if no Stop was taken, the transport could be read
      and written, no command failed, and by the deadline advertising had been confirmed. */
  lemma TurnGoesOnIff(db: seq<Attribute>, first: nat, past: seq<Label>, queue: seq<Command>, t: Turn)
    requires Runs(db, ANY, Initial(first), past) && After(db, Initial(first), past).phase.Commands?
    requires forall l :: l in t.calls ==> FromStack(l)
    ensures var s := After(db, Initial(first), past);
            var ls := TurnLabels(db, s, queue, t);
            && Runs(db, ANY, s, ls)
            && (After(db, s, ls).phase.Commands? <==> GoesOn(past, queue, t))
            && (After(db, s, ls).phase.Commands? || After(db, s, ls).phase.Stopping?)
  {
    var s := After(db, Initial(first), past);
    ObeyedRuns(db, s, queue);
    TakesStopIff(queue);
    if TakesStop(queue) || !t.readable {
      TurnEnds(db, s, queue, t);
    } else {
      ObeyedGoesOnIff(db, first, past, BatchLabels(db, s, queue[..Taken(queue, 128)]), t);
    }
  }

  ghost predicate AllGoOn(db: seq<Attribute>, first: nat, past: seq<Label>, queue: seq<Command>, turns: seq<Turn>)
    decreases |turns|
  {
    turns == [] || (
      var q := queue + turns[0].arrivals;
      GoesOn(past, q, turns[0])
      && AllGoOn(db, first, past + TurnLabels(db, After(db, Initial(first), past), q, turns[0]), q[Taken(q, 128)..], turns[1..]))
  }

  /** And so for any number of turns: the loop still runs if and only if every turn let it go on. */
  lemma {:induction false} LoopGoesOnIff(db: seq<Attribute>, first: nat, past: seq<Label>, queue: seq<Command>, turns: seq<Turn>)
    requires Runs(db, ANY, Initial(first), past) && After(db, Initial(first), past).phase.Commands?
    requires forall t :: t in turns ==> forall l :: l in t.calls ==> FromStack(l)
    ensures var s := After(db, Initial(first), past);
            After(db, s, RunLabels(db, s, queue, turns)).phase.Commands? <==> AllGoOn(db, first, past, queue, turns)
    decreases |turns|
  {
    if turns != [] {
      var s := After(db, Initial(first), past);
      var q := queue + turns[0].arrivals;
      var ls := TurnLabels(db, s, q, turns[0]);
      TurnGoesOnIff(db, first, past, q, turns[0]);
      Chain(db, Initial(first), past, ls);
      var s' := After(db, s, ls);
      AfterConcat(db, s, ls, RunLabels(db, s', q[Taken(q, 128)..], turns[1..]));
      if s'.phase.Commands? {
        LoopGoesOnIff(db, first, past + ls, q[Taken(q, 128)..], turns[1..]);
      }
    }
  }

  function Arrivals(turns: seq<Turn>): seq<Command> {
    if turns == [] then [] else turns[0].arrivals + Arrivals(turns[1..])
  }

  lemma {:induction false} AllAnswered(db: seq<Attribute>, st: State, cs: seq<Command>)
    requires forall k :: 0 <= k < |cs| ==> cs[k].NotifyCommand?
    ensures |RespondAll(db, st, cs)| == |cs|
  {
    if cs != [] { AllAnswered(db, st, cs[..|cs| - 1]); }
  }

  ghost predicate Splits(all: seq<Command>, n: nat, waiting: seq<Command>) {
    n <= |all| && waiting == all[n..]
  }

  lemma SplitsLater(queue: seq<Command>, arrivals: seq<Command>, later: seq<Command>, n: nat, m: nat, waiting: seq<Command>)
    requires n <= |queue + arrivals| && Splits((queue + arrivals)[n..] + later, m, waiting)
    ensures Splits(queue + (arrivals + later), n + m, waiting)
  {
    assert (queue + arrivals)[n..] + later == (queue + (arrivals + later))[n..];
  }

  lemma TurnAnswers(db: seq<Attribute>, first: nat, past: seq<Label>, q: seq<Command>, t: Turn)
    requires Runs(db, ANY, Initial(first), past) && After(db, Initial(first), past).phase.Commands?
    requires (forall l :: l in t.calls ==> FromStack(l)) && GoesOn(past, q, t)
    ensures var s := After(db, Initial(first), past);
            var ls := TurnLabels(db, s, q, t);
            && |RespondAll(db, s.state, q[..Taken(q, 128)])| == Taken(q, 128)
            && Runs(db, ANY, Initial(first), past + ls) && After(db, Initial(first), past + ls) == After(db, s, ls)
            && After(db, s, ls).phase.Commands?
  {
    var s := After(db, Initial(first), past);
    TurnGoesOnIff(db, first, past, q, t);
    Chain(db, Initial(first), past, TurnLabels(db, s, q, t));
    AllAnswered(db, s.state, q[..Taken(q, 128)]);
  }

  /** The commands are those that are answered, followed by those that still wait in the end. */
  ghost predicate OnceEach(db: seq<Attribute>, s: System, queue: seq<Command>, turns: seq<Turn>) {
    Splits(queue + Arrivals(turns), |RunResponses(db, s, queue, turns)|, RunWaiting(db, s, queue, turns))
  }

  lemma OnceEachNext(db: seq<Attribute>, s: System, queue: seq<Command>, turns: seq<Turn>)
    requires turns != [] && s.phase.Commands?
    requires var q := queue + turns[0].arrivals;
             var n := Taken(q, 128);
             && |RespondAll(db, s.state, q[..n])| == n
             && OnceEach(db, After(db, s, TurnLabels(db, s, q, turns[0])), q[n..], turns[1..])
    ensures OnceEach(db, s, queue, turns)
  {
    var q := queue + turns[0].arrivals;
    var n := Taken(q, 128);
    var s' := After(db, s, TurnLabels(db, s, q, turns[0]));
    var m, waiting := |RunResponses(db, s', q[n..], turns[1..])|, RunWaiting(db, s', q[n..], turns[1..]);
    SplitsLater(queue, turns[0].arrivals, Arrivals(turns[1..]), n, m, waiting);
    RunUnfolds(db, s, queue, turns);
  }

  /** While the loop runs, the commands that arrived are those answered so far, one answer each and in order,
      followed by those that still wait. */
  lemma {:induction false} CommandsAreAnsweredOnce(db: seq<Attribute>, first: nat, past: seq<Label>, queue: seq<Command>, turns: seq<Turn>)
    requires Runs(db, ANY, Initial(first), past) && After(db, Initial(first), past).phase.Commands?
    requires forall t :: t in turns ==> forall l :: l in t.calls ==> FromStack(l)
    requires AllGoOn(db, first, past, queue, turns)
    ensures OnceEach(db, After(db, Initial(first), past), queue, turns)
    decreases |turns|
  {
    if turns == [] {
      assert queue + Arrivals(turns) == queue;
    } else {
      var s := After(db, Initial(first), past);
      var q := queue + turns[0].arrivals;
      var n, ls := Taken(q, 128), TurnLabels(db, s, q, turns[0]);
      TurnAnswers(db, first, past, q, turns[0]);
      CommandsAreAnsweredOnce(db, first, past + ls, q[n..], turns[1..]);
      OnceEachNext(db, s, queue, turns);
    }
  }

  lemma RunUnfolds(db: seq<Attribute>, s: System, queue: seq<Command>, turns: seq<Turn>)
    requires turns != [] && s.phase.Commands?
    ensures var q := queue + turns[0].arrivals;
            var n, s' := Taken(q, 128), After(db, s, TurnLabels(db, s, q, turns[0]));
            && |RunResponses(db, s, queue, turns)| == |RespondAll(db, s.state, q[..n])| + |RunResponses(db, s', q[n..], turns[1..])|
            && RunWaiting(db, s, queue, turns) == RunWaiting(db, s', q[n..], turns[1..])
            && Arrivals(turns) == turns[0].arrivals + Arrivals(turns[1..])
  {
  }
}
