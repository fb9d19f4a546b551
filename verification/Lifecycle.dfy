/** The process-wide ACTIVE flag: any number of `start` calls, their worker threads and their joins,
    interleaved one atomic step at a time. */
module Lifecycle {
  import opened Gatt
  import opened Bridge

  /** One `start` call and, once it has returned Ok, the Runtime that it returned. */
  datatype Call =
    | RefusedBusy              // ACTIVE was already set
    | Reserved                 // ACTIVE is ours, no thread yet
    | SpawnFailed
    | Waiting                  // for the ready message
    | Started                  // returned Ok
    | Detached                 // dropped on its own worker's thread: nobody will join
    | Closing(failing: bool)   // in shutdown: Stop sent, joining; `failing` inside a start that gives up
    | Closed(failing: bool)    // shutdown returned; a failing start has returned its error

  /** How `run` or the shutdown of the controller ended. An error may come from the transport, whose own code
      displays and drops it; `unwinds` when that code panics, outside any catch_unwind. */
  datatype Outcome = Clean | Failed(unwinds: bool)

  datatype Work =
    | Spawned
    | Initialised                  // rs_init done; nothing that follows in the setup can unwind
    | Serving                      // inside catch_unwind
    | Finishing(outcome: Outcome)  // stop_controller, then the report of an error
    | Deinitialised                // rs_deinit done; handlers and transport are dropped next
    | Released                     // STATE and TRANSPORT emptied
    | Ended                        // the guard has cleared ACTIVE
    | Crashed                      // a panic outside catch_unwind ran the guard

  datatype Completion = Completion(worker: nat, opcode: u16, status: byte)

  /** A shutdown that returned: on its worker's own thread or elsewhere, and whether that thread was over. */
  datatype Return = Return(n: nat, inside: bool, ended: bool)

  datatype Process = Process(
    active: bool,
    calls: map<nat, Call>,
    works: map<nat, Work>,
    stack: Option<nat>,        // the worker whose rs_init is not matched by rs_deinit
    transports: set<nat>,      // workers whose TRANSPORT has not been emptied
    ready: set<nat>,           // ready messages sent
    completions: set<Completion>,
    shutdowns: seq<Return>)      // history

  const QUIET := Process(false, map[], map[], None, {}, {}, {}, [])

  datatype Step =
    | Reserve(n: nat)
    | Spawn(n: nat, ok: bool)
    | Init(n: nat)
    | Serve(n: nat)
    | Complete(n: nat, opcode: u16, status: byte)
    | Finish(n: nat, outcome: Outcome)
    | StopFails(n: nat, unwinds: bool)           // stop_controller returns an error
    | Crash(n: nat)
    | Deinit(n: nat)
    | Release(n: nat)
    | Clear(n: nat)
    | ReceiveReady(n: nat)
    | GiveUp(n: nat)
    | Shutdown(n: nat)
    | Join(n: nat)
    | ShutdownInside(n: nat, dropped: bool)      // shutdown or Drop on the worker's own thread

  predicate At(p: Process, n: nat, w: Work) {
    n in p.works && p.works[n] == w
  }

  predicate Calls(p: Process, n: nat, c: Call) {
    n in p.calls && p.calls[n] == c
  }

  predicate Terminated(p: Process, n: nat) {
    At(p, n, Ended) || At(p, n, Crashed)
  }

  predicate Finishes(p: Process, n: nat) {
    n in p.works && p.works[n].Finishing?
  }

  /** The worker runs code of the application: a handler, or the destructor of one. */
  predicate RunsHandlers(p: Process, n: nat) {
    At(p, n, Serving) || Finishes(p, n) || At(p, n, Deinitialised)
  }

  predicate Enabled(p: Process, t: Step) {
    match t
    case Reserve(n) => n !in p.calls
    case Spawn(n, _) => Calls(p, n, Reserved)
    case Init(n) => At(p, n, Spawned)
    case Serve(n) => At(p, n, Initialised)
    case Complete(n, _, _) => At(p, n, Serving)
    case Finish(n, _) => At(p, n, Serving)
    case StopFails(n, _) => Finishes(p, n)
    case Crash(n) => At(p, n, Finishing(Failed(true))) || At(p, n, Deinitialised)
    case Deinit(n) => At(p, n, Finishing(Clean)) || At(p, n, Finishing(Failed(false)))
    case Release(n) => At(p, n, Deinitialised)
    case Clear(n) => At(p, n, Released)
    case ReceiveReady(n) => Calls(p, n, Waiting) && n in p.ready
    case GiveUp(n) => Calls(p, n, Waiting)
    case Shutdown(n) => Calls(p, n, Started)
    case Join(n) => (Calls(p, n, Closing(true)) || Calls(p, n, Closing(false))) && Terminated(p, n)
    case ShutdownInside(n, _) => Calls(p, n, Started) && RunsHandlers(p, n)
  }

  function Returned(p: Process, n: nat, inside: bool): seq<Return> {
    p.shutdowns + [Return(n, inside, Terminated(p, n))]
  }

  function Apply(p: Process, t: Step): Process {
    match t
    case Reserve(n) =>
      if p.active then p.(calls := p.calls[n := RefusedBusy]) else p.(active := true, calls := p.calls[n := Reserved])
    case Spawn(n, ok) =>
      if ok then p.(calls := p.calls[n := Waiting], works := p.works[n := Spawned], transports := p.transports + {n})
      else p.(calls := p.calls[n := SpawnFailed], active := false)
    case Init(n) => p.(works := p.works[n := Initialised], stack := Some(n))
    case Serve(n) => p.(works := p.works[n := Serving])
    case Complete(n, opcode, status) =>
      var q := p.(completions := p.completions + {Completion(n, opcode, status)});
      if status != 0 then q.(works := q.works[n := Finishing(Failed(false))])
      else if opcode == LE_SET_ADVERTISING_ENABLE then q.(ready := q.ready + {n})
      else q
    case Finish(n, outcome) => p.(works := p.works[n := Finishing(outcome)])
    case StopFails(n, unwinds) =>
      var before := n in p.works && p.works[n] == Finishing(Failed(true));
      p.(works := p.works[n := Finishing(Failed(before || unwinds))])
    case Crash(n) => p.(works := p.works[n := Crashed], active := false)
    case Deinit(n) => p.(works := p.works[n := Deinitialised], stack := None)
    case Release(n) => p.(works := p.works[n := Released], transports := p.transports - {n})
    case Clear(n) => p.(works := p.works[n := Ended], active := false)
    case ReceiveReady(n) => p.(calls := p.calls[n := Started])
    case GiveUp(n) => p.(calls := p.calls[n := Closing(true)])
    case Shutdown(n) => p.(calls := p.calls[n := Closing(false)])
    case Join(n) =>
      p.(calls := p.calls[n := Closed(n in p.calls && p.calls[n] == Closing(true))], shutdowns := Returned(p, n, false))
    case ShutdownInside(n, dropped) =>
      p.(calls := p.calls[n := if dropped then Detached else Started], shutdowns := Returned(p, n, true))
  }

  /** A run of the process from its start, and the state it leads to. */
  ghost predicate Runs(ts: seq<Step>) {
    ts == [] || (Runs(ts[..|ts| - 1]) && Enabled(After(ts[..|ts| - 1]), ts[|ts| - 1]))
  }

  function After(ts: seq<Step>): Process {
    if ts == [] then QUIET else Apply(After(ts[..|ts| - 1]), ts[|ts| - 1])
  }

  lemma Next(ts: seq<Step>, t: Step)
    ensures After(ts + [t]) == Apply(After(ts), t)
    ensures Runs(ts + [t]) <==> Runs(ts) && Enabled(After(ts), t)
  {
    assert (ts + [t])[..|ts|] == ts;
  }

  // ----- The invariant -----

  /** Holds the ACTIVE flag: the call that set it until its thread starts, then that thread until its guard drops. */
  predicate Owns(p: Process, n: nat) {
    Calls(p, n, Reserved) || (n in p.works && !Terminated(p, n))
  }

  /** Between rs_init and rs_deinit, and still running. */
  predicate UsesStack(p: Process, n: nat) {
    At(p, n, Initialised) || At(p, n, Serving) || Finishes(p, n)
  }

  ghost predicate FlagOk(p: Process) {
    && (forall n :: Owns(p, n) ==> p.active)
    && (p.active ==> exists n :: Owns(p, n))
    && (forall m, n :: Owns(p, m) && Owns(p, n) ==> m == n)
  }

  /** A call is past its reservation exactly when it has a worker. */
  ghost predicate CallsOk(calls: map<nat, Call>, works: map<nat, Work>) {
    forall n :: n in works <==> n in calls && !calls[n].Reserved? && !calls[n].RefusedBusy? && !calls[n].SpawnFailed?
  }

  ghost predicate JoinsOk(p: Process) {
    && (forall n :: n in p.calls && p.calls[n].Closed? ==> Terminated(p, n))
    && (forall r :: r in p.shutdowns ==> (r.ended <==> !r.inside) && (r.ended ==> Terminated(p, r.n)))
  }

  ghost predicate ReadyOk(p: Process) {
    && (forall n :: n in p.ready ==> Completion(n, LE_SET_ADVERTISING_ENABLE, 0) in p.completions)
    && (forall n :: Calls(p, n, Started) || Calls(p, n, Detached) || Calls(p, n, Closing(false)) || Calls(p, n, Closed(false)) ==>
          n in p.ready)
  }

  ghost predicate StackOk(p: Process) {
    && (forall n: nat :: UsesStack(p, n) ==> p.stack == Some(n))
    && (p.stack.Some? ==> UsesStack(p, p.stack.value) || At(p, p.stack.value, Crashed))
  }

  ghost predicate TransportsOk(p: Process) {
    forall n :: n in p.transports ==> n in p.works && !At(p, n, Released) && !At(p, n, Ended)
  }

  ghost predicate Inv(p: Process) {
    FlagOk(p) && CallsOk(p.calls, p.works) && JoinsOk(p) && ReadyOk(p) && StackOk(p) && TransportsOk(p)
  }

  predicate GivesUpFlag(t: Step) {
    t.Crash? || t.Clear? || (t.Spawn? && !t.ok)
  }

  /** A step changes ownership only for its own call, and clears the flag only when it gives up ownership. */
  lemma OwnershipAfter(p: Process, t: Step)
    requires CallsOk(p.calls, p.works) && Enabled(p, t)
    ensures GivesUpFlag(t) ==> Owns(p, t.n)
    ensures Owns(Apply(p, t), t.n) <==> if t.Reserve? then !p.active else if GivesUpFlag(t) then false else Owns(p, t.n)
    ensures Apply(p, t).active <==> if t.Reserve? then true else if GivesUpFlag(t) then false else p.active
  {
  }

  lemma OthersUntouched(p: Process, t: Step, m: nat)
    requires m != t.n
    ensures m in Apply(p, t).works <==> m in p.works
    ensures m in p.works ==> Apply(p, t).works[m] == p.works[m]
    ensures m in Apply(p, t).calls <==> m in p.calls
    ensures m in p.calls ==> Apply(p, t).calls[m] == p.calls[m]
  {
  }

  lemma FlagStep(p: Process, t: Step)
    requires FlagOk(p) && CallsOk(p.calls, p.works) && Enabled(p, t)
    ensures FlagOk(Apply(p, t))
  {
    OwnershipAfter(p, t);
    var q := Apply(p, t);
    forall m | m != t.n
      ensures Owns(q, m) <==> Owns(p, m)
    {
      OthersUntouched(p, t, m);
    }
    if p.active && q.active {
      var m :| Owns(p, m);
      assert m == t.n || Owns(q, m);
      if t.Reserve? { assert !Owns(p, t.n); }
    } else if q.active {
      assert Owns(q, t.n);
    }
  }

  lemma CallsStep(p: Process, t: Step)
    requires CallsOk(p.calls, p.works) && Enabled(p, t)
    ensures CallsOk(Apply(p, t).calls, Apply(p, t).works)
  {
  }

  /** A thread that is over stays over. */
  lemma TerminatedStays(p: Process, t: Step, n: nat)
    requires CallsOk(p.calls, p.works) && Enabled(p, t) && Terminated(p, n)
    ensures Terminated(Apply(p, t), n)
  {
    if t.n != n { OthersUntouched(p, t, n); }
  }

  lemma JoinsStep(p: Process, t: Step)
    requires CallsOk(p.calls, p.works) && JoinsOk(p) && Enabled(p, t)
    ensures JoinsOk(Apply(p, t))
  {
    forall n | Terminated(p, n)
      ensures Terminated(Apply(p, t), n)
    {
      TerminatedStays(p, t, n);
    }
  }

  lemma ReadyStep(p: Process, t: Step)
    requires ReadyOk(p) && Enabled(p, t)
    ensures ReadyOk(Apply(p, t))
  {
  }

  /** What a step does to its own worker's use of the stack. */
  lemma UseAfter(p: Process, t: Step)
    requires Enabled(p, t)
    ensures var q := Apply(p, t);
            && q.stack == (if t.Init? then Some(t.n) else if t.Deinit? then None else p.stack)
            && (t.Reserve? || t.Spawn? || (UsesStack(q, t.n) <==> t.Init? || (UsesStack(p, t.n) && !t.Deinit? && !t.Crash?)))
            && (t.Reserve? || t.Spawn? || (At(q, t.n, Crashed) <==> t.Crash? || At(p, t.n, Crashed)))
    ensures t.Init? ==> !UsesStack(p, t.n)
    ensures t.Deinit? ==> UsesStack(p, t.n)
    ensures t.Init? || t.Deinit? || t.Crash? ==> Owns(p, t.n)
  {
  }

  /** A call that has no worker yet does not use the stack, before or after. */
  lemma StartingUsesNothing(p: Process, t: Step)
    requires CallsOk(p.calls, p.works) && Enabled(p, t) && (t.Reserve? || t.Spawn?)
    ensures !UsesStack(p, t.n) && !UsesStack(Apply(p, t), t.n)
    ensures !At(p, t.n, Crashed) && !At(Apply(p, t), t.n, Crashed)
  {
  }

  lemma StackStep(p: Process, t: Step)
    requires FlagOk(p) && CallsOk(p.calls, p.works) && StackOk(p) && Enabled(p, t)
    ensures StackOk(Apply(p, t))
  {
    var q := Apply(p, t);
    UseAfter(p, t);
    if t.Reserve? || t.Spawn? { StartingUsesNothing(p, t); }
    forall m | m != t.n
      ensures UsesStack(q, m) <==> UsesStack(p, m)
      ensures At(q, m, Crashed) <==> At(p, m, Crashed)
      ensures t.Init? || t.Deinit? ==> !UsesStack(p, m)
    {
      OthersUntouched(p, t, m);
      if UsesStack(p, m) && (t.Init? || t.Deinit?) { assert Owns(p, m) && Owns(p, t.n); }
    }
  }

  lemma TransportsStep(p: Process, t: Step)
    requires TransportsOk(p) && CallsOk(p.calls, p.works) && Enabled(p, t)
    ensures TransportsOk(Apply(p, t))
  {
  }

  lemma InvStep(p: Process, t: Step)
    requires Inv(p) && Enabled(p, t)
    ensures Inv(Apply(p, t))
  {
    FlagStep(p, t);
    CallsStep(p, t);
    JoinsStep(p, t);
    ReadyStep(p, t);
    StackStep(p, t);
    TransportsStep(p, t);
  }

  lemma {:induction false} Always(ts: seq<Step>)
    requires Runs(ts)
    ensures Inv(After(ts))
  {
    if ts != [] {
      Always(ts[..|ts| - 1]);
      InvStep(After(ts[..|ts| - 1]), ts[|ts| - 1]);
    }
  }

  // ----- What callers may rely on -----

  /** At most one worker is ever between rs_init and rs_deinit, and the flag is set exactly while some call
      or worker holds it; so a later start succeeds once every earlier one is over. */
  lemma OneRuntimeAtATime(ts: seq<Step>)
    requires Runs(ts)
    ensures var p := After(ts);
            && (forall m, n :: UsesStack(p, m) && UsesStack(p, n) ==> m == n)
            && (p.active <==> exists n :: Owns(p, n))
            && (forall n: nat :: UsesStack(p, n) ==> p.active && p.stack == Some(n))
  {
    Always(ts);
    var p := After(ts);
    assert forall n :: UsesStack(p, n) ==> Owns(p, n);
  }

  /** `start` returns Ok only after a status-0 completion of LE Set Advertising Enable, and once a thread
      was spawned it returns an error, like a joining shutdown, only after that thread has ended. */
  lemma StartAndShutdown(ts: seq<Step>, n: nat)
    requires Runs(ts)
    ensures var p := After(ts);
            && (Calls(p, n, Started) ==> Completion(n, LE_SET_ADVERTISING_ENABLE, 0) in p.completions && n in p.works)
            && (Calls(p, n, Closed(true)) || Calls(p, n, Closed(false)) ==> Terminated(p, n))
            && (Calls(p, n, RefusedBusy) || Calls(p, n, SpawnFailed) ==> n !in p.works)
  {
    Always(ts);
  }

  /** Over all runs: a shutdown returned after its worker ended if and only if it was not called on that
      worker's own thread; and then the worker is over for good. */
  lemma ShutdownIsABarrierIff(ts: seq<Step>, r: Return)
    requires Runs(ts) && r in After(ts).shutdowns
    ensures r.ended <==> !r.inside
    ensures !r.inside ==> Terminated(After(ts), r.n)
  {
    Always(ts);
  }

  // ----- What each state of a call and of a worker tells -----

  predicate IsFailing(p: Process, n: nat) {
    Calls(p, n, Closing(true)) || Calls(p, n, Closed(true))
  }

  predicate ShutsDown(p: Process, n: nat) {
    Calls(p, n, Closing(false)) || Calls(p, n, Closed(false))
  }

  predicate WasStarted(p: Process, n: nat) {
    Calls(p, n, Started) || Calls(p, n, Detached) || ShutsDown(p, n)
  }

  ghost predicate CallStory(ts: seq<Step>, p: Process, n: nat) {
    && (n in p.calls <==> Reserve(n) in ts)
    && (Calls(p, n, SpawnFailed) <==> Spawn(n, false) in ts)
    && (WasStarted(p, n) <==> ReceiveReady(n) in ts)
    && (IsFailing(p, n) <==> GiveUp(n) in ts)
    && (ShutsDown(p, n) <==> Shutdown(n) in ts)
    && (Calls(p, n, Closed(true)) || Calls(p, n, Closed(false)) <==> Join(n) in ts)
    && (Calls(p, n, Detached) <==> ShutdownInside(n, true) in ts)
  }

  ghost predicate WorkStory(ts: seq<Step>, p: Process, n: nat) {
    && (n in p.works <==> Spawn(n, true) in ts)
    && (At(p, n, Ended) <==> Clear(n) in ts)
    && (At(p, n, Crashed) <==> Crash(n) in ts)
    && (At(p, n, Released) || At(p, n, Ended) <==> Release(n) in ts)
    && (n in p.transports <==> Spawn(n, true) in ts && Release(n) !in ts)
    && (Finishes(p, n) ==> (At(p, n, Finishing(Failed(true))) <==> Finish(n, Failed(true)) in ts || StopFails(n, true) in ts))
    && (Finishes(p, n) ==> (At(p, n, Finishing(Clean)) <==> Finish(n, Clean) in ts && StopFails(n, true) !in ts && StopFails(n, false) !in ts))
  }

  predicate StillServing(p: Process, n: nat) {
    n !in p.works || At(p, n, Spawned) || At(p, n, Initialised) || At(p, n, Serving)
  }

  ghost predicate ResultStory(ts: seq<Step>, p: Process, n: nat) {
    && (n in p.ready <==> Complete(n, 0x200a, 0) in ts)
    && (forall opcode, status :: Completion(n, opcode, status) in p.completions <==> Complete(n, opcode, status) in ts)
    && (forall opcode, status :: Complete(n, opcode, status) in ts && status != 0 ==> !StillServing(p, n))
    && (forall o :: Finish(n, o) in ts ==> !StillServing(p, n))
    && (forall u :: StopFails(n, u) in ts ==> !StillServing(p, n))
  }

  lemma Unrelated(ts: seq<Step>, t: Step, n: nat)
    requires t.n != n
    ensures forall u: Step :: u.n == n ==> (u in ts + [t] <==> u in ts)
  {
  }

  lemma CallStoryOther(ts: seq<Step>, p: Process, t: Step, n: nat)
    requires CallStory(ts, p, n) && t.n != n
    ensures CallStory(ts + [t], Apply(p, t), n)
  {
    OthersUntouched(p, t, n);
    Unrelated(ts, t, n);
  }

  /** Steps of a worker leave its call alone. */
  lemma WorkerStepsKeepCalls(p: Process, t: Step)
    requires CallsOk(p.calls, p.works) && Enabled(p, t)
    ensures t.n in Apply(p, t).calls && (t.n in p.calls <==> !t.Reserve?) && !Calls(p, t.n, SpawnFailed)
    ensures t.Reserve? || t.Spawn? || t.ReceiveReady? || t.GiveUp? || t.Shutdown? || t.Join? || t.ShutdownInside?
            || Apply(p, t).calls == p.calls
  {
  }

  /** What a call's own step makes of it. */
  lemma CallAfter(p: Process, t: Step)
    requires CallsOk(p.calls, p.works) && Enabled(p, t)
    ensures var q, n := Apply(p, t), t.n;
            && (Calls(q, n, SpawnFailed) <==> t == Spawn(n, false))
            && (WasStarted(q, n) <==> t.ReceiveReady? || WasStarted(p, n))
            && (IsFailing(q, n) <==> t.GiveUp? || IsFailing(p, n))
  {
    WorkerStepsKeepCalls(p, t);
  }

  lemma CallEnds(p: Process, t: Step)
    requires CallsOk(p.calls, p.works) && Enabled(p, t)
    ensures var q, n := Apply(p, t), t.n;
            && (ShutsDown(q, n) <==> t.Shutdown? || ShutsDown(p, n))
            && (Calls(q, n, Closed(true)) || Calls(q, n, Closed(false)) <==> t.Join? || Calls(p, n, Closed(true)) || Calls(p, n, Closed(false)))
            && (Calls(q, n, Detached) <==> t == ShutdownInside(n, true) || Calls(p, n, Detached))
  {
    WorkerStepsKeepCalls(p, t);
  }

  lemma CallStoryStep(ts: seq<Step>, p: Process, t: Step, n: nat)
    requires CallStory(ts, p, n) && CallsOk(p.calls, p.works) && Enabled(p, t)
    ensures CallStory(ts + [t], Apply(p, t), n)
  {
    if t.n != n {
      CallStoryOther(ts, p, t, n);
    } else {
      WorkerStepsKeepCalls(p, t);
      CallAfter(p, t);
      CallEnds(p, t);
    }
  }

  lemma WorkStoryOther(ts: seq<Step>, p: Process, t: Step, n: nat)
    requires WorkStory(ts, p, n) && t.n != n
    ensures WorkStory(ts + [t], Apply(p, t), n)
  {
    OthersUntouched(p, t, n);
    Unrelated(ts, t, n);
  }

  lemma WorkStoryStep(ts: seq<Step>, p: Process, t: Step, n: nat)
    requires WorkStory(ts, p, n) && ResultStory(ts, p, n) && CallsOk(p.calls, p.works) && Enabled(p, t)
    ensures WorkStory(ts + [t], Apply(p, t), n)
  {
    if t.n != n { WorkStoryOther(ts, p, t, n); }
  }

  lemma OthersResults(p: Process, t: Step, n: nat)
    requires t.n != n
    ensures n in Apply(p, t).ready <==> n in p.ready
    ensures forall c: Completion :: c.worker == n ==> (c in Apply(p, t).completions <==> c in p.completions)
    ensures StillServing(Apply(p, t), n) <==> StillServing(p, n)
  {
    OthersUntouched(p, t, n);
  }

  lemma ResultStoryOther(ts: seq<Step>, p: Process, t: Step, n: nat)
    requires ResultStory(ts, p, n) && t.n != n
    ensures ResultStory(ts + [t], Apply(p, t), n)
  {
    OthersResults(p, t, n);
    Unrelated(ts, t, n);
  }

  /** What a worker's own step makes of its results; one that served once never does so again. */
  lemma ResultAfter(p: Process, t: Step)
    requires CallsOk(p.calls, p.works) && Enabled(p, t)
    ensures var q, n := Apply(p, t), t.n;
            && (n in q.ready <==> t == Complete(n, 0x200a, 0) || n in p.ready)
            && q.completions == p.completions + (if t.Complete? then {Completion(n, t.opcode, t.status)} else {})
            && (!StillServing(p, n) ==> !StillServing(q, n))
            && (t.Finish? || t.StopFails? || (t.Complete? && t.status != 0) ==> !StillServing(q, n))
  {
  }

  lemma ResultStoryStep(ts: seq<Step>, p: Process, t: Step, n: nat)
    requires ResultStory(ts, p, n) && CallsOk(p.calls, p.works) && Enabled(p, t)
    ensures ResultStory(ts + [t], Apply(p, t), n)
  {
    if t.n != n { ResultStoryOther(ts, p, t, n); } else { ResultAfter(p, t); }
  }

  lemma {:induction false} Stories(ts: seq<Step>, n: nat)
    requires Runs(ts)
    ensures CallStory(ts, After(ts), n) && WorkStory(ts, After(ts), n) && ResultStory(ts, After(ts), n)
  {
    if ts != [] {
      var front, t := ts[..|ts| - 1], ts[|ts| - 1];
      Stories(front, n);
      Always(front);
      assert ts == front + [t];
      CallStoryStep(front, After(front), t, n);
      WorkStoryStep(front, After(front), t, n);
      ResultStoryStep(front, After(front), t, n);
    }
  }

  /** A start has failed, or is failing, if and only if it gave up waiting; it has returned Ok if and only if it
      received the ready message; and it shuts down, or has, if and only if it was asked to. */
  lemma CallsTellTheirStory(ts: seq<Step>, n: nat)
    requires Runs(ts)
    ensures var p := After(ts);
            && (IsFailing(p, n) <==> GiveUp(n) in ts)
            && (WasStarted(p, n) <==> ReceiveReady(n) in ts)
            && (ShutsDown(p, n) <==> Shutdown(n) in ts)
            && (Calls(p, n, Closed(true)) || Calls(p, n, Closed(false)) <==> Join(n) in ts)
            && (Calls(p, n, SpawnFailed) <==> Spawn(n, false) in ts)
            && (n in p.calls <==> Reserve(n) in ts)
  {
    Stories(ts, n);
  }

  /** The ready message is there if and only if LE Set Advertising Enable completed with status 0, and a
      waiting start can then return Ok; no worker goes on serving after a command failed. */
  lemma ReadyIff(ts: seq<Step>, n: nat)
    requires Runs(ts)
    ensures var p := After(ts);
            && (n in p.ready <==> Complete(n, 0x200a, 0) in ts)
            && (Calls(p, n, Waiting) ==> (Enabled(p, ReceiveReady(n)) <==> Complete(n, 0x200a, 0) in ts))
            && (forall opcode, status :: Complete(n, opcode, status) in ts && status != 0 ==> !StillServing(p, n))
  {
    Stories(ts, n);
  }

  /** A transport is held from the spawn of its worker until that worker empties it; and a worker can crash
      before rs_deinit if and only if some error that was to be reported has code that panics; it reports none
      if and only if neither `run` nor the shutdown of the controller failed. */
  lemma WorkersTellTheirStory(ts: seq<Step>, n: nat)
    requires Runs(ts)
    ensures var p := After(ts);
            && (n in p.transports <==> Spawn(n, true) in ts && Release(n) !in ts)
            && (At(p, n, Ended) <==> Clear(n) in ts) && (At(p, n, Crashed) <==> Crash(n) in ts)
            && (Finishes(p, n) ==> (Enabled(p, Crash(n)) <==> Finish(n, Failed(true)) in ts || StopFails(n, true) in ts))
            && (Finishes(p, n) ==> (At(p, n, Finishing(Clean)) <==> Finish(n, Clean) in ts && StopFails(n, true) !in ts && StopFails(n, false) !in ts))
  {
    Stories(ts, n);
  }

  // ----- The stack left up -----

  /** The last worker past rs_init. */
  function LastInit(ts: seq<Step>): Option<nat> {
    if ts == [] then None
    else if ts[|ts| - 1].Init? then Some(ts[|ts| - 1].n)
    else LastInit(ts[..|ts| - 1])
  }

  ghost predicate CrashedUsing(ts: seq<Step>, n: nat, k: nat)
    requires k < |ts|
  {
    ts[k] == Crash(n) && UsesStack(After(ts[..k]), n)
  }

  /** Worker `n` crashed between its rs_init and its rs_deinit. */
  ghost predicate LeftUp(ts: seq<Step>, n: nat) {
    exists k :: 0 <= k < |ts| && CrashedUsing(ts, n, k)
  }

  lemma LeftUpNext(ts: seq<Step>, n: nat)
    requires ts != []
    ensures var front, t := ts[..|ts| - 1], ts[|ts| - 1];
            LeftUp(ts, n) <==> LeftUp(front, n) || (t == Crash(n) && UsesStack(After(front), n))
  {
    var front := ts[..|ts| - 1];
    forall k | 0 <= k < |front|
      ensures CrashedUsing(ts, n, k) <==> CrashedUsing(front, n, k)
    {
      assert front[..k] == ts[..k];
    }
    assert CrashedUsing(ts, n, |ts| - 1) <==> ts[|ts| - 1] == Crash(n) && UsesStack(After(front), n);
    if LeftUp(front, n) {
      var k :| 0 <= k < |front| && CrashedUsing(front, n, k);
      assert CrashedUsing(ts, n, k);
    }
  }

  lemma CrashedStays(p: Process, t: Step, n: nat)
    requires CallsOk(p.calls, p.works) && Enabled(p, t) && At(p, n, Crashed)
    ensures At(Apply(p, t), n, Crashed)
  {
    if t.n != n {
      OthersUntouched(p, t, n);
    } else if t.Reserve? || t.Spawn? {
      StartingUsesNothing(p, t);
      assert false;
    } else {
      UseAfter(p, t);
    }
  }

  lemma {:induction false} LeftUpHasCrashed(ts: seq<Step>, n: nat)
    requires Runs(ts) && LeftUp(ts, n)
    ensures At(After(ts), n, Crashed)
  {
    if ts != [] {
      var front := ts[..|ts| - 1];
      LeftUpNext(ts, n);
      Always(front);
      if LeftUp(front, n) {
        LeftUpHasCrashed(front, n);
        CrashedStays(After(front), ts[|ts| - 1], n);
      }
    }
  }

  lemma {:induction false} StackIsTheLasts(ts: seq<Step>)
    requires Runs(ts)
    ensures After(ts).stack ==
            match LastInit(ts)
            case None => None
            case Some(n) => if UsesStack(After(ts), n) || LeftUp(ts, n) then Some(n) else None
  {
    if ts != [] {
      var front, t := ts[..|ts| - 1], ts[|ts| - 1];
      StackIsTheLasts(front);
      Always(front);
      if LastInit(ts).Some? { StackOfTheLast(ts, LastInit(ts).value); }
    }
  }

  lemma StackOfTheLast(ts: seq<Step>, n: nat)
    requires ts != [] && Runs(ts) && LastInit(ts) == Some(n) && Inv(After(ts[..|ts| - 1]))
    requires var front := ts[..|ts| - 1];
             LastInit(front) == Some(n) ==> After(front).stack == if UsesStack(After(front), n) || LeftUp(front, n) then Some(n) else None
    ensures After(ts).stack == if UsesStack(After(ts), n) || LeftUp(ts, n) then Some(n) else None
  {
    var front, t := ts[..|ts| - 1], ts[|ts| - 1];
    var p := After(front);
    LeftUpNext(ts, n);
    UseAfter(p, t);
    if LeftUp(front, n) { LeftUpHasCrashed(front, n); }
    if t.n != n {
      OthersUntouched(p, t, n);
      assert UsesStack(p, t.n) ==> p.stack == Some(t.n);
    } else if t.Reserve? || t.Spawn? {
      StartingUsesNothing(p, t);
    }
  }

  /** With the flag clear, the stack is up if and only if the last worker past rs_init crashed before its
      rs_deinit. At such a crash an error of the transport was being reported whose own code panics. */
  lemma StackUpIff(ts: seq<Step>)
    requires Runs(ts) && !After(ts).active
    ensures After(ts).stack.Some? <==> LastInit(ts).Some? && LeftUp(ts, LastInit(ts).value)
    ensures After(ts).stack.Some? ==> After(ts).stack == LastInit(ts)
    ensures forall n, k :: 0 <= k < |ts| && CrashedUsing(ts, n, k) ==> At(After(ts[..k]), n, Finishing(Failed(true)))
  {
    Always(ts);
    StackIsTheLasts(ts);
    assert forall n :: UsesStack(After(ts), n) ==> Owns(After(ts), n);
    forall n, k | 0 <= k < |ts| && CrashedUsing(ts, n, k)
      ensures At(After(ts[..k]), n, Finishing(Failed(true)))
    {
      PrefixRuns(ts, k);
    }
  }

  lemma {:induction false} PrefixRuns(ts: seq<Step>, k: nat)
    requires Runs(ts) && k < |ts|
    ensures Runs(ts[..k]) && Enabled(After(ts[..k]), ts[k])
  {
    var front := ts[..|ts| - 1];
    if k == |front| {
      assert ts[..k] == front;
    } else {
      PrefixRuns(front, k);
      assert front[..k] == ts[..k];
    }
  }

  /** While the flag is clear every transport has been released, except by workers that crashed. */
  lemma ClearMeansReleased(ts: seq<Step>)
    requires Runs(ts) && !After(ts).active
    ensures var p := After(ts);
            && (forall n :: n in p.transports ==> At(p, n, Crashed))
            && ((forall n :: n in p.works ==> !At(p, n, Crashed)) ==> p.stack == None && p.transports == {})
  {
    Always(ts);
    var p := After(ts);
    assert forall n :: n in p.works ==> !Owns(p, n);
  }

  // ----- Two runs -----

  function UpTo(n: nat): seq<Step> {
    [Reserve(n)] + [Spawn(n, true)] + [Init(n)] + [Serve(n)]
  }

  lemma UpToRuns(n: nat)
    ensures Runs(UpTo(n)) && At(After(UpTo(n)), n, Serving) && Calls(After(UpTo(n)), n, Waiting)
    ensures After(UpTo(n)).stack == Some(n) && After(UpTo(n)).shutdowns == [] && n in After(UpTo(n)).transports
  {
    Next([], Reserve(n));
    assert [] + [Reserve(n)] == [Reserve(n)];
    Next([Reserve(n)], Spawn(n, true));
    Next([Reserve(n)] + [Spawn(n, true)], Init(n));
    Next([Reserve(n)] + [Spawn(n, true)] + [Init(n)], Serve(n));
  }

  /** `receive` of the transport returns an error whose Display panics: the flag is cleared with the stack up. */
  lemma CrashLeavesTheStackUp(n: nat)
    ensures var ts := UpTo(n) + [Finish(n, Failed(true))] + [Crash(n)];
            Runs(ts) && !After(ts).active && After(ts).stack == Some(n)
  {
    UpToRuns(n);
    Next(UpTo(n), Finish(n, Failed(true)));
    Next(UpTo(n) + [Finish(n, Failed(true))], Crash(n));
  }

  /** A handler whose destructor panics ends the worker after rs_deinit: the flag is cleared with the stack down. */
  lemma CrashInTeardown(n: nat)
    ensures var ts := UpTo(n) + [Finish(n, Clean)] + [Deinit(n)] + [Crash(n)];
            Runs(ts) && !After(ts).active && After(ts).stack == None && n in After(ts).transports
  {
    UpToRuns(n);
    Next(UpTo(n), Finish(n, Clean));
    Next(UpTo(n) + [Finish(n, Clean)], Deinit(n));
    Next(UpTo(n) + [Finish(n, Clean)] + [Deinit(n)], Crash(n));
  }

  function ServingSteps(n: nat): seq<Step> {
    UpTo(n) + [Complete(n, LE_SET_ADVERTISING_ENABLE, 0)] + [ReceiveReady(n)]
  }

  lemma ServingRuns(n: nat)
    ensures Runs(ServingSteps(n)) && At(After(ServingSteps(n)), n, Serving) && Calls(After(ServingSteps(n)), n, Started)
    ensures After(ServingSteps(n)).shutdowns == []
  {
    UpToRuns(n);
    Next(UpTo(n), Complete(n, LE_SET_ADVERTISING_ENABLE, 0));
    Next(UpTo(n) + [Complete(n, LE_SET_ADVERTISING_ENABLE, 0)], ReceiveReady(n));
  }

  /** A handler that holds the server calls shutdown: it returns while its worker still serves. */
  lemma ShutdownInsideReturnsEarly(n: nat, dropped: bool)
    ensures var ts := ServingSteps(n) + [ShutdownInside(n, dropped)];
            Runs(ts) && At(After(ts), n, Serving) && After(ts).shutdowns == [Return(n, true, false)]
  {
    ServingRuns(n);
    Next(ServingSteps(n), ShutdownInside(n, dropped));
  }

  // ----- A start that finds the flag set -----

  function Without(ts: seq<Step>, n: nat): seq<Step> {
    if ts == [] then []
    else Without(ts[..|ts| - 1], n) + (if ts[|ts| - 1].n == n then [] else [ts[|ts| - 1]])
  }

  lemma {:induction false} NotYetCalled(ts: seq<Step>, n: nat)
    requires Runs(ts) && n !in After(ts).calls
    ensures Without(ts, n) == ts
  {
    if ts != [] {
      var front, t := ts[..|ts| - 1], ts[|ts| - 1];
      Always(front);
      WorkerStepsKeepCalls(After(front), t);
      OthersUntouched(After(front), t, n);
      NotYetCalled(front, n);
    }
  }

  lemma Commute(m: map<nat, Call>, n: nat, c: Call, k: nat, d: Call)
    requires n != k
    ensures m[n := c][k := d] == m[k := d][n := c]
  {
  }

  lemma Irrelevant(p: Process, n: nat, c: Call, t: Step)
    requires t.n != n
    ensures Enabled(p.(calls := p.calls[n := c]), t) <==> Enabled(p, t)
    ensures Apply(p.(calls := p.calls[n := c]), t) == var q := Apply(p, t); q.(calls := q.calls[n := c])
  {
    if t.n in Apply(p, t).calls { Commute(p.calls, n, c, t.n, Apply(p, t).calls[t.n]); }
  }

  /** A refused start leaves no trace: the run without it is a run too, and differs in its own answer only. */
  lemma {:induction false} BusyStartIsHarmless(ts: seq<Step>, n: nat)
    requires Runs(ts) && Calls(After(ts), n, RefusedBusy)
    ensures Runs(Without(ts, n))
    ensures var q := After(Without(ts, n));
            After(ts) == q.(calls := q.calls[n := RefusedBusy])
  {
    var front, t := ts[..|ts| - 1], ts[|ts| - 1];
    Always(front);
    if t.n == n {
      assert t.Reserve?;
      NotYetCalled(front, n);
      assert Without(ts, n) == front + [] == front;
    } else {
      OthersUntouched(After(front), t, n);
      BusyStartIsHarmless(front, n);
      Irrelevant(After(Without(front, n)), n, RefusedBusy, t);
      Next(Without(front, n), t);
    }
  }
}
