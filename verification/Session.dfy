/** The stop barrier of the Android session object: one worker thread, any number of stop() callers,
    run() futures and destructors, interleaved one atomic step at a time. */
module Session {
  import opened Gatt

  datatype Caller = External(id: nat) | Guard(run: nat) | Destructor

  /** Inside stop(). `Joining(mine)` holds the mutex; `mine` when it took the join handle. */
  datatype StopPc = Entered | Flagged | Joining(mine: bool) | Returned

  /** A run() future; one that was rejected or dropped before its first poll never held the completion. */
  datatype RunPc = Created | Awaiting | Unwinding | Finished | Rejected | Discarded

  datatype State = State(
    stop: bool,
    handle: bool,                  // the mutex still holds the join handle
    lock: Option<Caller>,
    completion: bool,              // the mutex still holds the receiver
    alive: bool,                   // the worker thread has not terminated
    refs: nat,                     // Arc count
    callers: map<Caller, StopPc>,
    runs: map<nat, RunPc>)

  datatype Step =
    | Call(c: Caller)              // an external caller clones the Arc and enters stop()
    | SetFlag(c: Caller)
    | LockAndTake(c: Caller)
    | Leave(c: Caller)             // the join, if any, has returned; unlock and return
    | WorkerEnds
    | Create(r: nat)
    | Poll(r: nat)
    | Unwind(r: nat)               // the completion arrived, or the future is dropped: the guard drops
    | Conclude(r: nat)
    | Abandon(r: nat)              // dropped before the first poll
    | Forget                       // some holder drops its Arc

  const OPENED := State(false, true, None, true, true, 1, map[], map[])

  predicate Pc(callers: map<Caller, StopPc>, c: Caller, pc: StopPc) {
    c in callers && callers[c] == pc
  }

  predicate Run(runs: map<nat, RunPc>, r: nat, pc: RunPc) {
    r in runs && runs[r] == pc
  }

  /** Holders of the Arc are not told apart: `Forget` may drop any reference, which only adds runs. */
  predicate Enabled(s: State, t: Step) {
    match t
    case Call(c) => c.External? && c !in s.callers && s.refs > 0
    case SetFlag(c) => Pc(s.callers, c, Entered)
    case LockAndTake(c) => Pc(s.callers, c, Flagged) && s.lock == None
    case Leave(c) => Pc(s.callers, c, Joining(false)) || (Pc(s.callers, c, Joining(true)) && !s.alive)
    case WorkerEnds => s.alive
    case Create(r) => r !in s.runs && s.refs > 0
    case Poll(r) => Run(s.runs, r, Created)
    case Unwind(r) => Run(s.runs, r, Awaiting)
    case Conclude(r) => Run(s.runs, r, Unwinding) && Pc(s.callers, Guard(r), Returned)
    case Abandon(r) => Run(s.runs, r, Created)
    case Forget => s.refs > 0
  }

  /** Dropping the last Arc runs the destructor, which is one more stop(). */
  function Drop(s: State): State {
    if s.refs == 0 then s
    else if s.refs == 1 && Destructor !in s.callers then s.(refs := 0, callers := s.callers[Destructor := Entered])
    else s.(refs := s.refs - 1)
  }

  function Apply(s: State, t: Step): State {
    match t
    case Call(c) => s.(callers := s.callers[c := Entered], refs := s.refs + 1)
    case SetFlag(c) => s.(stop := true, callers := s.callers[c := Flagged])
    case LockAndTake(c) => s.(lock := Some(c), handle := false, callers := s.callers[c := Joining(s.handle)])
    case Leave(c) =>
      var left := s.(lock := None, callers := s.callers[c := Returned]);
      if c.External? then Drop(left) else left
    case WorkerEnds => s.(alive := false)
    case Create(r) => s.(runs := s.runs[r := Created], refs := s.refs + 1)
    case Poll(r) =>
      if s.completion then s.(completion := false, runs := s.runs[r := Awaiting])
      else Drop(s.(runs := s.runs[r := Rejected]))
    case Unwind(r) => s.(runs := s.runs[r := Unwinding], callers := s.callers[Guard(r) := Entered])
    case Conclude(r) => Drop(s.(runs := s.runs[r := Finished]))
    case Abandon(r) => Drop(s.(runs := s.runs[r := Discarded]))
    case Forget => Drop(s)
  }

  ghost predicate Runs(s: State, ts: seq<Step>)
    decreases |ts|
  {
    ts == [] || (Enabled(s, ts[0]) && Runs(Apply(s, ts[0]), ts[1..]))
  }

  function After(s: State, ts: seq<Step>): State
    decreases |ts|
  {
    if ts == [] then s else After(Apply(s, ts[0]), ts[1..])
  }

  // ----- The invariant -----

  predicate Holds(runs: map<nat, RunPc>, r: nat) {
    Run(runs, r, Awaiting) || Run(runs, r, Unwinding) || Run(runs, r, Finished)
  }

  ghost predicate Barrier(stop: bool, handle: bool, lock: Option<Caller>, alive: bool, callers: map<Caller, StopPc>) {
    && (forall c :: c in callers && callers[c].Joining? <==> lock == Some(c))
    && (forall c :: c in callers && (callers[c].Returned? || callers[c].Joining?) ==> !handle)
    && (!handle && alive ==> lock.Some? && callers[lock.value] == Joining(true))
    && (forall c :: c in callers && callers[c].Returned? ==> !alive)
    && (forall c :: c in callers && !callers[c].Entered? ==> stop)
  }

  ghost predicate LockOk(s: State) {
    Barrier(s.stop, s.handle, s.lock, s.alive, s.callers)
  }

  /** One future at most holds the completion; its guard calls stop() once, and it is over when that returned. */
  ghost predicate Once(completion: bool, runs: map<nat, RunPc>, callers: map<Caller, StopPc>) {
    && (completion ==> forall r :: !Holds(runs, r))
    && (forall q, r :: Holds(runs, q) && Holds(runs, r) ==> q == r)
    && (forall r :: Guard(r) in callers <==> Run(runs, r, Unwinding) || Run(runs, r, Finished))
    && (forall r :: Run(runs, r, Finished) ==> Pc(callers, Guard(r), Returned))
  }

  ghost predicate RunsOk(s: State) {
    Once(s.completion, s.runs, s.callers)
  }

  lemma Entering(s: State, c: Caller)
    requires LockOk(s) && c !in s.callers
    ensures Barrier(s.stop, s.handle, s.lock, s.alive, s.callers[c := Entered])
  {
  }

  lemma Dropping(s: State)
    requires LockOk(s)
    ensures LockOk(Drop(s))
    ensures Drop(s).runs == s.runs && Drop(s).completion == s.completion
    ensures forall r :: Guard(r) in Drop(s).callers <==> Guard(r) in s.callers
    ensures forall c :: c in s.callers ==> c in Drop(s).callers && Drop(s).callers[c] == s.callers[c]
  {
    if Destructor !in s.callers { Entering(s, Destructor); }
  }

  lemma LeavingKeepsLock(s: State, c: Caller)
    requires LockOk(s) && Enabled(s, Leave(c))
    ensures LockOk(s.(lock := None, callers := s.callers[c := Returned]))
  {
  }

  lemma LockStep(s: State, t: Step)
    requires LockOk(s) && RunsOk(s) && Enabled(s, t)
    ensures LockOk(Apply(s, t))
  {
    match t
    case Call(c) => Entering(s, c);
    case Leave(c) =>
      LeavingKeepsLock(s, c);
      Dropping(s.(lock := None, callers := s.callers[c := Returned]));
    case Poll(r) => if !s.completion { Dropping(s.(runs := s.runs[r := Rejected])); }
    case Unwind(r) => Entering(s, Guard(r));
    case Conclude(r) => Dropping(s.(runs := s.runs[r := Finished]));
    case Abandon(r) => Dropping(s.(runs := s.runs[r := Discarded]));
    case Forget => Dropping(s);
    case _ =>
  }

  /** A future that does not hold the completion, or that concludes, keeps the accounts. */
  lemma RunStep(completion: bool, runs: map<nat, RunPc>, callers: map<Caller, StopPc>, r: nat, pc: RunPc)
    requires Once(completion, runs, callers)
    requires if pc.Finished? then Run(runs, r, Unwinding) && Pc(callers, Guard(r), Returned)
             else (pc.Created? || pc.Rejected? || pc.Discarded?) && Guard(r) !in callers
    ensures Once(completion, runs[r := pc], callers)
  {
    var runs' := runs[r := pc];
    forall q | Holds(runs', q)
      ensures Holds(runs, q)
    {
    }
  }

  lemma PollStep(runs: map<nat, RunPc>, callers: map<Caller, StopPc>, r: nat)
    requires Once(true, runs, callers) && Run(runs, r, Created)
    ensures Once(false, runs[r := Awaiting], callers)
  {
    var runs' := runs[r := Awaiting];
    forall q | Holds(runs', q)
      ensures q == r
    {
      assert q == r || Holds(runs, q);
    }
  }

  lemma UnwindStep(completion: bool, runs: map<nat, RunPc>, callers: map<Caller, StopPc>, r: nat)
    requires Once(completion, runs, callers) && Run(runs, r, Awaiting)
    ensures Once(completion, runs[r := Unwinding], callers[Guard(r) := Entered])
  {
    var runs' := runs[r := Unwinding];
    forall q | Holds(runs', q)
      ensures Holds(runs, q)
    {
    }
  }

  /** Progress of stop() callers does not concern the futures. */
  lemma CallerMoves(completion: bool, runs: map<nat, RunPc>, callers: map<Caller, StopPc>, c: Caller, pc: StopPc)
    requires Once(completion, runs, callers)
    requires if c.Guard? then c in callers && !callers[c].Returned? else true
    ensures Once(completion, runs, callers[c := pc])
  {
  }

  lemma DropKeepsRuns(s: State)
    requires RunsOk(s)
    ensures RunsOk(Drop(s))
  {
    CallerMoves(s.completion, s.runs, s.callers, Destructor, Entered);
  }

  lemma RunsStep(s: State, t: Step)
    requires LockOk(s) && RunsOk(s) && Enabled(s, t)
    ensures RunsOk(Apply(s, t))
  {
    match t
    case Call(c) => CallerMoves(s.completion, s.runs, s.callers, c, Entered);
    case SetFlag(c) => CallerMoves(s.completion, s.runs, s.callers, c, Flagged);
    case LockAndTake(c) => CallerMoves(s.completion, s.runs, s.callers, c, Joining(s.handle));
    case Leave(c) =>
      CallerMoves(s.completion, s.runs, s.callers, c, Returned);
      DropKeepsRuns(s.(lock := None, callers := s.callers[c := Returned]));
    case Create(r) => RunStep(s.completion, s.runs, s.callers, r, Created);
    case Poll(r) =>
      if s.completion {
        PollStep(s.runs, s.callers, r);
      } else {
        RunStep(s.completion, s.runs, s.callers, r, Rejected);
        DropKeepsRuns(s.(runs := s.runs[r := Rejected]));
      }
    case Unwind(r) => UnwindStep(s.completion, s.runs, s.callers, r);
    case Conclude(r) =>
      RunStep(s.completion, s.runs, s.callers, r, Finished);
      DropKeepsRuns(s.(runs := s.runs[r := Finished]));
    case Abandon(r) =>
      RunStep(s.completion, s.runs, s.callers, r, Discarded);
      DropKeepsRuns(s.(runs := s.runs[r := Discarded]));
    case Forget => DropKeepsRuns(s);
    case WorkerEnds =>
  }

  /** The destructor runs exactly when nobody holds the object. */
  ghost predicate RefsOk(s: State) {
    Destructor in s.callers <==> s.refs == 0
  }

  /** The flag is set by callers of stop() only. */
  ghost predicate FlagOk(s: State) {
    s.stop ==> exists c :: c in s.callers && !s.callers[c].Entered?
  }

  lemma RefsStep(s: State, t: Step)
    requires RunsOk(s) && RefsOk(s) && Enabled(s, t)
    ensures RefsOk(Apply(s, t))
  {
  }

  lemma DropKeepsCallers(s: State, c: Caller)
    requires c in s.callers
    ensures c in Drop(s).callers && Drop(s).callers[c] == s.callers[c]
  {
  }

  /** Nobody goes back to the first line of stop(). */
  lemma PastEnteredStays(s: State, t: Step, c: Caller)
    requires RunsOk(s) && Enabled(s, t) && c in s.callers && !s.callers[c].Entered?
    ensures c in Apply(s, t).callers && !Apply(s, t).callers[c].Entered?
  {
    match t
    case Leave(d) => DropKeepsCallers(s.(lock := None, callers := s.callers[d := Returned]), c);
    case Poll(r) => if !s.completion { DropKeepsCallers(s.(runs := s.runs[r := Rejected]), c); }
    case Unwind(r) => assert c != Guard(r);
    case Conclude(r) => DropKeepsCallers(s.(runs := s.runs[r := Finished]), c);
    case Abandon(r) => DropKeepsCallers(s.(runs := s.runs[r := Discarded]), c);
    case Forget => DropKeepsCallers(s, c);
    case _ =>
  }

  lemma FlagStep(s: State, t: Step)
    requires LockOk(s) && RunsOk(s) && FlagOk(s) && Enabled(s, t)
    ensures FlagOk(Apply(s, t))
  {
    if t.SetFlag? {
      assert t.c in Apply(s, t).callers && !Apply(s, t).callers[t.c].Entered?;
    } else if s.stop {
      var c :| c in s.callers && !s.callers[c].Entered?;
      PastEnteredStays(s, t, c);
    }
  }

  ghost predicate Inv(s: State) {
    LockOk(s) && RunsOk(s) && RefsOk(s) && FlagOk(s)
  }

  lemma InvStep(s: State, t: Step)
    requires Inv(s) && Enabled(s, t)
    ensures Inv(Apply(s, t))
  {
    LockStep(s, t);
    RunsStep(s, t);
    RefsStep(s, t);
    FlagStep(s, t);
  }

  lemma {:induction false} Always(s: State, ts: seq<Step>)
    requires Inv(s) && Runs(s, ts)
    ensures Inv(After(s, ts))
    decreases |ts|
  {
    if ts != [] {
      InvStep(s, ts[0]);
      Always(Apply(s, ts[0]), ts[1..]);
    }
  }

  /** Whenever any stop() has returned, and whenever a run() that held the completion is over, finished or
      dropped, the worker thread has terminated. */
  lemma StopIsABarrier(ts: seq<Step>, c: Caller, r: nat)
    requires Runs(OPENED, ts)
    ensures Pc(After(OPENED, ts).callers, c, Returned) ==> !After(OPENED, ts).alive
    ensures Run(After(OPENED, ts).runs, r, Finished) ==> !After(OPENED, ts).alive
  {
    Always(OPENED, ts);
  }

  /** At most one run() ever obtains the completion. */
  lemma RunObtainsCompletionOnce(ts: seq<Step>, q: nat, r: nat)
    requires Runs(OPENED, ts) && Holds(After(OPENED, ts).runs, q) && Holds(After(OPENED, ts).runs, r)
    ensures q == r
  {
    Always(OPENED, ts);
  }

  /** In any run a poll is rejected exactly when the completion is gone, and leaves flag, handle, lock and
      worker alone; it begins a stop() if and only if it held the last reference. */
  lemma RejectedRunDoesNotStop(ts: seq<Step>, r: nat)
    requires Runs(OPENED, ts) && Enabled(After(OPENED, ts), Poll(r))
    ensures var s, s' := After(OPENED, ts), Apply(After(OPENED, ts), Poll(r));
            && (Run(s'.runs, r, Rejected) <==> !s.completion)
            && s'.stop == s.stop && s'.handle == s.handle && s'.alive == s.alive && s'.lock == s.lock
            && (s'.callers != s.callers <==> !s.completion && s.refs == 1)
            && (s'.callers != s.callers ==> s'.callers == s.callers[Destructor := Entered])
  {
    Always(OPENED, ts);
  }

  /** However the run goes on, a rejected run() never calls stop() itself. */
  lemma RejectedRunHasNoGuard(ts: seq<Step>, r: nat)
    requires Runs(OPENED, ts) && Run(After(OPENED, ts).runs, r, Rejected)
    ensures Guard(r) !in After(OPENED, ts).callers
  {
    Always(OPENED, ts);
  }

  /** The worker is told to stop if and only if some caller of stop() has got past its first line. */
  lemma FlagTellsOfAStop(ts: seq<Step>)
    requires Runs(OPENED, ts)
    ensures var s := After(OPENED, ts);
            s.stop <==> exists c :: c in s.callers && !s.callers[c].Entered?
  {
    Always(OPENED, ts);
  }

  /** A future stops the session if and only if it held the completion and is over or being dropped. */
  lemma FutureStopsIff(ts: seq<Step>, r: nat)
    requires Runs(OPENED, ts)
    ensures Guard(r) in After(OPENED, ts).callers <==>
            Run(After(OPENED, ts).runs, r, Unwinding) || Run(After(OPENED, ts).runs, r, Finished)
  {
    Always(OPENED, ts);
  }

  // ----- What each part of the state tells -----

  ghost predicate FieldStory(past: seq<Step>, s: State) {
    && (s.alive <==> WorkerEnds !in past)
    && (s.handle <==> forall t :: t in past ==> !t.LockAndTake?)
    && (s.completion <==> forall t :: t in past ==> !t.Poll?)
    && (s.lock.Some? ==> Step.LockAndTake(s.lock.value) in past)
  }

  ghost predicate CallerStory(past: seq<Step>, callers: map<Caller, StopPc>, c: Caller) {
    && (c.External? ==> (c in callers <==> Call(c) in past))
    && (c.Guard? ==> (c in callers <==> Unwind(c.run) in past))
    && (c in callers && !callers[c].Entered? <==> SetFlag(c) in past)
    && (Pc(callers, c, Returned) <==> Leave(c) in past)
  }

  ghost predicate RunStory(past: seq<Step>, runs: map<nat, RunPc>, r: nat) {
    && (r in runs <==> Create(r) in past)
    && (Run(runs, r, Discarded) <==> Abandon(r) in past)
    && (Run(runs, r, Finished) <==> Conclude(r) in past)
    && (Run(runs, r, Rejected) || Holds(runs, r) <==> Poll(r) in past)
    && (Run(runs, r, Unwinding) || Run(runs, r, Finished) <==> Unwind(r) in past)
  }

  /** The caller that found the join handle: the first to lock the mutex. */
  function FirstTaker(past: seq<Step>): Option<Caller> {
    if past == [] then None
    else
      var before, t := FirstTaker(past[..|past| - 1]), past[|past| - 1];
      if before.None? && t.LockAndTake? then Some(t.c) else before
  }

  /** Only the first to lock the mutex joins the worker; later ones find the option empty. */
  ghost predicate TakerStory(taker: Option<Caller>, s: State) {
    && (s.handle <==> taker == None)
    && (taker.Some? ==> taker.value in s.callers && (s.callers[taker.value].Joining? || s.callers[taker.value].Returned?))
    && (forall c :: c in s.callers && s.callers[c].Joining? ==> (s.callers[c].mine <==> taker == Some(c)))
  }

  lemma TakerStoryStep(taker: Option<Caller>, s: State, t: Step)
    requires TakerStory(taker, s) && Enabled(s, t) && LockOk(s) && RunsOk(s)
    ensures TakerStory(if taker.None? && t.LockAndTake? then Some(t.c) else taker, Apply(s, t))
  {
    FieldsAfter(s, t);
    var taker' := if taker.None? && t.LockAndTake? then Some(t.c) else taker;
    var s' := Apply(s, t);
    if taker.Some? { CallerAfter(s, t, taker.value); }
    forall c | c in s'.callers && s'.callers[c].Joining?
      ensures s'.callers[c].mine <==> taker' == Some(c)
    {
      CallerAfter(s, t, c);
    }
  }

  /** How a step moves one caller; only a call, a dropped guard and the last reference enter stop(). */
  lemma CallerAfter(s: State, t: Step, c: Caller)
    requires Enabled(s, t) && LockOk(s) && RunsOk(s)
    ensures c in s.callers ==> c in Apply(s, t).callers
    ensures c in s.callers ==>
              Apply(s, t).callers[c] == if t == SetFlag(c) then Flagged else if t == Step.LockAndTake(c) then Joining(s.handle)
                                        else if t == Leave(c) then Returned else s.callers[c]
    ensures c !in s.callers && c in Apply(s, t).callers ==> Apply(s, t).callers[c] == Entered
    ensures c !in s.callers && !c.Destructor? ==> (c in Apply(s, t).callers <==> t == (if c.External? then Call(c) else Unwind(c.run)))
  {
    match t
    case Leave(d) => DropKeepsOrEnters(s.(lock := None, callers := s.callers[d := Returned]), c);
    case Poll(r) => DropKeepsOrEnters(s.(runs := s.runs[r := Rejected]), c);
    case Unwind(r) => assert Guard(r) !in s.callers;
    case Conclude(r) => DropKeepsOrEnters(s.(runs := s.runs[r := Finished]), c);
    case Abandon(r) => DropKeepsOrEnters(s.(runs := s.runs[r := Discarded]), c);
    case Forget => DropKeepsOrEnters(s, c);
    case _ =>
  }

  ghost predicate Story(past: seq<Step>, s: State) {
    && FieldStory(past, s)
    && TakerStory(FirstTaker(past), s)
    && (forall c :: CallerStory(past, s.callers, c))
    && (forall r :: RunStory(past, s.runs, r))
  }

  lemma FieldsAfter(s: State, t: Step)
    requires Enabled(s, t)
    ensures var s' := Apply(s, t);
            && (s'.alive <==> s.alive && t != WorkerEnds)
            && (s'.handle <==> s.handle && !t.LockAndTake?)
            && (s'.completion <==> s.completion && !t.Poll?)
            && s'.lock == if t.LockAndTake? then Some(t.c) else if t.Leave? then None else s.lock
  {
  }

  lemma FieldStoryStep(past: seq<Step>, s: State, t: Step)
    requires FieldStory(past, s) && Enabled(s, t)
    ensures FieldStory(past + [t], Apply(s, t))
  {
    FieldsAfter(s, t);
    assert t in past + [t] && forall u :: u in past ==> u in past + [t];
  }

  lemma DropKeepsOrEnters(s: State, c: Caller)
    ensures c in s.callers ==> c in Drop(s).callers && Drop(s).callers[c] == s.callers[c]
    ensures c !in s.callers && c in Drop(s).callers ==> c == Destructor && Drop(s).callers[c] == Entered
  {
  }

  lemma EntersOnce(s: State, t: Step, c: Caller)
    requires Enabled(s, t) && RunsOk(s) && c in s.callers
    ensures t != Call(c) && (c.Guard? ==> t != Unwind(c.run))
  {
  }

  lemma CallerStoryStep(past: seq<Step>, s: State, t: Step, c: Caller)
    requires CallerStory(past, s.callers, c) && Enabled(s, t) && RunsOk(s) && LockOk(s)
    ensures CallerStory(past + [t], Apply(s, t).callers, c)
  {
    CallerAfter(s, t, c);
    if c in s.callers { EntersOnce(s, t, c); }
  }

  lemma RunsAfter(s: State, t: Step)
    ensures Apply(s, t).runs ==
            match t
            case Create(r) => s.runs[r := Created]
            case Poll(r) => s.runs[r := if s.completion then Awaiting else Rejected]
            case Unwind(r) => s.runs[r := Unwinding]
            case Conclude(r) => s.runs[r := Finished]
            case Abandon(r) => s.runs[r := Discarded]
            case _ => s.runs
  {
  }

  /** Steps of callers, of the worker and of other futures leave a future alone. */
  lemma OtherStepsKeepRun(s: State, t: Step, r: nat)
    requires Enabled(s, t)
    requires t != Create(r) && t != Poll(r) && t != Unwind(r) && t != Conclude(r) && t != Abandon(r)
    ensures r in Apply(s, t).runs <==> r in s.runs
    ensures r in s.runs ==> Apply(s, t).runs[r] == s.runs[r]
  {
    RunsAfter(s, t);
  }

  lemma RunAfter(s: State, t: Step, r: nat)
    requires Enabled(s, t) && (t == Create(r) || t == Poll(r) || t == Unwind(r) || t == Conclude(r) || t == Abandon(r))
    ensures t.Create? <==> r !in s.runs
    ensures r in Apply(s, t).runs
    ensures r in s.runs ==> s.runs[r] == if t.Conclude? then Unwinding else if t.Unwind? then Awaiting else Created
    ensures Apply(s, t).runs[r] ==
            match t
            case Create(_) => Created
            case Poll(_) => if s.completion then Awaiting else Rejected
            case Unwind(_) => Unwinding
            case Conclude(_) => Finished
            case _ => Discarded
  {
  }

  lemma RunStoryStep(past: seq<Step>, s: State, t: Step, r: nat)
    requires RunStory(past, s.runs, r) && Enabled(s, t)
    ensures RunStory(past + [t], Apply(s, t).runs, r)
  {
    if t == Create(r) || t == Poll(r) || t == Unwind(r) || t == Conclude(r) || t == Abandon(r) {
      RunAfter(s, t, r);
    } else {
      OtherStepsKeepRun(s, t, r);
    }
  }

  lemma {:induction false} StoryAlways(past: seq<Step>, s: State, ts: seq<Step>)
    requires Story(past, s) && Inv(s) && Runs(s, ts)
    ensures Story(past + ts, After(s, ts))
    decreases |ts|
  {
    if ts == [] {
      assert past + ts == past;
    } else {
      var t, s' := ts[0], Apply(s, ts[0]);
      InvStep(s, t);
      FieldStoryStep(past, s, t);
      TakerStoryStep(FirstTaker(past), s, t);
      assert (past + [t])[..|past|] == past;
      forall c
        ensures CallerStory(past + [t], s'.callers, c)
      {
        CallerStoryStep(past, s, t, c);
      }
      forall r
        ensures RunStory(past + [t], s'.runs, r)
      {
        RunStoryStep(past, s, t, r);
      }
      StoryAlways(past + [t], s', ts[1..]);
      assert past + [t] + ts[1..] == past + ts;
    }
  }

  /** The worker lives until it ends, the join handle is there until somebody takes it, the completion until
      somebody polls; a caller is in stop() from its call, or its future's drop, to its return; and a future
      is what its own steps made of it. */
  lemma SessionTellsItsStory(ts: seq<Step>, c: Caller, r: nat)
    requires Runs(OPENED, ts)
    ensures var s := After(OPENED, ts);
            FieldStory(ts, s) && TakerStory(FirstTaker(ts), s) && CallerStory(ts, s.callers, c) && RunStory(ts, s.runs, r)
  {
    StoryAlways([], OPENED, ts);
    assert [] + ts == ts;
  }

  // ----- References -----

  /** A future that is over owns no reference any more. */
  predicate Over(pc: RunPc) {
    pc.Finished? || pc.Rejected? || pc.Discarded?
  }

  function OverFutures(runs: map<nat, RunPc>): set<nat> {
    set r | r in runs && Over(runs[r])
  }

  /** References taken, by new futures and by callers of stop(), and given back by holders and such callers. */
  function Takes(t: Step): nat {
    if t.Create? || t.Call? then 1 else 0
  }

  function Gives(t: Step): nat {
    if t.Forget? || (t.Leave? && t.c.External?) then 1 else 0
  }

  function Taken(ts: seq<Step>): nat {
    if ts == [] then 0 else Takes(ts[0]) + Taken(ts[1..])
  }

  function Given(ts: seq<Step>): nat {
    if ts == [] then 0 else Gives(ts[0]) + Given(ts[1..])
  }

  ghost predicate Counted(s: State, taken: nat, given: nat) {
    s.refs > 0 ==> 1 + taken == s.refs + given + |OverFutures(s.runs)|
  }

  lemma OverUpdate(runs: map<nat, RunPc>, r: nat, pc: RunPc)
    requires r !in runs || !Over(runs[r])
    ensures |OverFutures(runs[r := pc])| == |OverFutures(runs)| + if Over(pc) then 1 else 0
  {
    assert OverFutures(runs[r := pc]) == OverFutures(runs) + if Over(pc) then {r} else {};
  }

  /** Dropping a reference is the same as giving it back. */
  lemma DropCounts(s: State, taken: nat, given: nat)
    requires s.refs > 0 ==> 1 + taken == s.refs - 1 + given + |OverFutures(s.runs)|
    ensures Counted(Drop(s), taken, given)
  {
    assert Drop(s).runs == s.runs;
  }

  lemma FutureCounts(s: State, t: Step, taken: nat, given: nat)
    requires Counted(s, taken, given) && Enabled(s, t)
    requires t.Create? || t.Poll? || t.Unwind? || t.Conclude? || t.Abandon?
    ensures Counted(Apply(s, t), taken + Takes(t), given)
  {
    match t
    case Create(r) => OverUpdate(s.runs, r, Created);
    case Poll(r) =>
      OverUpdate(s.runs, r, if s.completion then Awaiting else Rejected);
      if !s.completion { DropCounts(s.(runs := s.runs[r := Rejected]), taken, given); }
    case Unwind(r) => OverUpdate(s.runs, r, Unwinding);
    case Conclude(r) =>
      OverUpdate(s.runs, r, Finished);
      DropCounts(s.(runs := s.runs[r := Finished]), taken, given);
    case Abandon(r) =>
      OverUpdate(s.runs, r, Discarded);
      DropCounts(s.(runs := s.runs[r := Discarded]), taken, given);
  }

  lemma CountStep(s: State, t: Step, taken: nat, given: nat)
    requires Counted(s, taken, given) && Enabled(s, t)
    ensures Counted(Apply(s, t), taken + Takes(t), given + Gives(t))
  {
    if t.Create? || t.Poll? || t.Unwind? || t.Conclude? || t.Abandon? {
      FutureCounts(s, t, taken, given);
    } else {
      assert Apply(s, t).runs == s.runs;
    }
  }

  lemma {:induction false} CountAlways(s: State, ts: seq<Step>, taken: nat, given: nat)
    requires Counted(s, taken, given) && Runs(s, ts)
    ensures Counted(After(s, ts), taken + Taken(ts), given + Given(ts))
    decreases |ts|
  {
    if ts != [] {
      CountStep(s, ts[0], taken, given);
      CountAlways(Apply(s, ts[0]), ts[1..], taken + Takes(ts[0]), given + Gives(ts[0]));
    }
  }

  /** References are counted exactly: while any is left, those taken are those left, those given back, and
      those of futures that are over; and the destructor has begun its stop() if and only if none is left. */
  lemma ReferencesAreCounted(ts: seq<Step>)
    requires Runs(OPENED, ts)
    ensures var s := After(OPENED, ts);
            && (s.refs == 0 <==> Destructor in s.callers)
            && (s.refs > 0 ==> 1 + Taken(ts) == s.refs + Given(ts) + |OverFutures(s.runs)|)
  {
    assert OverFutures(OPENED.runs) == {};
    Always(OPENED, ts);
    CountAlways(OPENED, ts, 0, 0);
  }

  /** So once every reference taken has been given back, the destructor has entered stop(). */
  lemma LastReferenceStops(ts: seq<Step>)
    requires Runs(OPENED, ts) && 1 + Taken(ts) <= Given(ts) + |OverFutures(After(OPENED, ts).runs)|
    ensures Destructor in After(OPENED, ts).callers
  {
    ReferencesAreCounted(ts);
  }

  /** Nobody can be stuck: while a stop() is in progress, some step of a stop() or of the worker can be taken. */
  lemma StopNeverDeadlocks(ts: seq<Step>, c: Caller)
    requires Runs(OPENED, ts)
    requires c in After(OPENED, ts).callers && After(OPENED, ts).callers[c] != Returned
    ensures var s := After(OPENED, ts);
            || (exists d :: Enabled(s, SetFlag(d)) || Enabled(s, LockAndTake(d)) || Enabled(s, Leave(d)))
            || (Enabled(s, WorkerEnds) && s.stop)
  {
    Always(OPENED, ts);
    var s := After(OPENED, ts);
    if s.lock.Some? {
      var d := s.lock.value;
      if !Enabled(s, Leave(d)) { assert Pc(s.callers, d, Joining(true)) && s.alive; }
    } else if s.callers[c] == Entered {
      assert Enabled(s, SetFlag(c));
    } else {
      assert Enabled(s, LockAndTake(c));
    }
  }

  lemma {:induction false} RunsConcat(s: State, p: seq<Step>, q: seq<Step>)
    ensures Runs(s, p + q) <==> Runs(s, p) && Runs(After(s, p), q)
    ensures After(s, p + q) == After(After(s, p), q)
    decreases |p|
  {
    if p == [] {
      assert p + q == q;
    } else {
      RunsConcat(Apply(s, p[0]), p[1..], q);
      assert (p + q)[1..] == p[1..] + q;
    }
  }

  lemma Split(s: State, t: Step, ts: seq<Step>)
    requires Runs(s, [t] + ts)
    ensures Enabled(s, t) && Runs(Apply(s, t), ts) && After(s, [t] + ts) == After(Apply(s, t), ts)
  {
    assert ([t] + ts)[1..] == ts;
  }

  /** All of stop(), with what other threads do before it gets the lock and while it joins. */
  function StopSteps(c: Caller, before: seq<Step>, during: seq<Step>): seq<Step> {
    [SetFlag(c)] + (before + ([Step.LockAndTake(c)] + (during + [Leave(c)])))
  }

  /** All of run(); a rejected one ends at its poll. */
  function RunSteps(r: nat, obtained: bool, waiting: seq<Step>, before: seq<Step>, during: seq<Step>): seq<Step> {
    [Poll(r)] + if obtained then waiting + ([Unwind(r)] + (StopSteps(Guard(r), before, during) + [Conclude(r)])) else []
  }

  function AfterStep(s: State, ts: seq<Step>, t: Step): State {
    Apply(After(s, ts), t)
  }

  /** What stop() leaves behind. */
  ghost predicate Stopped(s: State, c: Caller) {
    Inv(s) && !s.alive && !s.handle && s.stop && Pc(s.callers, c, Returned)
  }

  lemma StopInPieces(s: State, c: Caller, before: seq<Step>, during: seq<Step>)
    requires Inv(s) && Runs(s, StopSteps(c, before, during))
    ensures Enabled(s, SetFlag(c)) && Runs(Apply(s, SetFlag(c)), before)
    ensures var s1 := After(Apply(s, SetFlag(c)), before);
            Enabled(s1, Step.LockAndTake(c)) && Runs(Apply(s1, Step.LockAndTake(c)), during)
    ensures var s2 := AfterStep(Apply(s, SetFlag(c)), before, Step.LockAndTake(c));
            Enabled(After(s2, during), Leave(c)) && AfterStep(s2, during, Leave(c)) == After(s, StopSteps(c, before, during))
    ensures Stopped(After(s, StopSteps(c, before, during)), c)
  {
    Split(s, SetFlag(c), before + ([Step.LockAndTake(c)] + (during + [Leave(c)])));
    RunsConcat(Apply(s, SetFlag(c)), before, [Step.LockAndTake(c)] + (during + [Leave(c)]));
    var s1 := After(Apply(s, SetFlag(c)), before);
    Split(s1, Step.LockAndTake(c), during + [Leave(c)]);
    var s2 := Apply(s1, Step.LockAndTake(c));
    RunsConcat(s2, during, [Leave(c)]);
    Split(After(s2, during), Leave(c), []);
    Always(s, StopSteps(c, before, during));
    LeaveReturns(After(s2, during), c);
  }

  lemma LeaveReturns(s: State, c: Caller)
    requires Enabled(s, Leave(c)) && Inv(Apply(s, Leave(c)))
    ensures Stopped(Apply(s, Leave(c)), c)
  {
    assert Pc(Apply(s, Leave(c)).callers, c, Returned);
  }

  /** What a run() that held the completion leaves behind. */
  ghost predicate Served(s: State, r: nat) {
    !s.alive && !s.completion && s.stop && Run(s.runs, r, Finished)
  }

  lemma ConcludeServes(s: State, r: nat)
    requires Inv(s) && Enabled(s, Conclude(r))
    ensures Served(Apply(s, Conclude(r)), r)
  {
    assert Holds(s.runs, r);
  }

  lemma RunInPieces(s: State, r: nat, waiting: seq<Step>, before: seq<Step>, during: seq<Step>)
    requires Inv(s) && Runs(s, RunSteps(r, s.completion, waiting, before, during))
    ensures Enabled(s, Poll(r)) && Inv(After(s, RunSteps(r, s.completion, waiting, before, during)))
    ensures !s.completion ==> After(s, RunSteps(r, false, waiting, before, during)) == Apply(s, Poll(r))
    ensures var s1 := Apply(s, Poll(r));
            s.completion ==>
              && Runs(s1, waiting) && Enabled(After(s1, waiting), Unwind(r))
              && var s2 := AfterStep(s1, waiting, Unwind(r));
                 && Inv(s2) && Runs(s2, StopSteps(Guard(r), before, during))
                 && Enabled(After(s2, StopSteps(Guard(r), before, during)), Conclude(r))
                 && AfterStep(s2, StopSteps(Guard(r), before, during), Conclude(r)) ==
                    After(s, RunSteps(r, true, waiting, before, during))
    ensures s.completion ==> Served(After(s, RunSteps(r, true, waiting, before, during)), r)
  {
    var stopping := StopSteps(Guard(r), before, during);
    var rest := if s.completion then waiting + ([Unwind(r)] + (stopping + [Conclude(r)])) else [];
    Always(s, [Poll(r)] + rest);
    Split(s, Poll(r), rest);
    var s1 := Apply(s, Poll(r));
    if s.completion {
      RunsConcat(s1, waiting, [Unwind(r)] + (stopping + [Conclude(r)]));
      Split(After(s1, waiting), Unwind(r), stopping + [Conclude(r)]);
      var s2 := AfterStep(s1, waiting, Unwind(r));
      RunsConcat(s2, stopping, [Conclude(r)]);
      Split(After(s2, stopping), Conclude(r), []);
      UnwindingIsSound(s, r, waiting);
      Always(s2, stopping);
      ConcludeServes(After(s2, stopping), r);
    }
  }

  lemma UnwindingIsSound(s: State, r: nat, waiting: seq<Step>)
    requires Inv(s) && Enabled(s, Poll(r)) && Runs(Apply(s, Poll(r)), waiting)
    requires Enabled(After(Apply(s, Poll(r)), waiting), Unwind(r))
    ensures Inv(AfterStep(Apply(s, Poll(r)), waiting, Unwind(r)))
  {
    Always(s, [Poll(r)]);
    assert [Poll(r)][1..] == [];
    Always(Apply(s, Poll(r)), waiting);
    var s1 := After(Apply(s, Poll(r)), waiting);
    InvStep(s1, Unwind(r));
  }

  // ----- The object -----

  /** The session object's own fields; each method is one atomic section of stop() or run(). */
  class NativeServer {
    var stop: bool
    var worker: Option<()>           // the join handle, behind the mutex
    var lock: Option<Caller>
    var completion: Option<()>       // the receiver, behind its own mutex
    ghost var alive: bool
    ghost var refs: nat
    ghost var callers: map<Caller, StopPc>
    ghost var runs: map<nat, RunPc>

    ghost function Abs(): State
      reads this
    {
      State(stop, worker.Some?, lock, completion.Some?, alive, refs, callers, runs)
    }

    constructor ()
      ensures Abs() == OPENED
    {
      stop, worker, lock, completion := false, Some(()), None, Some(());
      alive, refs, callers, runs := true, 1, map[], map[];
    }

    method StoreFlag(c: Caller)
      requires Enabled(Abs(), SetFlag(c))
      modifies this
      ensures Abs() == Apply(old(Abs()), SetFlag(c))
    {
      stop := true;
      callers := callers[c := Flagged];
    }

    /** Lock the mutex and empty the option; the lock is kept across the join that follows. */
    method TakeWorker(c: Caller) returns (mine: Option<()>)
      requires Enabled(Abs(), Step.LockAndTake(c))
      modifies this
      ensures Abs() == Apply(old(Abs()), Step.LockAndTake(c))
      ensures mine == old(worker) && worker == None
    {
      mine := worker;
      lock := Some(c);
      worker := None;
      callers := callers[c := Joining(mine.Some?)];
    }

    method TakeCompletion(r: nat) returns (obtained: bool)
      requires Enabled(Abs(), Poll(r))
      modifies this
      ensures Abs() == Apply(old(Abs()), Poll(r))
      ensures obtained <==> Run(runs, r, Awaiting)
    {
      obtained := completion.Some?;
      completion := None;
      runs := runs[r := if obtained then Awaiting else Rejected];
      if !obtained { Release(); }
    }

    /** One step of any thread. */
    method Perform(t: Step)
      requires Enabled(Abs(), t)
      modifies this
      ensures Abs() == Apply(old(Abs()), t)
    {
      match t {
        case Call(c) => callers, refs := callers[c := Entered], refs + 1;
        case SetFlag(c) => StoreFlag(c);
        case LockAndTake(c) => var mine := TakeWorker(c);
        case Leave(c) =>
          lock, callers := None, callers[c := Returned];
          if c.External? { Release(); }
        case WorkerEnds => alive := false;
        case Create(r) => runs, refs := runs[r := Created], refs + 1;
        case Poll(r) => var obtained := TakeCompletion(r);
        case Unwind(r) => runs, callers := runs[r := Unwinding], callers[Guard(r) := Entered];
        case Conclude(r) =>
          runs := runs[r := Finished];
          Release();
        case Abandon(r) =>
          runs := runs[r := Discarded];
          Release();
        case Forget => Release();
      }
    }

    /** What other threads do between two atomic sections. */
    method Others(ts: seq<Step>)
      requires Runs(Abs(), ts)
      modifies this
      ensures Abs() == After(old(Abs()), ts)
    {
      var i := 0;
      while i < |ts|
        invariant 0 <= i <= |ts|
        invariant Runs(Abs(), ts[i..]) && After(Abs(), ts[i..]) == After(old(Abs()), ts)
      {
        assert ts[i..][0] == ts[i] && ts[i..][1..] == ts[i + 1..];
        Perform(ts[i]);
        i := i + 1;
      }
    }

    /** stop() from its first line to its return, whatever the others do meanwhile: the worker is over. */
    method Stop(c: Caller, before: seq<Step>, during: seq<Step>)
      requires Inv(Abs()) && Runs(Abs(), StopSteps(c, before, during))
      modifies this
      ensures Abs() == After(old(Abs()), StopSteps(c, before, during))
      ensures Stopped(Abs(), c)
    {
      ghost var s := Abs();
      StopInPieces(s, c, before, during);
      StoreFlag(c);
      Others(before);
      var mine := TakeWorker(c);
      Others(during);
      Perform(Leave(c));
    }

    /** run() to its end: it holds the completion or is rejected, and if it held it the worker is over. */
    method RunFuture(r: nat, waiting: seq<Step>, before: seq<Step>, during: seq<Step>) returns (obtained: bool)
      requires Inv(Abs()) && Runs(Abs(), RunSteps(r, completion.Some?, waiting, before, during))
      modifies this
      ensures obtained <==> old(completion).Some?
      ensures Abs() == After(old(Abs()), RunSteps(r, obtained, waiting, before, during))
      ensures Inv(Abs()) && if obtained then Served(Abs(), r) else Run(runs, r, Rejected) && stop == old(stop)
    {
      ghost var s := Abs();
      RunInPieces(s, r, waiting, before, during);
      obtained := TakeCompletion(r);
      if obtained { Await(r, waiting, before, during); }
    }

    /** The rest of a run() that holds the completion: it waits, its guard drops, and it ends. */
    method Await(r: nat, waiting: seq<Step>, before: seq<Step>, during: seq<Step>)
      requires Runs(Abs(), waiting) && Enabled(After(Abs(), waiting), Unwind(r))
      requires var s := AfterStep(Abs(), waiting, Unwind(r));
               && Inv(s) && Runs(s, StopSteps(Guard(r), before, during))
               && Enabled(After(s, StopSteps(Guard(r), before, during)), Conclude(r))
      modifies this
      ensures var s := AfterStep(old(Abs()), waiting, Unwind(r));
              Abs() == AfterStep(s, StopSteps(Guard(r), before, during), Conclude(r))
    {
      Others(waiting);
      Perform(Unwind(r));
      Stop(Guard(r), before, during);
      Perform(Conclude(r));
    }

    method Release()
      modifies this`refs, this`callers
      ensures Abs() == Drop(old(Abs()))
    {
      if refs == 1 && Destructor !in callers {
        refs, callers := 0, callers[Destructor := Entered];
      } else if refs > 0 {
        refs := refs - 1;
      }
    }
  }
}
