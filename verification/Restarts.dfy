/** Startup confirmation, and connection ids across restarts of the runtime in one process. */
module Restarts {
  import opened Gatt
  import opened Bridge
  import opened Server
  import opened Machine
  import opened Delivery
  import opened Stream
  import opened Theorems

  // ----- Startup, and how a session ends -----

  const CONFIRMED := Completion(0x200a, 0)

  predicate Fails(l: Label) {
    l.Completion? && l.status != 0
  }

  /** Posted results tell of completions that happened. */
  ghost predicate PostedOk(past: seq<Label>, es: seq<Event>) {
    && (forall e :: e in es && e.Advertising? ==> Completion(0x200a, e.status) in past)
    && (forall e :: e in es && e.CommandFailed? ==> e.status != 0 && Completion(e.opcode, e.status) in past)
  }

  /** Until the session ends, what happened is known to the runtime or posted to it. */
  ghost predicate KnownOk(past: seq<Label>, started: bool, es: seq<Event>) {
    && (CONFIRMED in past ==> started || Advertising(0) in es)
    && (forall l :: l in past && Fails(l) ==> CommandFailed(l.opcode, l.status) in es)
    && Machine.Label.Stop !in past
  }

  ghost predicate StartOk(past: seq<Label>, s: System) {
    && s.bridge.advertisingRequested
    && (s.started ==> CONFIRMED in past)
    && PostedOk(past, s.bridge.events)
    && (if s.phase.Stopping? then exists l :: l in past && (l.Stop? || Fails(l)) else KnownOk(past, s.started, s.bridge.events))
  }

  lemma EventKeepsStart(past: seq<Label>, s: System, l: Label)
    requires StartOk(past, s) && s.phase.Draining? && s.bridge.events != [] && l.Process? && l.event == s.bridge.events[0]
    ensures StartOk(past + [l], AfterEvent(s, s.bridge.events[0], l.status))
  {
    var e := s.bridge.events[0];
    var s' := AfterEvent(s, e, l.status);
    if e.CanSend? { FlushShape(s.(bridge := s.bridge.(events := s.bridge.events[1..])), e.handle, l.status); }
    assert s.bridge.events == [e] + s'.bridge.events;
    if e.CommandFailed? { assert Fails(Completion(e.opcode, e.status)); }
    if e.Advertising? && e.status != 0 { assert Fails(Completion(0x200a, e.status)); }
  }

  lemma CompletionKeepsStart(past: seq<Label>, s: System, opcode: u16, status: byte)
    requires StartOk(past, s)
    ensures StartOk(past + [Completion(opcode, status)], Posted(s, CommandComplete(s.bridge, opcode, status), s.links, false))
  {
    var l := Completion(opcode, status);
    var es := CommandComplete(s.bridge, opcode, status).events;
    assert s.bridge.events <= es;
    if s.phase.Stopping? {
      var k :| k in past && (k.Stop? || Fails(k));
      assert k in past + [l];
    }
  }

  lemma OtherStepsPostNoResult(db: seq<Attribute>, hyp: Hypotheses, s: System, l: Label)
    requires Enabled(hyp, s, l) && !l.Process? && !l.Completion?
    ensures var s' := Apply(db, s, l);
            && s.bridge.events <= s'.bridge.events
            && (forall e :: e in s'.bridge.events[|s.bridge.events|..] ==> !e.Advertising? && !e.CommandFailed?)
            && s'.started == s.started && s'.bridge.advertisingRequested == s.bridge.advertisingRequested
            && (s'.phase.Stopping? <==> s.phase.Stopping? || l.Stop?)
  {
  }

  lemma OtherStepsKeepStart(db: seq<Attribute>, hyp: Hypotheses, past: seq<Label>, s: System, l: Label)
    requires StartOk(past, s) && Enabled(hyp, s, l) && !l.Process? && !l.Completion?
    ensures StartOk(past + [l], Apply(db, s, l))
  {
    OtherStepsPostNoResult(db, hyp, s, l);
    var es, es' := s.bridge.events, Apply(db, s, l).bridge.events;
    assert es' == es + es'[|es|..];
    if s.phase.Stopping? {
      var k :| k in past && (k.Stop? || Fails(k));
      assert k in past + [l];
    } else if l.Stop? {
      assert l in past + [l];
    }
  }

  lemma StartStep(db: seq<Attribute>, hyp: Hypotheses, past: seq<Label>, s: System, l: Label)
    requires StartOk(past, s) && Enabled(hyp, s, l)
    ensures StartOk(past + [l], Apply(db, s, l))
  {
    match l
    case Process(e, status) => EventKeepsStart(past, s, l);
    case Completion(opcode, status) => CompletionKeepsStart(past, s, opcode, status);
    case _ => OtherStepsKeepStart(db, hyp, past, s, l);
  }

  lemma {:induction false} StartAlways(db: seq<Attribute>, hyp: Hypotheses, past: seq<Label>, s: System, ls: seq<Label>)
    requires StartOk(past, s) && BoundaryOk(hyp.oneChange, s.phase, s.bridge.events) && Runs(db, hyp, s, ls)
    ensures StartOk(past + ls, After(db, s, ls))
    ensures BoundaryOk(hyp.oneChange, After(db, s, ls).phase, After(db, s, ls).bridge.events)
    decreases |ls|
  {
    if ls == [] {
      assert past + ls == past;
    } else {
      StartStep(db, hyp, past, s, ls[0]);
      BoundaryStep(db, hyp, s, ls[0]);
      StartAlways(db, hyp, past + [ls[0]], Apply(db, s, ls[0]), ls[1..]);
      assert past + [ls[0]] + ls[1..] == past + ls;
    }
  }

  lemma StartReached(db: seq<Attribute>, hyp: Hypotheses, first: nat, ls: seq<Label>)
    requires Runs(db, hyp, Initial(first), ls)
    ensures StartOk(ls, After(db, Initial(first), ls))
    ensures BoundaryOk(hyp.oneChange, After(db, Initial(first), ls).phase, After(db, Initial(first), ls).bridge.events)
  {
    StartAlways(db, hyp, [], Initial(first), ls);
    assert [] + ls == ls;
  }

  /** No posted event is unhandled, or none will be handled any more. */
  ghost predicate Settled(s: System) {
    s.phase.Commands? || (s.phase.Draining? && s.bridge.events == []) || s.phase.Stopping?
  }

  /** The ready message is sent only after the controller completed LE Set Advertising Enable with status 0,
      and in a session that goes on it has been sent if and only if that happened. */
  lemma ReadyMeansAdvertising(db: seq<Attribute>, hyp: Hypotheses, first: nat, ls: seq<Label>)
    requires Runs(db, hyp, Initial(first), ls)
    ensures var s := After(db, Initial(first), ls);
            && (s.started ==> CONFIRMED in ls)
            && (Settled(s) && !s.phase.Stopping? ==> (s.started <==> CONFIRMED in ls))
  {
    StartReached(db, hyp, first, ls);
  }

  /** Once the posted events are handled, the session is over if and only if it was told to stop or some
      command completed with a failure; so none that goes on has had a failed command. */
  lemma FailureEndsTheSession(db: seq<Attribute>, hyp: Hypotheses, first: nat, ls: seq<Label>)
    requires Runs(db, hyp, Initial(first), ls) && Settled(After(db, Initial(first), ls))
    ensures After(db, Initial(first), ls).phase.Stopping? <==> exists l :: l in ls && (l.Stop? || Fails(l))
  {
    StartReached(db, hyp, first, ls);
  }

  // ----- Ids across sessions -----

  /** One session: the services it registered, what is assumed of BTstack meanwhile, and its run. */
  datatype Past = Past(db: seq<Attribute>, hyp: Hypotheses, labels: seq<Label>)

  function Final(first: nat, past: Past): System {
    After(past.db, Initial(first), past.labels)
  }

  /** Sessions that follow one another in a process share the connection counter and nothing else. */
  ghost predicate Sessions(first: nat, pasts: seq<Past>)
    decreases |pasts|
  {
    pasts == [] || (Session(pasts[0].db, pasts[0].hyp, first, pasts[0].labels)
                    && Sessions(Final(first, pasts[0]).next, pasts[1..]))
  }

  function FinalCounter(first: nat, pasts: seq<Past>): nat
    decreases |pasts|
  {
    if pasts == [] then first else FinalCounter(Final(first, pasts[0]).next, pasts[1..])
  }

  function AllIds(first: nat, pasts: seq<Past>): seq<nat>
    decreases |pasts|
  {
    if pasts == [] then []
    else ConnectedIds(Final(first, pasts[0]).emitted) + AllIds(Final(first, pasts[0]).next, pasts[1..])
  }

  lemma RangeConcat(a: nat, b: nat, c: nat)
    requires a <= b <= c
    ensures Range(a, b) + Range(b, c) == Range(a, c)
  {
  }

  lemma {:induction false} IdsAreConsecutive(first: nat, pasts: seq<Past>)
    requires Sessions(first, pasts)
    ensures first <= FinalCounter(first, pasts)
    ensures AllIds(first, pasts) == Range(first, FinalCounter(first, pasts))
    decreases |pasts|
  {
    if pasts != [] {
      var next := Final(first, pasts[0]).next;
      EventProtocol(pasts[0].db, pasts[0].hyp, first, pasts[0].labels, first);
      IdsAreConsecutive(next, pasts[1..]);
      RangeConcat(first, next, FinalCounter(next, pasts[1..]));
    }
  }

  /** The ids of all Connected events of a process, over all its sessions, strictly increase. */
  lemma IdsNeverRepeat(first: nat, pasts: seq<Past>)
    requires Sessions(first, pasts)
    ensures var ids := AllIds(first, pasts);
            forall i, j :: 0 <= i < j < |ids| ==> ids[i] < ids[j]
  {
    IdsAreConsecutive(first, pasts);
  }
}
