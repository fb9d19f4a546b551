/** Every accepted value is accounted for, per connection and in order; and draining the events ends. */
module Ledger {
  import opened Gatt
  import opened Bridge
  import opened Server
  import opened Machine
  import opened Links
  import opened Tables

  /** The entries of one connection, told apart by generation. */
  function OfGen(ps: seq<Pending>, g: nat): seq<Pending> {
    if ps == [] then []
    else (if ps[0].connection.generation == g then [ps[0]] else []) + OfGen(ps[1..], g)
  }

  lemma Assoc(a: seq<Pending>, b: seq<Pending>, c: seq<Pending>)
    ensures a + b + c == a + (b + c)
  {
  }

  lemma {:induction false} OfGenConcat(a: seq<Pending>, b: seq<Pending>, g: nat)
    ensures OfGen(a + b, g) == OfGen(a, g) + OfGen(b, g)
  {
    if a == [] {
      assert a + b == b;
    } else {
      var head := if a[0].connection.generation == g then [a[0]] else [];
      calc {
        OfGen(a + b, g);
        { assert (a + b)[1..] == a[1..] + b; }
        head + OfGen(a[1..] + b, g);
        { OfGenConcat(a[1..], b, g); }
        head + (OfGen(a[1..], g) + OfGen(b, g));
        { Assoc(head, OfGen(a[1..], g), OfGen(b, g)); }
        OfGen(a, g) + OfGen(b, g);
      }
    }
  }

  lemma {:induction false} OfGenMembers(ps: seq<Pending>, g: nat)
    ensures forall p :: p in OfGen(ps, g) <==> p in ps && p.connection.generation == g
  {
    if ps != [] {
      OfGenMembers(ps[1..], g);
      assert ps == [ps[0]] + ps[1..];
    }
  }

  lemma OfGenNone(ps: seq<Pending>, g: nat)
    requires forall p :: p in ps ==> p.connection.generation != g
    ensures OfGen(ps, g) == []
  {
    OfGenMembers(ps, g);
    if OfGen(ps, g) != [] { assert OfGen(ps, g)[0] in OfGen(ps, g); }
  }

  lemma OfGenOne(p: Pending, g: nat)
    ensures OfGen([p], g) == if p.connection.generation == g then [p] else []
  {
    assert [p][1..] == [];
  }

  /** Taking out entry `i` takes it off the front of its generation's entries, if it is their first. */
  lemma OfGenRemove(ps: seq<Pending>, i: nat, g: nat)
    requires i < |ps| && forall j :: 0 <= j < i ==> ps[j].connection.generation != ps[i].connection.generation
    ensures OfGen(ps, g) == (if ps[i].connection.generation == g then [ps[i]] else []) + OfGen(RemoveAt(ps, i), g)
  {
    var a, b := ps[..i], ps[i + 1..];
    assert ps == a + [ps[i]] + b;
    OfGenConcat(a + [ps[i]], b, g);
    OfGenConcat(a, [ps[i]], g);
    OfGenConcat(a, b, g);
    OfGenOne(ps[i], g);
    if ps[i].connection.generation == g { OfGenNone(a, g); }
  }

  /** A disconnect keeps every other generation's entries, in order... */
  lemma {:induction false} OfGenWithout(ps: seq<Pending>, h: u16, g: nat)
    requires forall p :: p in ps && p.connection.generation == g ==> p.connection.handle != h
    ensures OfGen(Without(ps, h), g) == OfGen(ps, g)
  {
    if ps != [] {
      OfGenWithout(ps[1..], h, g);
      if ps[0].connection.handle == h {
        assert Without(ps, h) == Without(ps[1..], h);
      }
    }
  }

  /** ...and removes all of its own. */
  lemma {:induction false} OfGenFor(ps: seq<Pending>, h: u16, g: nat)
    requires forall p :: p in ps && p.connection.generation == g ==> p.connection.handle == h
    ensures OfGen(For(ps, h), g) == OfGen(ps, g)
  {
    if ps != [] {
      OfGenFor(ps[1..], h, g);
      if ps[0].connection.handle != h {
        assert For(ps, h) == For(ps[1..], h);
      }
    }
  }

  lemma {:induction false} ForMembers(ps: seq<Pending>, h: u16)
    ensures forall p :: p in For(ps, h) <==> p in ps && p.connection.handle == h
  {
    if ps != [] {
      ForMembers(ps[1..], h);
      assert ps == [ps[0]] + ps[1..];
    }
  }

  // ----- Conservation -----

  ghost predicate LiveGeneration(cs: map<u16, Connection>, g: nat) {
    exists h :: h in cs && cs[h].generation == g
  }

  /** Per generation: what was accepted is what was dequeued, then what was purged, then what still waits. */
  ghost predicate Balanced(accepted: seq<Pending>, dequeued: seq<Pending>, purged: seq<Pending>, ps: seq<Pending>, g: nat) {
    OfGen(accepted, g) == OfGen(dequeued, g) + OfGen(purged, g) + OfGen(ps, g)
  }

  ghost predicate Accounted(accepted: seq<Pending>, dequeued: seq<Pending>, purged: seq<Pending>, ps: seq<Pending>) {
    forall g :: Balanced(accepted, dequeued, purged, ps, g)
  }

  /** What a disconnect removed stays removed: its generation is dead. */
  ghost predicate PurgedAreDead(purged: seq<Pending>, cs: map<u16, Connection>, next: nat) {
    forall p :: p in purged ==> p.connection.generation < next && !LiveGeneration(cs, p.connection.generation)
  }

  ghost predicate LedgerOk(s: System) {
    && Accounted(s.log.accepted, s.log.dequeued, s.log.purged, s.state.pending)
    && PurgedAreDead(s.log.purged, s.state.connections, s.next)
  }

  lemma NothingPurged(s: System, g: nat)
    requires LedgerOk(s) && LiveGeneration(s.state.connections, g)
    ensures OfGen(s.log.purged, g) == []
  {
    OfGenNone(s.log.purged, g);
  }

  lemma AcceptKeepsLedger(s: System, p: Pending)
    requires LedgerOk(s) && LiveGeneration(s.state.connections, p.connection.generation)
    ensures Accounted(s.log.accepted + [p], s.log.dequeued, s.log.purged, s.state.pending + [p])
  {
    forall g
      ensures Balanced(s.log.accepted + [p], s.log.dequeued, s.log.purged, s.state.pending + [p], g)
    {
      assert Balanced(s.log.accepted, s.log.dequeued, s.log.purged, s.state.pending, g);
      OfGenConcat(s.log.accepted, [p], g);
      OfGenConcat(s.state.pending, [p], g);
    }
  }

  lemma DequeueKeepsLedger(s: System, i: nat)
    requires LedgerOk(s) && i < |s.state.pending|
    requires LiveGeneration(s.state.connections, s.state.pending[i].connection.generation)
    requires forall j :: 0 <= j < i ==> s.state.pending[j].connection.generation != s.state.pending[i].connection.generation
    ensures Accounted(s.log.accepted, s.log.dequeued + [s.state.pending[i]], s.log.purged, RemoveAt(s.state.pending, i))
  {
    var p := s.state.pending[i];
    forall g
      ensures Balanced(s.log.accepted, s.log.dequeued + [p], s.log.purged, RemoveAt(s.state.pending, i), g)
    {
      assert Balanced(s.log.accepted, s.log.dequeued, s.log.purged, s.state.pending, g);
      OfGenConcat(s.log.dequeued, [p], g);
      OfGenOne(p, g);
      OfGenRemove(s.state.pending, i, g);
      if p.connection.generation == g { NothingPurged(s, g); }
    }
  }

  lemma Regroup(a: seq<Pending>, d: seq<Pending>, p: seq<Pending>, q: seq<Pending>, f: seq<Pending>, w: seq<Pending>)
    requires a == d + p + q && ((f == q && w == []) || (f == [] && w == q))
    ensures a == d + (p + f) + w
  {
  }

  lemma PurgeKeepsLedger(s: System, h: u16, own: nat)
    requires LedgerOk(s)
    requires forall p :: p in s.state.pending ==> (p.connection.handle == h <==> p.connection.generation == own)
    ensures Accounted(s.log.accepted, s.log.dequeued, s.log.purged + For(s.state.pending, h), Without(s.state.pending, h))
  {
    var ps := s.state.pending;
    ForMembers(ps, h);
    WithoutMembers(ps, h);
    forall g
      ensures Balanced(s.log.accepted, s.log.dequeued, s.log.purged + For(ps, h), Without(ps, h), g)
    {
      assert Balanced(s.log.accepted, s.log.dequeued, s.log.purged, ps, g);
      OfGenConcat(s.log.purged, For(ps, h), g);
      if g == own {
        OfGenFor(ps, h, g);
        OfGenNone(Without(ps, h), g);
      } else {
        OfGenWithout(ps, h, g);
        OfGenNone(For(ps, h), g);
      }
      Regroup(OfGen(s.log.accepted, g), OfGen(s.log.dequeued, g), OfGen(s.log.purged, g), OfGen(ps, g),
              OfGen(For(ps, h), g), OfGen(Without(ps, h), g));
    }
  }

  /** Entries of one generation share a handle, and a handle's entries share a generation. */
  lemma OneGenerationPerHandle(db: seq<Attribute>, grows: bool, first: nat, next: nat, st: State)
    requires StateInv(db, grows, first, next, st)
    ensures forall p, q :: p in st.pending && q in st.pending ==>
                             (p.connection.generation == q.connection.generation <==> p.connection.handle == q.connection.handle)
    ensures forall p :: p in st.pending ==> LiveGeneration(st.connections, p.connection.generation)
  {
    forall p, q | p in st.pending && q in st.pending
      ensures p.connection.generation == q.connection.generation <==> p.connection.handle == q.connection.handle
    {
      assert EntryOk(db, st.connections, grows, p) && EntryOk(db, st.connections, grows, q);
    }
    forall p | p in st.pending
      ensures LiveGeneration(st.connections, p.connection.generation)
    {
      assert EntryOk(db, st.connections, grows, p);
    }
  }

  lemma FlushKeepsLedger(db: seq<Attribute>, hyp: Hypotheses, first: nat, s: System, h: u16, status: byte)
    requires TablesOk(db, hyp, first, s) && LedgerOk(s)
    ensures LedgerOk(AfterFlush(s, h, status))
  {
    var i := FirstFor(s.state.pending, h);
    if i < |s.state.pending| {
      OneGenerationPerHandle(db, hyp.mtuGrows, first, s.next, s.state);
      assert s.state.pending[i] in s.state.pending;
      forall j | 0 <= j < i
        ensures s.state.pending[j].connection.generation != s.state.pending[i].connection.generation
      {
        assert s.state.pending[j] in s.state.pending;
      }
      DequeueKeepsLedger(s, i);
    }
  }

  lemma DisconnectKeepsLedger(db: seq<Attribute>, hyp: Hypotheses, first: nat, s: System, h: u16)
    requires TablesOk(db, hyp, first, s) && LedgerOk(s)
    ensures LedgerOk(s.(state := Server.Disconnect(s.state, h), log := s.log.(purged := s.log.purged + For(s.state.pending, h))))
  {
    var cs := s.state.connections;
    var own := if h in cs then cs[h].generation else s.next;
    forall p | p in s.state.pending
      ensures p.connection.handle == h <==> p.connection.generation == own
    {
      assert EntryOk(db, cs, hyp.mtuGrows, p);
    }
    PurgeKeepsLedger(s, h, own);
    ForMembers(s.state.pending, h);
    forall p | p in For(s.state.pending, h)
      ensures p.connection.generation < s.next && !LiveGeneration(cs - {h}, p.connection.generation)
    {
      assert EntryOk(db, cs, hyp.mtuGrows, p);
    }
  }

  lemma EventKeepsLedger(db: seq<Attribute>, hyp: Hypotheses, first: nat, s: System, status: byte)
    requires TablesOk(db, hyp, first, s) && LedgerOk(s) && s.bridge.events != []
    ensures LedgerOk(AfterEvent(s, s.bridge.events[0], status))
  {
    match s.bridge.events[0]
    case Disconnect(h) => DisconnectKeepsLedger(db, hyp, first, s, h);
    case CanSend(h) => FlushKeepsLedger(db, hyp, first, s.(bridge := s.bridge.(events := s.bridge.events[1..])), h, status);
    case _ =>
  }

  lemma LedgerStep(db: seq<Attribute>, hyp: Hypotheses, first: nat, s: System, l: Label)
    requires WellFormed(db) && TablesOk(db, hyp, first, s) && LedgerOk(s) && Enabled(hyp, s, l)
    ensures LedgerOk(Apply(db, s, l))
  {
    match l
    case Notify(c, uuid, value) =>
      if Admit(db, s.state, c, uuid, value).Success? {
        AdmittedIsOk(db, hyp, first, s, c, uuid, value);
        AcceptKeepsLedger(s, Admit(db, s.state, c, uuid, value).value);
      }
    case AttRead(h, a, offset, buffer, answer) => ReadKeepsTables(db, s.state, h, a, offset, buffer, answer);
    case AttWrite(h, a, mode, offset, value, verdict) => WriteKeepsTables(db, s.state, h, a, mode, offset, value, verdict);
    case Process(e, status) => EventKeepsLedger(db, hyp, first, s, status);
    case _ =>
  }

  // ----- Draining ends -----

  function Measure(s: System): nat {
    |s.bridge.events| + BusyCount(s.bridge.slots) + 2 * |s.state.pending| + (if s.phase.Flushing? then 2 else 0)
  }

  function Weight(s: System): nat {
    2 * Measure(s) + BusyCount(s.bridge.slots)
  }

  predicate DrainLabel(l: Label) {
    l.Process? || l.FlushMore? || l.SlotReady?
  }

  lemma AskAgainIsLighter(s: System, h: u16)
    requires s.phase == Flushing(h)
    ensures Measure(AskAgain(s, h)) < Measure(s) && Weight(AskAgain(s, h)) < Weight(s)
  {
    if Registers(s.bridge.slots, h) {
      BusyCountUpdate(s.bridge.slots, FirstFree(s.bridge.slots), Slot(h in s.links, h));
    }
  }

  lemma EventIsLighter(s: System, status: byte)
    requires s.bridge.events != [] && s.phase.Draining?
    ensures Measure(AfterEvent(s, s.bridge.events[0], status)) < Measure(s)
    ensures Weight(AfterEvent(s, s.bridge.events[0], status)) < Weight(s)
  {
    var e := s.bridge.events[0];
    ViewAfterEvent(s, e, status);
    if e.Disconnect? { WithoutMembers(s.state.pending, e.handle); }
  }

  lemma DrainStepIsLighter(db: seq<Attribute>, hyp: Hypotheses, s: System, l: Label)
    requires Enabled(hyp, s, l) && DrainLabel(l)
    ensures Weight(Apply(db, s, l)) < Weight(s)
    ensures if l.SlotReady? then Measure(Apply(db, s, l)) == Measure(s) else Measure(Apply(db, s, l)) < Measure(s)
  {
    match l
    case SlotReady(i) => FireIsOneForOne(s.bridge, i);
    case FlushMore => AskAgainIsLighter(s, s.phase.handle);
    case Process(e, status) => EventIsLighter(s, status);
  }

  /** Whatever BTstack answers, a drain takes a bounded number of steps: it needs no hypothesis at all. */
  lemma {:induction false} DrainTerminates(db: seq<Attribute>, hyp: Hypotheses, s: System, ls: seq<Label>)
    requires Runs(db, hyp, s, ls) && forall l :: l in ls ==> DrainLabel(l)
    ensures |ls| <= Weight(s) - Weight(After(db, s, ls))
    decreases |ls|
  {
    if ls != [] {
      DrainStepIsLighter(db, hyp, s, ls[0]);
      DrainTerminates(db, hyp, Apply(db, s, ls[0]), ls[1..]);
    }
  }
}
