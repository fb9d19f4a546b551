/** What a connect event for a live handle can break: queued values are kept under a handle, not under a
    connection. Nothing here assumes that BTstack connects only free handles. */
module Owners {
  import opened Gatt
  import opened Bridge
  import opened Server
  import opened Machine
  import opened Links

  /** Every queued value belongs to the connection that holds its handle now. */
  ghost predicate Owned(st: State) {
    forall p :: p in st.pending ==>
      p.connection.handle in st.connections && st.connections[p.connection.handle].generation == p.connection.generation
  }

  /** Connections sit under their own handle, and their generations were taken from the counter. */
  ghost predicate Numbered(s: System) {
    forall h :: h in s.state.connections ==> s.state.connections[h].handle == h && s.state.connections[h].generation < s.next
  }

  /** A connect event finds nothing queued for its handle. */
  predicate FindsNothing(s: System, l: Label) {
    l.Process? && l.event.Connect? ==> !Queued(s.state.pending, l.event.handle)
  }

  lemma EventOwnedIff(s: System, e: Event, status: byte)
    requires Numbered(s) && Owned(s.state) && s.bridge.events != []
    ensures Owned(AfterEvent(s, e, status).state) <==> (e.Connect? ==> !Queued(s.state.pending, e.handle))
  {
    match e
    case Disconnect(h) => WithoutMembers(s.state.pending, h);
    case CanSend(h) =>
      FlushShape(s.(bridge := s.bridge.(events := s.bridge.events[1..])), h, status);
      assert forall p :: p in AfterEvent(s, e, status).state.pending ==> p in s.state.pending;
    case _ =>
  }

  lemma OtherStepsKeepOwned(db: seq<Attribute>, hyp: Hypotheses, s: System, l: Label)
    requires Numbered(s) && Owned(s.state) && Enabled(hyp, s, l) && !l.Process?
    ensures Owned(Apply(db, s, l).state)
  {
    ViewFrame(db, s, l);
    match l
    case AttRead(h, a, offset, buffer, answer) => ReadCases(db, s.state, h, a, offset, buffer, answer);
    case AttWrite(h, a, mode, offset, value, verdict) => WriteCases(db, s.state, h, a, mode, offset, value, verdict);
    case _ =>
  }

  lemma OwnedStepIff(db: seq<Attribute>, hyp: Hypotheses, s: System, l: Label)
    requires Numbered(s) && Owned(s.state) && Enabled(hyp, s, l)
    ensures Owned(Apply(db, s, l).state) <==> FindsNothing(s, l)
  {
    if l.Process? {
      EventOwnedIff(s, l.event, l.status);
    } else {
      OtherStepsKeepOwned(db, hyp, s, l);
    }
  }

  ghost predicate OwnedAt(db: seq<Attribute>, first: nat, ls: seq<Label>, k: nat)
    requires k <= |ls|
  {
    Owned(After(db, Initial(first), ls[..k]).state)
  }

  ghost predicate FindsNothingAt(db: seq<Attribute>, first: nat, ls: seq<Label>, k: nat)
    requires k < |ls|
  {
    FindsNothing(After(db, Initial(first), ls[..k]), ls[k])
  }

  lemma EventNumbered(s: System, e: Event, status: byte)
    requires Numbered(s) && s.bridge.events != []
    ensures Numbered(AfterEvent(s, e, status))
  {
    if e.CanSend? { FlushShape(s.(bridge := s.bridge.(events := s.bridge.events[1..])), e.handle, status); }
  }

  lemma NumberedStep(db: seq<Attribute>, hyp: Hypotheses, s: System, l: Label)
    requires Numbered(s) && Enabled(hyp, s, l)
    ensures Numbered(Apply(db, s, l))
  {
    if l.Process? {
      EventNumbered(s, l.event, l.status);
    } else {
      ViewFrame(db, s, l);
      assert Apply(db, s, l).next == s.next;
    }
  }

  lemma {:induction false} NumberedAt(db: seq<Attribute>, hyp: Hypotheses, first: nat, ls: seq<Label>, k: nat)
    requires Runs(db, hyp, Initial(first), ls) && k <= |ls|
    ensures Numbered(After(db, Initial(first), ls[..k]))
  {
    if k > 0 {
      NumberedAt(db, hyp, first, ls, k - 1);
      PrefixStep(db, hyp, Initial(first), ls, k - 1);
      NumberedStep(db, hyp, After(db, Initial(first), ls[..k - 1]), ls[k - 1]);
    }
  }

  lemma OwnedAtIff(db: seq<Attribute>, hyp: Hypotheses, first: nat, ls: seq<Label>, k: nat)
    requires Runs(db, hyp, Initial(first), ls) && k < |ls| && OwnedAt(db, first, ls, k)
    ensures OwnedAt(db, first, ls, k + 1) <==> FindsNothingAt(db, first, ls, k)
  {
    NumberedAt(db, hyp, first, ls, k);
    PrefixStep(db, hyp, Initial(first), ls, k);
    OwnedStepIff(db, hyp, After(db, Initial(first), ls[..k]), ls[k]);
  }

  lemma {:induction false} OwnedUpTo(db: seq<Attribute>, hyp: Hypotheses, first: nat, ls: seq<Label>, n: nat)
    requires Runs(db, hyp, Initial(first), ls) && n <= |ls|
    requires forall k :: 0 <= k < n ==> FindsNothingAt(db, first, ls, k)
    ensures OwnedAt(db, first, ls, n)
  {
    if n > 0 {
      OwnedUpTo(db, hyp, first, ls, n - 1);
      OwnedAtIff(db, hyp, first, ls, n - 1);
    }
  }

  /** In a whole run queued values stay with their own connections if and only if no connect event is
      processed while something is queued for its handle. */
  lemma OwnershipIff(db: seq<Attribute>, hyp: Hypotheses, first: nat, ls: seq<Label>)
    requires Runs(db, hyp, Initial(first), ls)
    ensures (forall k :: 0 <= k <= |ls| ==> OwnedAt(db, first, ls, k)) <==>
            (forall k :: 0 <= k < |ls| ==> FindsNothingAt(db, first, ls, k))
  {
    if forall k :: 0 <= k <= |ls| ==> OwnedAt(db, first, ls, k) {
      forall k | 0 <= k < |ls|
        ensures FindsNothingAt(db, first, ls, k)
      {
        assert OwnedAt(db, first, ls, k) && OwnedAt(db, first, ls, k + 1);
        OwnedAtIff(db, hyp, first, ls, k);
      }
    }
    if forall k :: 0 <= k < |ls| ==> FindsNothingAt(db, first, ls, k) {
      forall k | 0 <= k <= |ls|
        ensures OwnedAt(db, first, ls, k)
      {
        OwnedUpTo(db, hyp, first, ls, k);
      }
    }
  }

  /** The value was accepted for another connection than the one that held the handle when it was sent. */
  ghost predicate Misdirected(t: Transmission) {
    t.peer.None? || t.peer.value.generation != t.item.connection.generation
  }

  lemma OwnedHandsOverRight(db: seq<Attribute>, s: System, l: Label)
    requires Owned(s.state) && forall t :: t in s.log.handed ==> !Misdirected(t)
    ensures forall t :: t in Apply(db, s, l).log.handed ==> !Misdirected(t)
  {
    if l.Process? && l.event.CanSend? && s.bridge.events != [] {
      var i := FirstFor(s.state.pending, l.event.handle);
      if i < |s.state.pending| { assert s.state.pending[i] in s.state.pending; }
    }
  }

  /** Then nothing is ever sent to another connection than the one it was accepted for. */
  lemma {:induction false} OwnedMeansNoneMisdirected(db: seq<Attribute>, hyp: Hypotheses, first: nat, ls: seq<Label>, n: nat)
    requires Runs(db, hyp, Initial(first), ls) && n <= |ls|
    requires forall k :: 0 <= k < n ==> FindsNothingAt(db, first, ls, k)
    ensures forall t :: t in After(db, Initial(first), ls[..n]).log.handed ==> !Misdirected(t)
  {
    if n > 0 {
      OwnedMeansNoneMisdirected(db, hyp, first, ls, n - 1);
      OwnedUpTo(db, hyp, first, ls, n - 1);
      PrefixStep(db, hyp, Initial(first), ls, n - 1);
      OwnedHandsOverRight(db, After(db, Initial(first), ls[..n - 1]), ls[n - 1]);
    }
  }
}
