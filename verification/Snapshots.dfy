/** ATT reads over whole runs: CCCD reads return the last accepted write, and a chunked read of a value
    reassembles one handler result. */
module Snapshots {
  import opened Gatt
  import opened Bridge
  import opened Server
  import opened Machine
  import opened Tables
  import Links
  import opened Theorems
  import opened Replies

  /** The reply to a read, and the status of a write, issued in this state. */
  function ReadReply(db: seq<Attribute>, s: System, l: Label): Reply
    requires l.AttRead?
  {
    Server.Read(db, s.state, l.handle, l.attribute, l.offset, l.buffer, l.answer).1
  }

  function WriteStatus(db: seq<Attribute>, s: System, l: Label): byte
    requires l.AttWrite?
  {
    Server.Write(db, s.state, l.handle, l.attribute, l.mode, l.offset, l.value, l.verdict).code
  }

  ghost predicate LengthOrError(r: Reply, buffer: Option<u16>) {
    if r.code < 0xfe00 then
      && r.code <= 512
      && (buffer.Some? ==> r.code == |r.bytes| && |r.bytes| <= buffer.value)
    else r.bytes == []
  }

  lemma AnswerIsLength(value: seq<byte>, offset: u16, buffer: Option<u16>)
    requires |value| <= MAX_VALUE
    ensures LengthOrError(Answer(value, offset, buffer), buffer)
  {
  }

  lemma ReadIsLengthOrError(db: seq<Attribute>, st: State, h: u16, attribute: u16, offset: u16, buffer: Option<u16>,
                            answer: ReadOutcome)
    requires forall k :: k in st.snapshots ==> |st.snapshots[k]| <= MAX_VALUE
    ensures LengthOrError(Server.Read(db, st, h, attribute, offset, buffer, answer).1, buffer)
  {
    if h in st.connections && FindByHandle(db, attribute).Some? {
      var a := FindByHandle(db, attribute).value;
      if (h, attribute) in st.snapshots { AnswerIsLength(st.snapshots[(h, attribute)], offset, buffer); }
      match Capture(a, Subscribed(st.subscriptions, h, a.handle), attribute, answer)
      case Success(value) => AnswerIsLength(value, offset, buffer);
      case Failure(_) =>
    }
  }

  /** A successful reply carries a length of at most 512; error codes start at 0xfe00, so the two never collide. */
  lemma LengthsAreNotErrors(db: seq<Attribute>, hyp: Hypotheses, first: nat, ls: seq<Label>, l: Label)
    requires Session(db, hyp, first, ls) && l.AttRead?
    ensures LengthOrError(ReadReply(db, After(db, Initial(first), ls), l), l.buffer)
  {
    Reaches(db, hyp, first, ls);
    ReadIsLengthOrError(db, After(db, Initial(first), ls).state, l.handle, l.attribute, l.offset, l.buffer, l.answer);
  }

  // ----- The CCCD -----

  /** What an observer of the requests believes the flag to be after one more step. */
  function FlagAfter(db: seq<Attribute>, s: System, l: Label, h: u16, cccd: u16, on: bool): bool {
    match l
    case Process(e, _) => if e == Disconnect(h) then false else on
    case AttWrite(k, attribute, _, _, value, _) =>
      if k == h && attribute == cccd && WriteStatus(db, s, l) == 0 then value == [1, 0] else on
    case _ => on
  }

  /** The last accepted write to this CCCD since the handle last disconnected. */
  function LastWrite(db: seq<Attribute>, s: System, ls: seq<Label>, h: u16, cccd: u16, on: bool): bool
    decreases |ls|
  {
    if ls == [] then on
    else LastWrite(db, Apply(db, s, ls[0]), ls[1..], h, cccd, FlagAfter(db, s, ls[0], h, cccd, on))
  }

  lemma WriteSetsFlag(db: seq<Attribute>, s: System, l: Label, h: u16, a: Attribute, cccd: u16)
    requires WellFormed(db) && a in db && a.handle != cccd && Names(a, cccd) && l.AttWrite?
    ensures Subscribed(Apply(db, s, l).state.subscriptions, h, a.handle) ==
            FlagAfter(db, s, l, h, cccd, Subscribed(s.state.subscriptions, h, a.handle))
  {
    WriteCases(db, s.state, l.handle, l.attribute, l.mode, l.offset, l.value, l.verdict);
    FoundByHandle(db, l.attribute);
    LookupsAreExact(db, a, cccd);
    if FindByHandle(db, l.attribute).Some? {
      var b := FindByHandle(db, l.attribute).value;
      AtMostOneMatch(db, a, b);
      if a == b && l.attribute != a.handle { assert l.attribute == cccd; }
    }
  }

  lemma FlagStep(db: seq<Attribute>, hyp: Hypotheses, s: System, l: Label, h: u16, a: Attribute, cccd: u16)
    requires WellFormed(db) && a in db && a.handle != cccd && Names(a, cccd) && Enabled(hyp, s, l)
    ensures Subscribed(Apply(db, s, l).state.subscriptions, h, a.handle) ==
            FlagAfter(db, s, l, h, cccd, Subscribed(s.state.subscriptions, h, a.handle))
  {
    match l
    case AttWrite(_, _, _, _, _, _) => WriteSetsFlag(db, s, l, h, a, cccd);
    case AttRead(k, attribute, offset, buffer, answer) => ReadCases(db, s.state, k, attribute, offset, buffer, answer);
    case Process(e, status) => SubscriptionsAfterEvent(s, e, status);
    case _ =>
  }

  lemma SubscriptionsAfterEvent(s: System, e: Event, status: byte)
    requires s.bridge.events != []
    ensures AfterEvent(s, e, status).state.subscriptions ==
            if e.Disconnect? then Server.Disconnect(s.state, e.handle).subscriptions else s.state.subscriptions
    ensures AfterEvent(s, e, status).state.snapshots ==
            if e.Disconnect? then Server.Disconnect(s.state, e.handle).snapshots else s.state.snapshots
  {
    if e.CanSend? { FlushShape(s.(bridge := s.bridge.(events := s.bridge.events[1..])), e.handle, status); }
  }

  lemma {:induction false} FlagAlways(db: seq<Attribute>, hyp: Hypotheses, s: System, ls: seq<Label>, h: u16, a: Attribute, cccd: u16)
    requires WellFormed(db) && a in db && a.handle != cccd && Names(a, cccd) && Runs(db, hyp, s, ls)
    ensures Subscribed(After(db, s, ls).state.subscriptions, h, a.handle) ==
            LastWrite(db, s, ls, h, cccd, Subscribed(s.state.subscriptions, h, a.handle))
    decreases |ls|
  {
    if ls != [] {
      FlagStep(db, hyp, s, ls[0], h, a, cccd);
      FlagAlways(db, hyp, Apply(db, s, ls[0]), ls[1..], h, a, cccd);
    }
  }

  /** Any read of a CCCD, cached or not, serves the last accepted write since that handle last
      disconnected, and zero if there was none; other connections' writes never show. A probe is told 2. */
  lemma CccdReadsLastWrite(db: seq<Attribute>, hyp: Hypotheses, first: nat, ls: seq<Label>, l: Label, a: Attribute)
    requires Session(db, hyp, first, ls) && l.AttRead?
    requires a in db && a.handle != l.attribute && Names(a, l.attribute)
    ensures var s := After(db, Initial(first), ls);
            var last: seq<byte> := if LastWrite(db, Initial(first), ls, l.handle, l.attribute, false) then [1, 0] else [0, 0];
            l.handle in s.state.connections ==> Serves(ReadReply(db, s, l), last, l.offset, l.buffer)
  {
    Reaches(db, hyp, first, ls);
    FlagAlways(db, hyp, Initial(first), ls, l.handle, a, l.attribute);
    LookupsAreExact(db, a, l.attribute);
    AnswerServes(Flag(LastWrite(db, Initial(first), ls, l.handle, l.attribute, false)), l.offset, l.buffer);
  }

  // ----- The last capture of a value -----

  function Kept(st: State, h: u16, attribute: u16): Option<seq<byte>> {
    if (h, attribute) in st.snapshots then Some(st.snapshots[(h, attribute)]) else None
  }

  /** What a read of this value gives when its handler runs. */
  predicate Captures(s: System, l: Label, a: Attribute) {
    l.AttRead? && l.handle in s.state.connections && a.characteristic.readable
    && l.answer.Returns? && |l.answer.value| <= MAX_VALUE
  }

  /** What an observer of the requests believes to be kept after one more step: a length probe, or the
      first chunk, keeps the handler's result; an accepted write or a disconnect drops it. */
  function CaptureAfter(db: seq<Attribute>, s: System, l: Label, h: u16, a: Attribute, kept: Option<seq<byte>>): Option<seq<byte>> {
    match l
    case Process(e, _) => if e == Disconnect(h) then None else kept
    case AttWrite(k, attribute, _, _, _, _) =>
      if k == h && attribute == a.handle && WriteStatus(db, s, l) == 0 then None else kept
    case AttRead(k, attribute, _, buffer, answer) =>
      if k == h && attribute == a.handle && (buffer.None? || kept.None?) && Captures(s, l, a) then Some(answer.value) else kept
    case _ => kept
  }

  function LastCapture(db: seq<Attribute>, s: System, ls: seq<Label>, h: u16, a: Attribute, kept: Option<seq<byte>>): Option<seq<byte>>
    decreases |ls|
  {
    if ls == [] then kept
    else LastCapture(db, Apply(db, s, ls[0]), ls[1..], h, a, CaptureAfter(db, s, ls[0], h, a, kept))
  }

  lemma ReadKeepsCapture(db: seq<Attribute>, s: System, l: Label, h: u16, a: Attribute)
    requires WellFormed(db) && a in db && l.AttRead?
    ensures Kept(Apply(db, s, l).state, h, a.handle) == CaptureAfter(db, s, l, h, a, Kept(s.state, h, a.handle))
  {
    if l.handle == h && l.attribute == a.handle {
      LookupsAreExact(db, a, a.handle);
    } else {
      ReadCases(db, s.state, l.handle, l.attribute, l.offset, l.buffer, l.answer);
    }
  }

  lemma CaptureStep(db: seq<Attribute>, hyp: Hypotheses, s: System, l: Label, h: u16, a: Attribute)
    requires WellFormed(db) && a in db && Enabled(hyp, s, l)
    ensures Kept(Apply(db, s, l).state, h, a.handle) == CaptureAfter(db, s, l, h, a, Kept(s.state, h, a.handle))
  {
    match l
    case AttRead(_, _, _, _, _) => ReadKeepsCapture(db, s, l, h, a);
    case AttWrite(k, other, mode, offset, v, verdict) => WriteCases(db, s.state, k, other, mode, offset, v, verdict);
    case Process(e, status) => SubscriptionsAfterEvent(s, e, status);
    case _ =>
  }

  /** In any run what is kept for a value is its last capture. */
  lemma {:induction false} CaptureAlways(db: seq<Attribute>, hyp: Hypotheses, s: System, ls: seq<Label>, h: u16, a: Attribute)
    requires WellFormed(db) && a in db && Runs(db, hyp, s, ls)
    ensures Kept(After(db, s, ls).state, h, a.handle) == LastCapture(db, s, ls, h, a, Kept(s.state, h, a.handle))
    decreases |ls|
  {
    if ls != [] {
      CaptureStep(db, hyp, s, ls[0], h, a);
      CaptureAlways(db, hyp, Apply(db, s, ls[0]), ls[1..], h, a);
    }
  }

  /** In every reachable state the snapshot of a value is the handler result of the last length probe or
      first chunk since the last accepted write or disconnect, and there is none if there was none. */
  lemma SnapshotIsLastCapture(db: seq<Attribute>, hyp: Hypotheses, first: nat, ls: seq<Label>, h: u16, a: Attribute)
    requires Session(db, hyp, first, ls) && a in db
    ensures Kept(After(db, Initial(first), ls).state, h, a.handle) == LastCapture(db, Initial(first), ls, h, a, None)
  {
    CaptureAlways(db, hyp, Initial(first), ls, h, a);
  }

  // ----- Chunked reads -----

  /** A read of this value into a buffer (not a length probe). */
  predicate Chunk(l: Label, h: u16, attribute: u16) {
    l.AttRead? && l.handle == h && l.attribute == attribute && l.buffer.Some?
  }

  /** No length probe, accepted write or disconnect of this key. */
  predicate Leaves(db: seq<Attribute>, s: System, l: Label, h: u16, attribute: u16) {
    && !(l.AttRead? && l.handle == h && l.attribute == attribute && l.buffer.None?)
    && !(l.AttWrite? && l.handle == h && l.attribute == attribute && WriteStatus(db, s, l) == 0)
    && !(l.Process? && l.event == Disconnect(h))
  }

  /** A client that reads this value at advancing offsets, starting at `at`; anything else may interleave. */
  ghost predicate Advancing(db: seq<Attribute>, s: System, ls: seq<Label>, h: u16, attribute: u16, at: nat)
    decreases |ls|
  {
    ls == [] || (
      && Leaves(db, s, ls[0], h, attribute)
      && (Chunk(ls[0], h, attribute) ==> ls[0].offset == at)
      && Advancing(db, Apply(db, s, ls[0]), ls[1..], h, attribute,
                   if Chunk(ls[0], h, attribute) then at + |ReadReply(db, s, ls[0]).bytes| else at))
  }

  function Collected(db: seq<Attribute>, s: System, ls: seq<Label>, h: u16, attribute: u16): seq<byte>
    decreases |ls|
  {
    if ls == [] then []
    else (if Chunk(ls[0], h, attribute) then ReadReply(db, s, ls[0]).bytes else [])
         + Collected(db, Apply(db, s, ls[0]), ls[1..], h, attribute)
  }

  /** A chunk that is no error came back shorter than its buffer: the client knows it has everything. */
  predicate Short(r: Reply, buffer: u16) {
    r.code < 0xfe00 && |r.bytes| < buffer
  }

  predicate SawShort(db: seq<Attribute>, s: System, ls: seq<Label>, h: u16, attribute: u16)
    decreases |ls|
  {
    ls != [] && (
      || (Chunk(ls[0], h, attribute) && Short(ReadReply(db, s, ls[0]), ls[0].buffer.value))
      || SawShort(db, Apply(db, s, ls[0]), ls[1..], h, attribute))
  }

  /** Snapshots are kept for live connections only, and have a legal length. */
  ghost predicate Keyed(st: State, h: u16, attribute: u16) {
    (h, attribute) in st.snapshots ==> h in st.connections && |st.snapshots[(h, attribute)]| <= MAX_VALUE
  }

  /** What a client that has collected `at` octets knows of the value kept. */
  ghost predicate Within(kept: Option<seq<byte>>, at: nat) {
    if kept.Some? then at <= |kept.value| else at == 0
  }

  /** `got` is the part of what is kept that follows the first `at` octets, and all the rest if `short`. */
  ghost predicate Follows(before: Option<seq<byte>>, kept: Option<seq<byte>>, at: nat, got: seq<byte>, short: bool) {
    && (before.Some? ==> kept == before)
    && Within(kept, at + |got|)
    && (kept.Some? ==> got == kept.value[at..at + |got|])
    && (short ==> kept.Some? && at + |got| == |kept.value|)
  }

  lemma FollowsOn(k0: Option<seq<byte>>, k1: Option<seq<byte>>, k2: Option<seq<byte>>, at: nat, a: seq<byte>, b: seq<byte>,
                  first: bool, later: bool)
    requires Follows(k0, k1, at, a, first) && Follows(k1, k2, at + |a|, b, later)
    ensures Follows(k0, k2, at, a + b, first || later)
  {
  }

  /** A chunk continues what is kept, and if nothing is it either captures it or is refused. */
  lemma ChunkReply(db: seq<Attribute>, s: System, l: Label, h: u16, a: Attribute)
    requires WellFormed(db) && a in db && Chunk(l, h, a.handle)
    requires Keyed(s.state, h, a.handle) && Within(Kept(s.state, h, a.handle), l.offset)
    ensures var s' := Apply(db, s, l);
            var r := ReadReply(db, s, l);
            && Keyed(s'.state, h, a.handle)
            && Follows(Kept(s.state, h, a.handle), Kept(s'.state, h, a.handle), l.offset, r.bytes, Short(r, l.buffer.value))
  {
    LookupsAreExact(db, a, a.handle);
  }

  lemma OtherStepsKeep(db: seq<Attribute>, hyp: Hypotheses, s: System, l: Label, h: u16, a: Attribute)
    requires WellFormed(db) && a in db && Leaves(db, s, l, h, a.handle) && !Chunk(l, h, a.handle) && Enabled(hyp, s, l)
    requires Keyed(s.state, h, a.handle)
    ensures Kept(Apply(db, s, l).state, h, a.handle) == Kept(s.state, h, a.handle) && Keyed(Apply(db, s, l).state, h, a.handle)
  {
    CaptureStep(db, hyp, s, l, h, a);
    if l.Process? { ConnectionsAfterEvent(s, l.event, l.status); } else { Links.ViewFrame(db, s, l); }
  }

  /** From `at` on, a client collects the rest of the value that is kept in the end. */
  lemma {:induction false} ChunksContinue(db: seq<Attribute>, hyp: Hypotheses, s: System, ls: seq<Label>, h: u16, a: Attribute, at: nat)
    requires WellFormed(db) && a in db && Runs(db, hyp, s, ls) && Advancing(db, s, ls, h, a.handle, at)
    requires Keyed(s.state, h, a.handle) && Within(Kept(s.state, h, a.handle), at)
    ensures Follows(Kept(s.state, h, a.handle), Kept(After(db, s, ls).state, h, a.handle), at,
                    Collected(db, s, ls, h, a.handle), SawShort(db, s, ls, h, a.handle))
    decreases |ls|
  {
    if ls != [] {
      var l, s' := ls[0], Apply(db, s, ls[0]);
      if Chunk(l, h, a.handle) {
        ChunkReply(db, s, l, h, a);
        ChunksContinue(db, hyp, s', ls[1..], h, a, at + |ReadReply(db, s, l).bytes|);
        ChunkThenRest(db, s, ls, h, a, at);
      } else {
        OtherStepsKeep(db, hyp, s, l, h, a);
        ChunksContinue(db, hyp, s', ls[1..], h, a, at);
        assert [] + Collected(db, s', ls[1..], h, a.handle) == Collected(db, s', ls[1..], h, a.handle);
      }
    }
  }

  lemma ChunkThenRest(db: seq<Attribute>, s: System, ls: seq<Label>, h: u16, a: Attribute, at: nat)
    requires ls != [] && Chunk(ls[0], h, a.handle)
    requires var s', r := Apply(db, s, ls[0]), ReadReply(db, s, ls[0]);
             && Follows(Kept(s.state, h, a.handle), Kept(s'.state, h, a.handle), at, r.bytes, Short(r, ls[0].buffer.value))
             && Follows(Kept(s'.state, h, a.handle), Kept(After(db, s', ls[1..]).state, h, a.handle), at + |r.bytes|,
                        Collected(db, s', ls[1..], h, a.handle), SawShort(db, s', ls[1..], h, a.handle))
    ensures Follows(Kept(s.state, h, a.handle), Kept(After(db, s, ls).state, h, a.handle), at,
                    Collected(db, s, ls, h, a.handle), SawShort(db, s, ls, h, a.handle))
  {
    var s', r := Apply(db, s, ls[0]), ReadReply(db, s, ls[0]);
    FollowsOn(Kept(s.state, h, a.handle), Kept(s'.state, h, a.handle), Kept(After(db, s', ls[1..]).state, h, a.handle), at,
              r.bytes, Collected(db, s', ls[1..], h, a.handle), Short(r, ls[0].buffer.value), SawShort(db, s', ls[1..], h, a.handle));
  }

  /** From any reachable state, whether the value is cached, was probed or was never read: a client that
      reads at advancing offsets holds a prefix of the last capture, and once a chunk comes back short it
      holds exactly that; it holds nothing as long as nothing was captured. */
  lemma ChunksReassembleOneSnapshot(db: seq<Attribute>, hyp: Hypotheses, first: nat, past: seq<Label>, ls: seq<Label>, h: u16, a: Attribute)
    requires Session(db, hyp, first, past + ls) && a in db
    requires Advancing(db, After(db, Initial(first), past), ls, h, a.handle, 0)
    ensures var s := After(db, Initial(first), past);
            var got := Collected(db, s, ls, h, a.handle);
            match LastCapture(db, Initial(first), past + ls, h, a, None)
            case Some(value) => got <= value && (SawShort(db, s, ls, h, a.handle) ==> got == value)
            case None => got == [] && !SawShort(db, s, ls, h, a.handle)
  {
    RunsConcat(db, hyp, Initial(first), past, ls);
    AfterConcat(db, Initial(first), past, ls);
    Reaches(db, hyp, first, past);
    SnapshotIsLastCapture(db, hyp, first, past + ls, h, a);
    ChunksContinue(db, hyp, After(db, Initial(first), past), ls, h, a, 0);
  }

  /** What was captured before the first chunk is what it collects: a probe's result, or an earlier read's. */
  lemma ChunksServeTheProbe(db: seq<Attribute>, hyp: Hypotheses, first: nat, past: seq<Label>, ls: seq<Label>, h: u16, a: Attribute)
    requires Session(db, hyp, first, past + ls) && a in db
    requires Advancing(db, After(db, Initial(first), past), ls, h, a.handle, 0)
    requires LastCapture(db, Initial(first), past, h, a, None).Some?
    ensures LastCapture(db, Initial(first), past + ls, h, a, None) == LastCapture(db, Initial(first), past, h, a, None)
  {
    RunsConcat(db, hyp, Initial(first), past, ls);
    AfterConcat(db, Initial(first), past, ls);
    Reaches(db, hyp, first, past);
    SnapshotIsLastCapture(db, hyp, first, past, h, a);
    SnapshotIsLastCapture(db, hyp, first, past + ls, h, a);
    ChunksContinue(db, hyp, After(db, Initial(first), past), ls, h, a, 0);
  }

  // ----- Length probes -----

  /** A length probe that succeeds tells the length of what it captured; every other one tells an error. */
  lemma ProbeTellsTheLength(db: seq<Attribute>, hyp: Hypotheses, first: nat, past: seq<Label>, l: Label, a: Attribute)
    requires Session(db, hyp, first, past + [l]) && a in db && l.AttRead? && l.buffer.None? && l.attribute == a.handle
    ensures var r := ReadReply(db, After(db, Initial(first), past), l);
            r.bytes == [] && (r.code < 0xfe00 ==>
              match LastCapture(db, Initial(first), past + [l], l.handle, a, None)
              case Some(value) => r.code == |value|
              case None => false)
  {
    var s := After(db, Initial(first), past);
    RunsConcat(db, hyp, Initial(first), past, [l]);
    AfterConcat(db, Initial(first), past, [l]);
    Reaches(db, hyp, first, past);
    assert [l][1..] == [] && After(db, Apply(db, s, l), []) == Apply(db, s, l);
    SnapshotIsLastCapture(db, hyp, first, past + [l], l.handle, a);
    LookupsAreExact(db, a, a.handle);
    ReadReplies(db, s.state, l.handle, a, a.handle, l.offset, l.buffer, l.answer);
  }

  /** The length that a probe told is the length of what the chunks after it collect. */
  lemma ProbeThenChunks(db: seq<Attribute>, hyp: Hypotheses, first: nat, past: seq<Label>, l: Label, ls: seq<Label>, a: Attribute)
    requires Session(db, hyp, first, past + [l] + ls) && a in db && l.AttRead? && l.buffer.None? && l.attribute == a.handle
    requires ReadReply(db, After(db, Initial(first), past), l).code < 0xfe00
    requires Advancing(db, After(db, Initial(first), past + [l]), ls, l.handle, a.handle, 0)
    ensures var s := After(db, Initial(first), past + [l]);
            var length := ReadReply(db, After(db, Initial(first), past), l).code;
            var got := Collected(db, s, ls, l.handle, a.handle);
            |got| <= length && (SawShort(db, s, ls, l.handle, a.handle) ==> |got| == length)
  {
    RunsConcat(db, hyp, Initial(first), past + [l], ls);
    ProbeTellsTheLength(db, hyp, first, past, l, a);
    ChunksServeTheProbe(db, hyp, first, past + [l], ls, l.handle, a);
    ChunksReassembleOneSnapshot(db, hyp, first, past + [l], ls, l.handle, a);
  }
}
