/** Isolation: each peer sees a machine of its own. */
module Peers {
  import opened Gatt
  import opened Bridge
  import opened Server
  import opened Machine
  import opened Tables
  import opened Snapshots
  import opened Theorems

  /** One peer's whole state, with no reference to any other. */
  datatype Peer = Peer(connected: bool, flags: map<u16, bool>, cache: map<u16, seq<byte>>)

  datatype Request =
    | Up
    | Down
    | Reading(attribute: u16, offset: u16, buffer: Option<u16>, answer: ReadOutcome)
    | Writing(attribute: u16, mode: u16, offset: u16, value: seq<byte>, verdict: WriteOutcome)

  datatype Observation = GotReply(reply: Reply) | GotStatus(code: byte)

  const ABSENT := Peer(false, map[], map[])

  predicate FlagOf(p: Peer, attribute: u16) {
    attribute in p.flags && p.flags[attribute]
  }

  function Serve(db: seq<Attribute>, p: Peer, attribute: u16, offset: u16, buffer: Option<u16>, answer: ReadOutcome): (Peer, Reply) {
    if !p.connected then (p, Reply(ReadError(UnlikelyError.Code()), []))
    else
      match FindByHandle(db, attribute)
      case None => (p, Reply(ReadError(ReadNotPermitted.Code()), []))
      case Some(a) =>
        if buffer.Some? && attribute in p.cache then (p, Answer(p.cache[attribute], offset, buffer))
        else
          match Capture(a, FlagOf(p, a.handle), attribute, answer)
          case Failure(code) => (p, Reply(code, []))
          case Success(value) => (p.(cache := p.cache[attribute := value]), Answer(value, offset, buffer))
  }

  function Accept(db: seq<Attribute>, p: Peer, attribute: u16, mode: u16, offset: u16, value: seq<byte>, verdict: WriteOutcome): (Peer, byte) {
    if mode != 0 then (p, RequestNotSupported.Code())
    else if offset != 0 then (p, InvalidOffset.Code())
    else if !p.connected then (p, UnlikelyError.Code())
    else
      match FindByHandle(db, attribute)
      case None => (p, WriteNotPermitted.Code())
      case Some(a) =>
        if a.handle != attribute then
          if |value| != 2 then (p, InvalidValueLength.Code())
          else if value != Flag(true) && value != Flag(false) then (p, ValueNotAllowed.Code())
          else (p.(flags := p.flags[a.handle := value == Flag(true)], cache := p.cache - {attribute}), 0)
        else if |value| > MAX_VALUE then (p, InvalidValueLength.Code())
        else if !a.characteristic.writable then (p, WriteNotPermitted.Code())
        else
          match verdict
          case Accepts => (p.(cache := p.cache - {attribute}), 0)
          case WriteRefused(status) => (p, status.Code())
          case WritePanics => (p, UnlikelyError.Code())
  }

  function PeerStep(db: seq<Attribute>, p: Peer, r: Request): (Peer, seq<Observation>) {
    match r
    case Up => (p.(connected := true), [])
    case Down => (ABSENT, [])
    case Reading(attribute, offset, buffer, answer) =>
      var x := Serve(db, p, attribute, offset, buffer, answer);
      (x.0, [GotReply(x.1)])
    case Writing(attribute, mode, offset, value, verdict) =>
      var x := Accept(db, p, attribute, mode, offset, value, verdict);
      (x.0, [GotStatus(x.1)])
  }

  function PeerRun(db: seq<Attribute>, p: Peer, rs: seq<Request>): (Peer, seq<Observation>)
    decreases |rs|
  {
    if rs == [] then (p, [])
    else
      var x := PeerStep(db, p, rs[0]);
      var y := PeerRun(db, x.0, rs[1..]);
      (y.0, x.1 + y.1)
  }

  // ----- The same peer inside the shared runtime -----

  /** One handle's rows of a table keyed by (handle, attribute). */
  function Slice<T>(m: map<(u16, u16), T>, d: u16): map<u16, T> {
    map a: u16 | 0 <= a < 0x1_0000 && (d, a) in m :: m[(d, a)]
  }

  lemma SliceUpdate<T>(m: map<(u16, u16), T>, h: u16, a: u16, v: T, d: u16)
    ensures Slice(m[(h, a) := v], d) == if h == d then Slice(m, d)[a := v] else Slice(m, d)
  {
  }

  lemma SliceRemove<T>(m: map<(u16, u16), T>, h: u16, a: u16, d: u16)
    ensures Slice(m - {(h, a)}, d) == if h == d then Slice(m, d) - {a} else Slice(m, d)
  {
  }

  lemma SliceDrop<T>(m: map<(u16, u16), T>, kept: map<(u16, u16), T>, h: u16, d: u16)
    requires forall k :: k in kept <==> k in m && k.0 != h
    requires forall k :: k in kept ==> kept[k] == m[k]
    ensures Slice(kept, d) == if h == d then map[] else Slice(m, d)
  {
  }

  function Project(st: State, d: u16): Peer {
    Peer(d in st.connections, Slice(st.subscriptions, d), Slice(st.snapshots, d))
  }

  /** The part of a step that is peer `d`'s own; every other step is none of its business. */
  function Own(l: Label, d: u16): seq<Request> {
    match l
    case Process(e, _) =>
      if e.Connect? && e.handle == d then [Up] else if e.Disconnect? && e.handle == d then [Down] else []
    case AttRead(h, attribute, offset, buffer, answer) => if h == d then [Reading(attribute, offset, buffer, answer)] else []
    case AttWrite(h, attribute, mode, offset, value, verdict) =>
      if h == d then [Writing(attribute, mode, offset, value, verdict)] else []
    case _ => []
  }

  function OwnAll(ls: seq<Label>, d: u16): seq<Request> {
    if ls == [] then [] else Own(ls[0], d) + OwnAll(ls[1..], d)
  }

  /** What peer `d` is told during a run of the shared runtime. */
  function Told(db: seq<Attribute>, s: System, l: Label, d: u16): seq<Observation> {
    match l
    case AttRead(h, _, _, _, _) => if h == d then [GotReply(ReadReply(db, s, l))] else []
    case AttWrite(h, _, _, _, _, _) => if h == d then [GotStatus(WriteStatus(db, s, l))] else []
    case _ => []
  }

  function ToldAll(db: seq<Attribute>, s: System, ls: seq<Label>, d: u16): seq<Observation>
    decreases |ls|
  {
    if ls == [] then [] else Told(db, s, ls[0], d) + ToldAll(db, Apply(db, s, ls[0]), ls[1..], d)
  }

  lemma ProjectRead(db: seq<Attribute>, st: State, h: u16, attribute: u16, offset: u16, buffer: Option<u16>, answer: ReadOutcome, d: u16)
    ensures var x := Server.Read(db, st, h, attribute, offset, buffer, answer);
            if h == d then (Project(x.0, d), x.1) == Serve(db, Project(st, d), attribute, offset, buffer, answer)
            else Project(x.0, d) == Project(st, d)
  {
    var st' := Server.Read(db, st, h, attribute, offset, buffer, answer).0;
    ReadCases(db, st, h, attribute, offset, buffer, answer);
    if (h, attribute) in st'.snapshots { SliceUpdate(st.snapshots, h, attribute, st'.snapshots[(h, attribute)], d); }
  }

  lemma ProjectSwitch(st: State, h: u16, a: Attribute, attribute: u16, on: bool, d: u16)
    requires h in st.connections
    ensures Project(Switch(st, h, a, attribute, on).state, d) ==
            if h == d then
              var p := Project(st, d);
              p.(flags := p.flags[a.handle := on], cache := p.cache - {attribute})
            else Project(st, d)
  {
    SliceUpdate(st.subscriptions, h, a.handle, on, d);
    SliceRemove(st.snapshots, h, attribute, d);
  }

  lemma ProjectWrite(db: seq<Attribute>, st: State, h: u16, attribute: u16, mode: u16, offset: u16, value: seq<byte>,
                     verdict: WriteOutcome, d: u16)
    ensures var w := Server.Write(db, st, h, attribute, mode, offset, value, verdict);
            if h == d then (Project(w.state, d), w.code) == Accept(db, Project(st, d), attribute, mode, offset, value, verdict)
            else Project(w.state, d) == Project(st, d)
  {
    if h in st.connections && FindByHandle(db, attribute).Some? {
      var a := FindByHandle(db, attribute).value;
      if a.handle == attribute {
        SliceRemove(st.snapshots, h, attribute, d);
      } else if |value| == 2 {
        assert value == [value[0], value[1]];
        ProjectSwitch(st, h, a, attribute, value[0] == 1, d);
      }
    }
  }

  lemma ProjectUp(st: State, c: Connection, d: u16)
    ensures Project(Server.Connect(st, c), d) == if c.handle == d then Project(st, d).(connected := true) else Project(st, d)
  {
  }

  lemma ProjectDown(st: State, h: u16, d: u16)
    ensures Project(Server.Disconnect(st, h), d) == if h == d then ABSENT else Project(st, d)
  {
    var gone := Server.Disconnect(st, h);
    SliceDrop(st.subscriptions, gone.subscriptions, h, d);
    SliceDrop(st.snapshots, gone.snapshots, h, d);
  }

  lemma PeerRunOne(db: seq<Attribute>, p: Peer, r: Request)
    ensures PeerRun(db, p, [r]) == PeerStep(db, p, r)
  {
    assert [r][1..] == [];
    assert PeerStep(db, p, r).1 + [] == PeerStep(db, p, r).1;
  }

  lemma ProjectEvent(db: seq<Attribute>, s: System, e: Event, status: byte, d: u16)
    requires s.bridge.events != []
    ensures Project(AfterEvent(s, e, status).state, d) ==
            if e.Connect? && e.handle == d then Project(s.state, d).(connected := true)
            else if e.Disconnect? && e.handle == d then ABSENT
            else Project(s.state, d)
  {
    if e.Connect? {
      ProjectUp(s.state, Connection(e.handle, s.next, e.mtu), d);
    } else if e.Disconnect? {
      ProjectDown(s.state, e.handle, d);
    } else {
      ConnectionsAfterEvent(s, e, status);
      SubscriptionsAfterEvent(s, e, status);
    }
  }

  lemma ProjectStep(db: seq<Attribute>, hyp: Hypotheses, s: System, l: Label, d: u16)
    requires Enabled(hyp, s, l)
    ensures (Project(Apply(db, s, l).state, d), Told(db, s, l, d)) == PeerRun(db, Project(s.state, d), Own(l, d))
  {
    if Own(l, d) != [] { PeerRunOne(db, Project(s.state, d), Own(l, d)[0]); }
    match l
    case AttRead(h, attribute, offset, buffer, answer) => ProjectRead(db, s.state, h, attribute, offset, buffer, answer, d);
    case AttWrite(h, attribute, mode, offset, value, verdict) =>
      ProjectWrite(db, s.state, h, attribute, mode, offset, value, verdict, d);
    case Process(e, status) => ProjectEvent(db, s, e, status, d);
    case _ =>
  }

  lemma Regroup(a: seq<Observation>, b: seq<Observation>, c: seq<Observation>)
    ensures a + (b + c) == a + b + c
  {
  }

  lemma {:induction false} PeerRunConcat(db: seq<Attribute>, p: Peer, a: seq<Request>, b: seq<Request>)
    ensures PeerRun(db, p, a + b) ==
            (PeerRun(db, PeerRun(db, p, a).0, b).0, PeerRun(db, p, a).1 + PeerRun(db, PeerRun(db, p, a).0, b).1)
    decreases |a|
  {
    if a == [] {
      assert a + b == b;
      assert [] + PeerRun(db, p, b).1 == PeerRun(db, p, b).1;
    } else {
      var x := PeerStep(db, p, a[0]);
      PeerRunConcat(db, x.0, a[1..], b);
      assert (a + b)[1..] == a[1..] + b;
      Regroup(x.1, PeerRun(db, x.0, a[1..]).1, PeerRun(db, PeerRun(db, p, a).0, b).1);
    }
  }

  /** In any run, peer `d`'s state and everything it is told are those of a machine that sees only `d`'s
      own connects, disconnects, reads and writes. */
  lemma {:induction false} PeerIsIsolated(db: seq<Attribute>, hyp: Hypotheses, s: System, ls: seq<Label>, d: u16)
    requires Runs(db, hyp, s, ls)
    ensures (Project(After(db, s, ls).state, d), ToldAll(db, s, ls, d)) == PeerRun(db, Project(s.state, d), OwnAll(ls, d))
    decreases |ls|
  {
    if ls != [] {
      ProjectStep(db, hyp, s, ls[0], d);
      PeerIsIsolated(db, hyp, Apply(db, s, ls[0]), ls[1..], d);
      PeerRunConcat(db, Project(s.state, d), Own(ls[0], d), OwnAll(ls[1..], d));
    }
  }

  /** Two sessions in which `d` does the same look the same to `d`, whatever the other peers do in each. */
  lemma OthersCannotInterfere(db: seq<Attribute>, hyp: Hypotheses, hyp': Hypotheses, first: nat, first': nat,
                              ls: seq<Label>, ls': seq<Label>, d: u16)
    requires Runs(db, hyp, Initial(first), ls) && Runs(db, hyp', Initial(first'), ls')
    requires OwnAll(ls, d) == OwnAll(ls', d)
    ensures ToldAll(db, Initial(first), ls, d) == ToldAll(db, Initial(first'), ls', d)
    ensures Project(After(db, Initial(first), ls).state, d) == Project(After(db, Initial(first'), ls').state, d)
  {
    PeerIsIsolated(db, hyp, Initial(first), ls, d);
    PeerIsIsolated(db, hyp', Initial(first'), ls', d);
  }
}
