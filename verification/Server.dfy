/** The tables that the runtime thread owns, and what each operation does to them. */
module Server {
  import opened Gatt

  const MAX_VALUE := 512
  const MAX_PENDING := 128

  /** A queued notification keeps the connection as it was when the value was accepted. */
  datatype Pending = Pending(connection: Connection, attribute: u16, value: seq<byte>)

  datatype State = State(
    connections: map<u16, Connection>,
    subscriptions: Subscriptions,
    snapshots: Snapshots,
    pending: seq<Pending>)

  const EMPTY := State(map[], map[], map[], [])

  type Subscriptions = map<(u16, u16), bool>
  type Snapshots = map<(u16, u16), seq<byte>>

  predicate Subscribed(subs: Subscriptions, handle: u16, attribute: u16) {
    (handle, attribute) in subs && subs[(handle, attribute)]
  }

  // ----- Connections -----

  function Connect(st: State, c: Connection): State {
    st.(connections := st.connections[c.handle := c])
  }

  function Disconnect(st: State, handle: u16): State {
    State(st.connections - {handle},
          map k | k in st.subscriptions && k.0 != handle :: st.subscriptions[k],
          map k | k in st.snapshots && k.0 != handle :: st.snapshots[k],
          Without(st.pending, handle))
  }

  function SetMtu(st: State, handle: u16, mtu: u16): State {
    if handle in st.connections then
      st.(connections := st.connections[handle := st.connections[handle].(mtu := mtu)])
    else st
  }

  // ----- The notification queue -----

  datatype Refusal = NotActive | UnknownCharacteristic | NotSubscribed | TooLong | QueueFull

  function Payload(mtu: u16): nat {
    if mtu < 3 then 0 else mtu - 3
  }

  function Admit(db: seq<Attribute>, st: State, c: Connection, uuid: Uuid, value: seq<byte>): Result<Pending, Refusal> {
    if c.handle !in st.connections || st.connections[c.handle].generation != c.generation then Failure(NotActive)
    else
      var current := st.connections[c.handle];
      match FindByUuid(db, uuid)
      case None => Failure(UnknownCharacteristic)
      case Some(a) =>
        if !Subscribed(st.subscriptions, c.handle, a.handle) then Failure(NotSubscribed)
        else if |value| > Payload(current.mtu) then Failure(TooLong)
        else if |st.pending| >= MAX_PENDING then Failure(QueueFull)
        else Success(Pending(current, a.handle, value))
  }

  function Enqueue(st: State, p: Pending): State {
    st.(pending := st.pending + [p])
  }

  /** The oldest entry queued for a handle, or the length of the queue. */
  function FirstFor(ps: seq<Pending>, handle: u16): (i: nat)
    ensures i <= |ps|
    ensures i < |ps| ==> ps[i].connection.handle == handle
    ensures forall j :: 0 <= j < i ==> ps[j].connection.handle != handle
  {
    if ps == [] || ps[0].connection.handle == handle then 0 else 1 + FirstFor(ps[1..], handle)
  }

  predicate Queued(ps: seq<Pending>, handle: u16) {
    exists p :: p in ps && p.connection.handle == handle
  }

  function RemoveAt(ps: seq<Pending>, i: nat): seq<Pending>
    requires i < |ps|
  {
    ps[..i] + ps[i + 1..]
  }

  function Without(ps: seq<Pending>, handle: u16): seq<Pending> {
    if ps == [] then []
    else (if ps[0].connection.handle == handle then [] else [ps[0]]) + Without(ps[1..], handle)
  }

  function For(ps: seq<Pending>, handle: u16): seq<Pending> {
    if ps == [] then []
    else (if ps[0].connection.handle == handle then [ps[0]] else []) + For(ps[1..], handle)
  }

  lemma {:induction false} WithoutMembers(ps: seq<Pending>, handle: u16)
    ensures forall p :: p in Without(ps, handle) <==> p in ps && p.connection.handle != handle
    ensures |Without(ps, handle)| <= |ps|
  {
    if ps != [] {
      WithoutMembers(ps[1..], handle);
      assert ps == [ps[0]] + ps[1..];
    }
  }

  // ----- ATT reads and writes -----

  datatype ReadOutcome = Returns(value: seq<byte>) | ReadRefused(status: GattStatus) | ReadPanics
  datatype WriteOutcome = Accepts | WriteRefused(status: GattStatus) | WritePanics

  /** The 16-bit value a read callback returns, and the octets it copied. */
  datatype Reply = Reply(code: u16, bytes: seq<byte>)

  const ERROR_BASE: nat := 0xfe00

  function Flag(on: bool): seq<byte> {
    [if on then 1 else 0, 0]
  }

  function ReadError(code: byte): u16 {
    ERROR_BASE + code as nat
  }

  /** The value a read captures, or the error code. The handler's answer matters only for a value handle. */
  function Capture(a: Attribute, on: bool, attribute: u16, outcome: ReadOutcome): Result<seq<byte>, u16> {
    if a.handle != attribute then Success(Flag(on))
    else if !a.characteristic.readable then Failure(ReadError(ReadNotPermitted.Code()))
    else
      match outcome
      case Returns(value) => if |value| <= MAX_VALUE then Success(value) else Failure(ReadError(InvalidValueLength.Code()))
      case ReadRefused(status) => Failure(ReadError(status.Code()))
      case ReadPanics => Failure(ReadError(UnlikelyError.Code()))
  }

  /** `buffer` is None for BTstack's length probe, otherwise the room it offers. */
  function Answer(value: seq<byte>, offset: u16, buffer: Option<u16>): Reply {
    if offset > |value| then Reply(ReadError(InvalidOffset.Code()), [])
    else
      match buffer
      case None => Reply(|value| % 0x1_0000, [])
      case Some(size) =>
        var n := if |value| - offset < size then |value| - offset else size;
        Reply(n, value[offset..offset + n])
  }

  function Read(db: seq<Attribute>, st: State, handle: u16, attribute: u16, offset: u16, buffer: Option<u16>,
                outcome: ReadOutcome): (State, Reply)
  {
    if handle !in st.connections then (st, Reply(ReadError(UnlikelyError.Code()), []))
    else
      match FindByHandle(db, attribute)
      case None => (st, Reply(ReadError(ReadNotPermitted.Code()), []))
      case Some(a) =>
        var key := (handle, attribute);
        if buffer.None? || key !in st.snapshots then
          match Capture(a, Subscribed(st.subscriptions, handle, a.handle), attribute, outcome)
          case Failure(code) => (st, Reply(code, []))
          case Success(value) => (st.(snapshots := st.snapshots[key := value]), Answer(value, offset, buffer))
        else (st, Answer(st.snapshots[key], offset, buffer))
  }

  /** A read leaves the tables alone, or records one snapshot under its own key. */
  lemma ReadCases(db: seq<Attribute>, st: State, handle: u16, attribute: u16, offset: u16, buffer: Option<u16>,
                  outcome: ReadOutcome)
    ensures var st' := Read(db, st, handle, attribute, offset, buffer, outcome).0;
            || st' == st
            || (handle in st.connections && FindByHandle(db, attribute).Some?
                && var c := Capture(FindByHandle(db, attribute).value,
                                    Subscribed(st.subscriptions, handle, FindByHandle(db, attribute).value.handle), attribute, outcome);
                   c.Success? && |c.value| <= MAX_VALUE
                   && st' == st.(snapshots := st.snapshots[(handle, attribute) := c.value]))
  {
  }

  datatype Written = Written(state: State, code: byte, events: seq<ServerEvent>)

  function Refused(st: State, status: GattStatus): Written {
    Written(st, status.Code(), [])
  }

  /** An accepted CCCD write: the flag, the snapshot it makes stale, and the event. */
  function Switch(st: State, handle: u16, a: Attribute, attribute: u16, on: bool): Written
    requires handle in st.connections
  {
    Written(st.(subscriptions := st.subscriptions[(handle, a.handle) := on], snapshots := st.snapshots - {(handle, attribute)}),
            0, [SubscriptionChanged(st.connections[handle], a.characteristic.uuid, on)])
  }

  function Write(db: seq<Attribute>, st: State, handle: u16, attribute: u16, mode: u16, offset: u16,
                 value: seq<byte>, outcome: WriteOutcome): Written
  {
    if mode != 0 then Refused(st, RequestNotSupported)
    else if offset != 0 then Refused(st, InvalidOffset)
    else if handle !in st.connections then Refused(st, UnlikelyError)
    else
      match FindByHandle(db, attribute)
      case None => Refused(st, WriteNotPermitted)
      case Some(a) =>
        if a.handle != attribute then
          if |value| != 2 then Refused(st, InvalidValueLength)
          else if value[1] != 0 || value[0] > 1 then Refused(st, ValueNotAllowed)
          else Switch(st, handle, a, attribute, value[0] == 1)
        else if |value| > MAX_VALUE then Refused(st, InvalidValueLength)
        else if !a.characteristic.writable then Refused(st, WriteNotPermitted)
        else
          match outcome
          case Accepts => Written(st.(snapshots := st.snapshots - {(handle, attribute)}), 0, [])
          case WriteRefused(status) => Refused(st, status)
          case WritePanics => Refused(st, UnlikelyError)
  }

  /** A write is refused without effect, or switches a subscription, or reaches the write handler. */
  lemma WriteCases(db: seq<Attribute>, st: State, handle: u16, attribute: u16, mode: u16, offset: u16,
                   value: seq<byte>, outcome: WriteOutcome)
    ensures var w := Write(db, st, handle, attribute, mode, offset, value, outcome);
            || (w.code != 0 && w.state == st && w.events == [])
            || (handle in st.connections && FindByHandle(db, attribute).Some?
                && FindByHandle(db, attribute).value.handle != attribute && |value| == 2 && value[0] <= 1
                && w == Switch(st, handle, FindByHandle(db, attribute).value, attribute, value[0] == 1))
            || (w.code == 0 && w.events == [] && w.state == st.(snapshots := st.snapshots - {(handle, attribute)})
                && outcome.Accepts? && handle in st.connections && |value| <= MAX_VALUE
                && FindByHandle(db, attribute).Some? && FindByHandle(db, attribute).value.handle == attribute
                && FindByHandle(db, attribute).value.characteristic.writable)
  {
  }

  // ----- What a caller must meet -----

  /** A value is accepted if and only if its token is live, its characteristic is subscribed, it fits the
      current MTU and the queue has room; it is then queued for the connection as it is now. */
  lemma AdmitsIff(db: seq<Attribute>, st: State, c: Connection, a: Attribute, value: seq<byte>)
    requires WellFormed(db) && a in db
    ensures var r := Admit(db, st, c, a.characteristic.uuid, value);
            && (r.Success? <==>
                  && c.handle in st.connections && st.connections[c.handle].generation == c.generation
                  && Subscribed(st.subscriptions, c.handle, a.handle)
                  && (value == [] || |value| + 3 <= st.connections[c.handle].mtu)
                  && |st.pending| < 128)
            && (r.Success? ==> r.value == Pending(st.connections[c.handle], a.handle, value))
            && r != Failure(UnknownCharacteristic)
  {
    LookupsAreExact(db, a, a.handle);
  }

  /** A write succeeds if and only if it is whole, comes from a live connection, and is either a value that
      its handler accepts or one of the two legal CCCD values; prepared and offset writes never get that far. */
  lemma WritesIff(db: seq<Attribute>, st: State, handle: u16, a: Attribute, attribute: u16, mode: u16, offset: u16,
                  value: seq<byte>, outcome: WriteOutcome)
    requires WellFormed(db) && a in db && Names(a, attribute)
    ensures var w := Write(db, st, handle, attribute, mode, offset, value, outcome);
            && (w.code == 0 <==>
                  && mode == 0 && offset == 0 && handle in st.connections
                  && if a.handle == attribute then |value| <= 512 && a.characteristic.writable && outcome.Accepts?
                     else value == Flag(true) || value == Flag(false))
            && (w.code != 0 ==> w.state == st && w.events == [])
            && (w.code == 0 ==> (handle, attribute) !in w.state.snapshots)
            && (w.code == 0 && a.handle != attribute ==> Subscribed(w.state.subscriptions, handle, a.handle) == (value == Flag(true)))
            && (mode != 0 || offset != 0 ==> w == Refused(st, if mode != 0 then RequestNotSupported else InvalidOffset))
  {
    LookupsAreExact(db, a, attribute);
    if |value| == 2 { assert value == [value[0], value[1]]; }
  }

  /** The value a read serves: the snapshot, or for a length probe and a first read a fresh one. */
  predicate Available(st: State, handle: u16, a: Attribute, attribute: u16, buffer: Option<u16>, outcome: ReadOutcome, value: seq<byte>) {
    if buffer.Some? && (handle, attribute) in st.snapshots then value == st.snapshots[(handle, attribute)]
    else if a.handle != attribute then value == Flag(Subscribed(st.subscriptions, handle, a.handle))
    else a.characteristic.readable && outcome == Returns(value) && |value| <= MAX_VALUE
  }

  /** A read succeeds if and only if its connection is live and a value is available that reaches its offset. */
  lemma ReadsIff(db: seq<Attribute>, st: State, handle: u16, a: Attribute, attribute: u16, offset: u16, buffer: Option<u16>,
                 outcome: ReadOutcome)
    requires WellFormed(db) && a in db && Names(a, attribute)
    requires forall k :: k in st.snapshots ==> |st.snapshots[k]| <= MAX_VALUE
    ensures Read(db, st, handle, attribute, offset, buffer, outcome).1.code < 0xfe00 <==>
              handle in st.connections
              && exists value :: Available(st, handle, a, attribute, buffer, outcome, value) && offset <= |value|
  {
    LookupsAreExact(db, a, attribute);
    var cached := buffer.Some? && (handle, attribute) in st.snapshots;
    var value := if cached then st.snapshots[(handle, attribute)]
                 else if a.handle != attribute then Flag(Subscribed(st.subscriptions, handle, a.handle))
                 else if outcome.Returns? then outcome.value else [];
    assert forall v :: Available(st, handle, a, attribute, buffer, outcome, v) ==> v == value;
  }
}
