/** Values shared by every part of the GATT server: fixed-width integers, UUIDs,
    connections, attributes and the events an application receives. */
module Gatt {

  type byte = n: nat | n < 0x100
  type u16 = n: nat | n < 0x1_0000

  /** A canonical (big-endian) 128-bit UUID. */
  type Uuid = u: seq<byte> | |u| == 16 witness seq(16, _ => 0)

  datatype Option<+T> = None | Some(value: T)
  datatype Result<+T, +E> = Success(value: T) | Failure(error: E)

  /** `id()` is the generation. It is a Rust u64 drawn from a process-wide counter; its wrap is not modelled. */
  datatype Connection = Connection(handle: u16, generation: nat, mtu: u16)

  datatype GattStatus =
    | ReadNotPermitted
    | WriteNotPermitted
    | InvalidOffset
    | RequestNotSupported
    | InvalidValueLength
    | UnlikelyError
    | ValueNotAllowed
  {
    function Code(): byte {
      match this
      case ReadNotPermitted => 2
      case WriteNotPermitted => 3
      case InvalidOffset => 7
      case RequestNotSupported => 6
      case InvalidValueLength => 13
      case UnlikelyError => 14
      case ValueNotAllowed => 19
    }
  }

  const READ: bv16 := 2
  const WRITE_WITHOUT_RESPONSE: bv16 := 4
  const WRITE: bv16 := 8
  const ANY_WRITE: bv16 := 12
  const NOTIFY: bv16 := 16

  predicate Has(properties: bv16, bits: bv16) {
    properties & bits != 0
  }

  /** Handlers are oracles: a characteristic only records whether it has them. */
  datatype Characteristic = Characteristic(uuid: Uuid, properties: bv16, readable: bool, writable: bool)

  datatype Service = Service(uuid: Uuid, characteristics: seq<Characteristic>)

  /** A characteristic with the value handle that BTstack's attribute database gave it. */
  datatype Attribute = Attribute(handle: u16, characteristic: Characteristic)

  predicate Notifies(a: Attribute) {
    Has(a.characteristic.properties, NOTIFY)
  }

  /** A peer names an attribute by its value handle or, when it can notify, by the CCCD handle after it. */
  predicate Names(a: Attribute, handle: u16) {
    a.handle == handle || (Notifies(a) && a.handle as int + 1 == handle)
  }

  function FindByHandle(db: seq<Attribute>, handle: u16): Option<Attribute> {
    if db == [] then None
    else if Names(db[0], handle) then Some(db[0])
    else FindByHandle(db[1..], handle)
  }

  function FindByUuid(db: seq<Attribute>, uuid: Uuid): Option<Attribute> {
    if db == [] then None
    else if db[0].characteristic.uuid == uuid then Some(db[0])
    else FindByUuid(db[1..], uuid)
  }

  /** What BTstack's database builder guarantees (value handles are distinct and the handle after a
      notify value belongs to no other attribute) and what `Validate` guarantees (distinct UUIDs). */
  ghost predicate WellFormed(db: seq<Attribute>) {
    && (forall i, j :: 0 <= i < j < |db| ==> db[i].handle != db[j].handle)
    && (forall i, j :: 0 <= i < |db| && 0 <= j < |db| && Notifies(db[i]) ==> db[j].handle as int != db[i].handle as int + 1)
    && (forall i, j :: 0 <= i < j < |db| ==> db[i].characteristic.uuid != db[j].characteristic.uuid)
  }

  /** In a well-formed database no handle and no UUID is ambiguous. */
  lemma AtMostOneMatch(db: seq<Attribute>, a: Attribute, b: Attribute)
    requires WellFormed(db) && a in db && b in db
    ensures forall h: u16 :: Names(a, h) && Names(b, h) ==> a == b
    ensures a.characteristic.uuid == b.characteristic.uuid ==> a == b
    ensures a.handle == b.handle ==> a == b
  {
    var i :| 0 <= i < |db| && db[i] == a;
    var j :| 0 <= j < |db| && db[j] == b;
    assert i < j || j < i || i == j;
  }

  lemma {:induction false} FoundByHandle(db: seq<Attribute>, handle: u16)
    ensures match FindByHandle(db, handle)
            case Some(a) => a in db && Names(a, handle)
            case None => forall a :: a in db ==> !Names(a, handle)
  {
    if db != [] && !Names(db[0], handle) {
      FoundByHandle(db[1..], handle);
      assert db == [db[0]] + db[1..];
    }
  }

  lemma {:induction false} FoundByUuid(db: seq<Attribute>, uuid: Uuid)
    ensures match FindByUuid(db, uuid)
            case Some(a) => a in db && a.characteristic.uuid == uuid
            case None => forall a :: a in db ==> a.characteristic.uuid != uuid
  {
    if db != [] && db[0].characteristic.uuid != uuid {
      FoundByUuid(db[1..], uuid);
      assert db == [db[0]] + db[1..];
    }
  }

  /** Both lookups return the one attribute that matches, whatever order the database lists it in. */
  lemma LookupsAreExact(db: seq<Attribute>, a: Attribute, handle: u16)
    requires WellFormed(db) && a in db
    ensures FindByUuid(db, a.characteristic.uuid) == Some(a)
    ensures FindByHandle(db, handle) == Some(a) <==> Names(a, handle)
  {
    FoundByUuid(db, a.characteristic.uuid);
    FoundByHandle(db, handle);
    AtMostOneMatch(db, a, FindByUuid(db, a.characteristic.uuid).value);
    if Names(a, handle) {
      AtMostOneMatch(db, a, FindByHandle(db, handle).value);
    }
  }

  datatype ServerEvent =
    | Connected(connection: Connection)
    | Disconnected(connection: Connection)
    | SubscriptionChanged(connection: Connection, characteristic: Uuid, notify: bool)
    | NotificationFailed(connection: Connection, status: byte)
}
