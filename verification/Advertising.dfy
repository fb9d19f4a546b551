/** The legacy advertising encoder, proved against a parser written from the Bluetooth
    Core Specification, Vol 3 Part C section 11 (a series of length, type, data structures). */
module Advertising {
  import opened Gatt

  const MAX_LEGACY_BYTES := 31
  const USIZE_MAX := 0xFFFF_FFFF_FFFF_FFFF

  const FLAGS: byte := 0x01
  const COMPLETE_UUID128_LIST: byte := 0x07
  const COMPLETE_LOCAL_NAME: byte := 0x09

  datatype Error = EmptyName | TooLarge | ExceedsLegacyLimit

  /** What an advertisement says, independent of its encoding. */
  datatype Payload = Payload(flags: byte, services: seq<Uuid>, name: Option<seq<byte>>)

  // ----- The standard's format -----

  datatype Structure = Structure(kind: byte, data: seq<byte>)

  /** Split advertising bytes; a zero length octet ends the significant part early. */
  function Split(bytes: seq<byte>): Option<seq<Structure>> {
    if bytes == [] || bytes[0] == 0 then Some([])
    else
      var end: nat := 1 + bytes[0] as int;
      if |bytes| < end then None
      else
        match Split(bytes[end..])
        case None => None
        case Some(rest) => Some([Structure(bytes[1], bytes[2..end])] + rest)
  }

  function Reverse(s: seq<byte>): (r: seq<byte>)
    ensures |r| == |s|
    ensures forall i :: 0 <= i < |s| ==> r[i] == s[|s| - 1 - i]
  {
    if s == [] then [] else Reverse(s[1..]) + [s[0]]
  }

  lemma ReverseTwice(s: seq<byte>)
    ensures Reverse(Reverse(s)) == s
  {
  }

  /** A list of 128-bit UUIDs, least significant octet first. */
  function ParseUuids(data: seq<byte>): Option<seq<Uuid>> {
    if data == [] then Some([])
    else if |data| < 16 then None
    else
      match ParseUuids(data[16..])
      case None => None
      case Some(rest) => var u: Uuid := Reverse(data[..16]); Some([u] + rest)
  }

  /** The data types of the Assigned Numbers: flags, complete list of 128-bit UUIDs, complete local name. */
  function Interpret(structures: seq<Structure>): Option<Payload> {
    if structures == [] then Some(Payload(0, [], None))
    else
      match Interpret(structures[1..])
      case None => None
      case Some(rest) =>
        var s := structures[0];
        if s.kind == 0x01 then
          if |s.data| == 1 then Some(rest.(flags := s.data[0])) else None
        else if s.kind == 0x07 then
          match ParseUuids(s.data) {
            case None => None
            case Some(uuids) => Some(rest.(services := uuids + rest.services))
          }
        else if s.kind == 0x09 then Some(rest.(name := Some(s.data)))
        else Some(rest)
  }

  function Parse(bytes: seq<byte>): Option<Payload> {
    match Split(bytes)
    case None => None
    case Some(structures) => Interpret(structures)
  }

  // ----- The payload that a builder describes, with unbounded lengths -----

  function UuidBytes(services: seq<Uuid>): (r: seq<byte>)
    ensures |r| == 16 * |services|
  {
    if services == [] then [] else UuidBytes(services[..|services| - 1]) + Reverse(services[|services| - 1])
  }

  lemma ParseOne(u: Uuid, tail: seq<byte>, rest: seq<Uuid>)
    requires ParseUuids(tail) == Some(rest)
    ensures ParseUuids(Reverse(u) + tail) == Some([u] + rest)
  {
    var block := Reverse(u) + tail;
    assert block[..16] == Reverse(u) && block[16..] == tail;
    ReverseTwice(u);
  }

  lemma {:induction false} UuidBytesParse(services: seq<Uuid>, tail: seq<byte>, rest: seq<Uuid>)
    requires ParseUuids(tail) == Some(rest)
    ensures ParseUuids(UuidBytes(services) + tail) == Some(services + rest)
  {
    if services == [] {
      assert UuidBytes(services) + tail == tail;
      assert services + rest == rest;
    } else {
      var front, u := services[..|services| - 1], services[|services| - 1];
      var block := Reverse(u) + tail;
      ParseOne(u, tail, rest);
      UuidBytesParse(front, block, [u] + rest);
      assert UuidBytes(services) + tail == UuidBytes(front) + block;
      assert services + rest == front + ([u] + rest);
    }
  }

  function Described(name: Option<seq<byte>>, services: seq<Uuid>): seq<Structure> {
    [Structure(FLAGS, [6])] + ListOf(services) + NameOf(name)
  }

  /** Octets the structures take when no length is cut to eight bits. */
  function EncodedLength(structures: seq<Structure>): nat {
    if structures == [] then 0 else 2 + |structures[0].data| + EncodedLength(structures[1..])
  }

  predicate Encodable(name: Option<seq<byte>>, services: seq<Uuid>) {
    && (name.Some? ==> name.value != [])
    && EncodedLength(Described(name, services)) <= 31
  }

  lemma SplitStructure(length: byte, kind: byte, data: seq<byte>, tail: seq<byte>)
    requires length == |data| + 1
    ensures Split([length, kind] + data + tail) ==
            match Split(tail) case None => None case Some(rest) => Some([Structure(kind, data)] + rest)
  {
    var bytes := [length, kind] + data + tail;
    assert bytes[|data| + 2..] == tail && bytes[2..|data| + 2] == data;
  }

  lemma {:induction false} LengthOfConcat(a: seq<Structure>, b: seq<Structure>)
    ensures EncodedLength(a + b) == EncodedLength(a) + EncodedLength(b)
  {
    if a == [] {
      assert a + b == b;
    } else {
      LengthOfConcat(a[1..], b);
      assert (a + b)[1..] == a[1..] + b;
    }
  }

  function ListOf(services: seq<Uuid>): seq<Structure> {
    if services == [] then [] else [Structure(COMPLETE_UUID128_LIST, UuidBytes(services))]
  }

  function NameOf(name: Option<seq<byte>>): seq<Structure> {
    match name case None => [] case Some(n) => [Structure(COMPLETE_LOCAL_NAME, n)]
  }

  function ListBytes(services: seq<Uuid>): seq<byte>
    requires |services| <= 1
  {
    if services == [] then [] else [17, COMPLETE_UUID128_LIST] + UuidBytes(services)
  }

  function NameBytes(name: Option<seq<byte>>): seq<byte>
    requires name.Some? ==> |name.value| <= 26
  {
    match name case None => [] case Some(n) => [|n| + 1, COMPLETE_LOCAL_NAME] + n
  }

  lemma LengthOf(name: Option<seq<byte>>, services: seq<Uuid>)
    ensures EncodedLength(Described(name, services)) ==
            3 + (if services == [] then 0 else 2 + 16 * |services|) + (if name.None? then 0 else 2 + |name.value|)
    ensures Encodable(name, services) ==> |services| <= 1 && (name.Some? ==> 1 <= |name.value| <= 26)
  {
    LengthOfConcat([Structure(FLAGS, [6])] + ListOf(services), NameOf(name));
    LengthOfConcat([Structure(FLAGS, [6])], ListOf(services));
  }

  lemma SplitName(name: Option<seq<byte>>)
    requires name.Some? ==> |name.value| <= 26
    ensures Split(NameBytes(name)) == Some(NameOf(name))
  {
    if name.Some? {
      SplitStructure(|name.value| + 1, COMPLETE_LOCAL_NAME, name.value, []);
      assert NameBytes(name) == [|name.value| + 1, COMPLETE_LOCAL_NAME] + name.value + [];
      assert NameOf(name) == [Structure(COMPLETE_LOCAL_NAME, name.value)] + [];
    }
  }

  lemma SplitList(services: seq<Uuid>, tail: seq<byte>, rest: seq<Structure>)
    requires |services| <= 1 && Split(tail) == Some(rest)
    ensures Split(ListBytes(services) + tail) == Some(ListOf(services) + rest)
  {
    if services == [] {
      assert ListBytes(services) + tail == tail && ListOf(services) + rest == rest;
    } else {
      SplitStructure(17, COMPLETE_UUID128_LIST, UuidBytes(services), tail);
    }
  }

  lemma Assoc(a: seq<byte>, b: seq<byte>, c: seq<byte>)
    ensures a + b + c == a + (b + c)
  {
  }

  lemma Regroup(list: seq<byte>, last: seq<byte>)
    ensures [2, FLAGS, 6] + list + last == [2, FLAGS] + [6] + (list + last)
  {
  }

  lemma SplitDescribed(name: Option<seq<byte>>, services: seq<Uuid>)
    requires |services| <= 1 && (name.Some? ==> |name.value| <= 26)
    ensures Split([2, FLAGS] + [6] + (ListBytes(services) + NameBytes(name))) == Some(Described(name, services))
  {
    SplitName(name);
    SplitList(services, NameBytes(name), NameOf(name));
    var tail := ListBytes(services) + NameBytes(name);
    SplitStructure(2, FLAGS, [6], tail);
    assert Described(name, services) == [Structure(FLAGS, [6])] + (ListOf(services) + NameOf(name));
  }

  lemma InterpretDescribed(name: Option<seq<byte>>, services: seq<Uuid>)
    ensures Interpret(Described(name, services)) == Some(Payload(6, services, name))
  {
    var d := Described(name, services);
    var named := NameOf(name);
    assert Interpret(named) == Some(Payload(0, [], name)) by {
      if name.Some? { assert named[1..] == []; }
    }
    var both := ListOf(services) + named;
    if services == [] {
      assert both == named;
    } else {
      assert both[1..] == named;
      UuidBytesParse(services, [], []);
      assert UuidBytes(services) + [] == UuidBytes(services) && services + [] == services;
    }
    assert d[1..] == both;
  }

  function Layout(name: Option<seq<byte>>, services: seq<Uuid>): seq<byte>
    requires |services| <= 1 && (name.Some? ==> |name.value| <= 26)
  {
    [2, FLAGS, 6] + ListBytes(services) + NameBytes(name)
  }

  /** Bytes laid out as the encoder lays them out parse back to the payload, and none was cut. */
  lemma LaidOut(name: Option<seq<byte>>, services: seq<Uuid>)
    requires |services| <= 1 && (name.Some? ==> |name.value| <= 26)
    ensures Parse(Layout(name, services)) == Some(Payload(6, services, name))
    ensures |Layout(name, services)| == EncodedLength(Described(name, services))
  {
    LengthOf(name, services);
    Regroup(ListBytes(services), NameBytes(name));
    SplitDescribed(name, services);
    InterpretDescribed(name, services);
  }

  lemma EncodableIff(name: Option<seq<byte>>, services: seq<Uuid>, length: int)
    requires length == 3 + (if services == [] then 0 else 16 * |services| + 2) + (if name.None? then 0 else |name.value| + 2)
    ensures Encodable(name, services) <==> name != Some([]) && length <= 31
  {
    LengthOf(name, services);
  }

  /** First occurrences, in order. */
  function Distinct(uuids: seq<Uuid>): seq<Uuid> {
    if uuids == [] then []
    else
      var front, last := Distinct(uuids[..|uuids| - 1]), uuids[|uuids| - 1];
      if last in front then front else front + [last]
  }

  /** Deduplication loses no UUID, repeats none, and lists them by first occurrence. */
  lemma {:induction false} DistinctKeepsFirsts(uuids: seq<Uuid>)
    ensures forall u :: u in Distinct(uuids) <==> u in uuids
    ensures forall i, j :: 0 <= i < j < |Distinct(uuids)| ==> Distinct(uuids)[i] != Distinct(uuids)[j]
    ensures forall n :: 0 <= n <= |uuids| ==> Distinct(uuids[..n]) <= Distinct(uuids)
  {
    if uuids != [] {
      var front := uuids[..|uuids| - 1];
      DistinctKeepsFirsts(front);
      assert uuids == front + [uuids[|uuids| - 1]];
      forall n | 0 <= n <= |uuids|
        ensures Distinct(uuids[..n]) <= Distinct(uuids)
      {
        if n < |uuids| { assert uuids[..n] == front[..n]; } else { assert uuids[..n] == uuids; }
      }
    }
  }

  class AdvertisingData {
    var name: Option<seq<byte>>
    var services: seq<Uuid>
    ghost var requested: seq<Uuid>

    ghost predicate Valid()
      reads this
    {
      services == Distinct(requested)
    }

    constructor ()
      ensures Valid() && name == None && requested == []
    {
      name, services, requested := None, [], [];
    }

    method LocalName(bytes: seq<byte>)
      requires Valid()
      modifies this
      ensures Valid() && name == Some(bytes) && requested == old(requested)
    {
      name := Some(bytes);
    }

    method ServiceUuid(uuid: Uuid)
      requires Valid()
      modifies this
      ensures Valid() && requested == old(requested) + [uuid] && name == old(name)
    {
      requested := requested + [uuid];
      assert requested[..|requested| - 1] == old(requested);
      if uuid !in services {
        services := services + [uuid];
      }
    }

    method Extend(data: seq<byte>) returns (r: seq<byte>)
      ensures r == data + UuidBytes(services)
    {
      r := data;
      var i := 0;
      while i < |services|
        invariant 0 <= i <= |services|
        invariant r == data + UuidBytes(services[..i])
      {
        assert services[..i + 1][..i] == services[..i];
        r := r + Reverse(services[i]);
        i := i + 1;
      }
      assert services[..i] == services;
    }

    /** The checks that precede encoding; the result is the length of the UUID structure. */
    method Measure() returns (r: Result<nat, Error>)
      ensures r.Success? <==> Encodable(name, services)
      ensures r.Success? ==> |services| <= 1 && (name.Some? ==> |name.value| <= 26)
      ensures r.Success? ==> r.value == if services == [] then 0 else 16 * |services| + 2
      ensures r.Failure? ==> (r.error == EmptyName <==> name == Some([]))
      ensures r.Failure? ==> (r.error == TooLarge <==> name != Some([]) && EncodedLength(Described(name, services)) > USIZE_MAX)
    {
      LengthOf(name, services);
      ghost var n := if name.None? then 0 else |name.value| + 2;
      EncodableIff(name, services, 3 + (if services == [] then 0 else 16 * |services| + 2) + n);
      var nameLen := 0;
      if name.Some? {
        if name.value == [] { return Failure(EmptyName); }
        if |name.value| + 2 > USIZE_MAX { return Failure(TooLarge); }
        nameLen := |name.value| + 2;
      }
      var servicesLen := 0;
      if services != [] {
        if 16 * |services| + 2 > USIZE_MAX { return Failure(TooLarge); }
        servicesLen := 16 * |services| + 2;
      }
      if 3 + nameLen + servicesLen > USIZE_MAX { return Failure(TooLarge); }
      if 3 + nameLen + servicesLen > MAX_LEGACY_BYTES { return Failure(ExceedsLegacyLimit); }
      r := Success(servicesLen);
    }

    /** The octets after the checks, each length cast to eight bits. */
    method Encode(servicesLen: nat) returns (data: seq<byte>)
      requires |services| <= 1 && (name.Some? ==> |name.value| <= 26)
      requires servicesLen == if services == [] then 0 else 16 * |services| + 2
      ensures data == Layout(name, services)
    {
      data := [2, 1, 6];
      if services != [] {
        assert servicesLen - 1 == 17;
        data := data + [(servicesLen - 1) % 0x100, COMPLETE_UUID128_LIST];
        data := Extend(data);
        Assoc([2, FLAGS, 6], [17, COMPLETE_UUID128_LIST], UuidBytes(services));
      }
      ghost var front := data;
      assert front == [2, FLAGS, 6] + ListBytes(services);
      if name.Some? {
        var length := |name.value| + 1;
        data := data + [length % 0x100, COMPLETE_LOCAL_NAME];
        data := data + name.value;
        Assoc(front, [length, COMPLETE_LOCAL_NAME], name.value);
      }
      assert data == front + NameBytes(name);
    }

    /** Succeeds exactly when the payload is encodable; the parser then recovers it, and nothing is truncated. */
    method ToBytes() returns (r: Result<seq<byte>, Error>)
      requires Valid()
      ensures r.Success? <==> Encodable(name, Distinct(requested))
      ensures r.Success? ==>
                && Parse(r.value) == Some(Payload(6, Distinct(requested), name))
                && |r.value| == EncodedLength(Described(name, Distinct(requested))) <= 31
      ensures r.Failure? ==> (r.error == EmptyName <==> name == Some([]))
      ensures r.Failure? ==> (r.error == TooLarge <==> name != Some([]) && EncodedLength(Described(name, Distinct(requested))) > USIZE_MAX)
    {
      var measured := Measure();
      if measured.Failure? { return Failure(measured.error); }
      var data := Encode(measured.value);
      LaidOut(name, services);
      r := Success(data);
    }
  }
}
