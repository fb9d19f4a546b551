/** Server configuration: the characteristic builder, and validation before any HCI traffic. */
module Configuration {
  import opened Gatt
  import Advertising

  /** A characteristic under construction. Builders OR property bits in and register handlers. */
  class CharacteristicBuilder {
    const uuid: Uuid
    var properties: bv16
    var hasRead: bool
    var hasWrite: bool

    constructor (uuid: Uuid)
      ensures this.uuid == uuid && Built() == Characteristic(uuid, 0, false, false)
    {
      this.uuid := uuid;
      properties, hasRead, hasWrite := 0, false, false;
    }

    function Built(): Characteristic
      reads this
    {
      Characteristic(uuid, properties, hasRead, hasWrite)
    }

    method Allow(bits: bv16)
      modifies this`properties
      ensures Built() == old(Built()).(properties := old(properties) | bits)
    {
      properties := properties | bits;
    }

    method Read()
      modifies this`properties
      ensures Built() == old(Built()).(properties := old(properties) | 0x02)
    {
      Allow(READ);
    }

    method Write()
      modifies this`properties
      ensures Built() == old(Built()).(properties := old(properties) | 0x08)
    {
      Allow(WRITE);
    }

    method WriteWithoutResponse()
      modifies this`properties
      ensures Built() == old(Built()).(properties := old(properties) | 0x04)
    {
      Allow(WRITE_WITHOUT_RESPONSE);
    }

    method Notify()
      modifies this`properties
      ensures Built() == old(Built()).(properties := old(properties) | 0x10)
    {
      Allow(NOTIFY);
    }

    method OnRead()
      modifies this`hasRead
      ensures Built() == old(Built()).(readable := true)
    {
      hasRead := true;
    }

    method OnWrite()
      modifies this`hasWrite
      ensures Built() == old(Built()).(writable := true)
    {
      hasWrite := true;
    }
  }

  /** Allowing one access never withdraws another. */
  lemma AllowOnlyAdds(properties: bv16, bits: bv16, b: bv16)
    ensures Has(properties | bits, b) <==> Has(properties, b) || Has(bits, b)
  {
    assert (properties | bits) & b == (properties & b) | (bits & b);
  }

  datatype Error =
    | BadName
    | NoServices
    | EmptyService
    | DuplicateUuid
    | MissingHandler
    | TooMany
    | Advertisement(error: Advertising.Error)

  function Flatten(services: seq<Service>): seq<Characteristic> {
    if services == [] then []
    else Flatten(services[..|services| - 1]) + services[|services| - 1].characteristics
  }

  predicate Served(c: Characteristic) {
    && c.properties != 0
    && (Has(c.properties, 0x02) ==> c.readable)
    && (Has(c.properties, 0x04) ==> c.writable)
    && (Has(c.properties, 0x08) ==> c.writable)
  }

  /** One test for both kinds of write. */
  lemma HandlersChecked(c: Characteristic)
    ensures Served(c) <==>
            !(c.properties == 0 || (Has(c.properties, READ) && !c.readable) || (Has(c.properties, ANY_WRITE) && !c.writable))
  {
    assert c.properties & 12 == 0 <==> c.properties & 4 == 0 && c.properties & 8 == 0;
  }

  ghost predicate DistinctUuids(cs: seq<Characteristic>) {
    forall i, j :: 0 <= i < j < |cs| ==> cs[i].uuid != cs[j].uuid
  }

  /** The documented limits, said without reference to the order in which they are checked. */
  ghost predicate Acceptable(name: seq<byte>, services: seq<Service>) {
    && 1 <= |name| <= 26
    && 1 <= |services| <= 16
    && (forall i :: 0 <= i < |services| ==> services[i].characteristics != [])
    && |Flatten(services)| <= 64
    && DistinctUuids(Flatten(services))
    && (forall c :: c in Flatten(services) ==> Served(c))
  }

  lemma {:induction false} FlattenPrefix(services: seq<Service>, n: nat)
    requires n <= |services|
    ensures Flatten(services[..n]) <= Flatten(services)
    decreases |services|
  {
    if n == |services| {
      assert services[..n] == services;
    } else {
      var front := services[..|services| - 1];
      FlattenPrefix(front, n);
      assert front[..n] == services[..n];
    }
  }

  /** One step further along the scan of service `i`. */
  lemma FlattenStep(services: seq<Service>, i: nat, k: nat)
    requires i < |services| && k <= |services[i].characteristics|
    ensures Flatten(services[..i]) + services[i].characteristics[..k] <= Flatten(services)
  {
    FlattenPrefix(services, i + 1);
    assert services[..i + 1][..i] == services[..i];
  }

  ghost predicate Scanned(cs: seq<Characteristic>, uuids: set<Uuid>, count: nat) {
    && count == |cs|
    && DistinctUuids(cs)
    && (forall u :: u in uuids <==> exists j :: 0 <= j < |cs| && cs[j].uuid == u)
    && (forall c :: c in cs ==> Served(c))
  }

  lemma ScannedStep(seen: seq<Characteristic>, uuids: set<Uuid>, count: nat, c: Characteristic)
    requires Scanned(seen, uuids, count)
    ensures c.uuid in uuids <==> !DistinctUuids(seen + [c])
    ensures c.uuid !in uuids && Served(c) ==> Scanned(seen + [c], uuids + {c.uuid}, count + 1)
  {
    var next := seen + [c];
    assert next[|seen|] == c;
    assert forall j :: 0 <= j < |seen| ==> next[j] == seen[j];
    if c.uuid in uuids {
      var j :| 0 <= j < |seen| && seen[j].uuid == c.uuid;
      assert next[j].uuid == next[|seen|].uuid;
    }
  }

  /** What each refusal says about the configuration. */
  ghost predicate Explains(e: Error, name: seq<byte>, services: seq<Service>) {
    match e
    case BadName => !(1 <= |name| <= 26)
    case NoServices => services == []
    case EmptyService => exists i :: 0 <= i < |services| && services[i].characteristics == []
    case DuplicateUuid => !DistinctUuids(Flatten(services))
    case MissingHandler => exists c :: c in Flatten(services) && !Served(c)
    case TooMany => |Flatten(services)| > 64 || |services| > 16
    case Advertisement(_) => false
  }

  lemma Refusals(name: seq<byte>, services: seq<Service>, seen: seq<Characteristic>, c: Characteristic)
    requires seen + [c] <= Flatten(services)
    ensures !DistinctUuids(seen + [c]) ==> Explains(DuplicateUuid, name, services)
    ensures !Served(c) ==> Explains(MissingHandler, name, services)
  {
    assert c == Flatten(services)[|seen|];
  }

  /** The nested loop accepts exactly `Acceptable`, and then the closing encode cannot fail. */
  method Validate(name: seq<byte>, services: seq<Service>) returns (r: Result<seq<byte>, Error>)
    ensures r.Success? <==> Acceptable(name, services)
    ensures r.Success? ==> Advertising.Parse(r.value) == Some(Advertising.Payload(6, [], Some(name)))
    ensures r.Failure? ==> Explains(r.error, name, services)
  {
    if name == [] || |name| > 26 { return Failure(BadName); }
    if services == [] { return Failure(NoServices); }
    var uuids: set<Uuid> := {};
    var count := 0;
    var i := 0;
    while i < |services|
      invariant 0 <= i <= |services|
      invariant forall j :: 0 <= j < i ==> services[j].characteristics != []
      invariant Scanned(Flatten(services[..i]), uuids, count)
    {
      var cs := services[i].characteristics;
      ghost var before := Flatten(services[..i]);
      if cs == [] { return Failure(EmptyService); }
      var k := 0;
      assert cs[..0] == [] && before + [] == before;
      while k < |cs|
        invariant 0 <= k <= |cs|
        invariant Scanned(before + cs[..k], uuids, count)
      {
        var c := cs[k];
        ghost var seen := before + cs[..k];
        assert before + cs[..k + 1] == seen + [c];
        FlattenStep(services, i, k + 1);
        Refusals(name, services, seen, c);
        ScannedStep(seen, uuids, count, c);
        count := count + 1;
        if c.uuid in uuids { return Failure(DuplicateUuid); }
        uuids := uuids + {c.uuid};
        HandlersChecked(c);
        if c.properties == 0 || (Has(c.properties, READ) && !c.readable) || (Has(c.properties, ANY_WRITE) && !c.writable) {
          return Failure(MissingHandler);
        }
        k := k + 1;
      }
      assert cs[..k] == cs;
      assert services[..i + 1][..i] == services[..i];
      i := i + 1;
    }
    assert services[..i] == services;
    if count > 64 || |services| > 16 { return Failure(TooMany); }
    var data := new Advertising.AdvertisingData();
    data.LocalName(name);
    var bytes := data.ToBytes();
    Advertising.LengthOf(Some(name), []);
    r := Success(bytes.value);
  }

  /** The database that startup registers: the validated characteristics in order, with BTstack's handles. */
  function Database(cs: seq<Characteristic>, handles: seq<u16>): seq<Attribute>
    requires |handles| == |cs|
  {
    seq(|cs|, i requires 0 <= i < |cs| => Attribute(handles[i], cs[i]))
  }

  ghost predicate HandlesFromBuilder(cs: seq<Characteristic>, handles: seq<u16>) {
    && |handles| == |cs|
    && (forall i, j :: 0 <= i < j < |cs| ==> handles[i] != handles[j])
    && (forall i, j :: 0 <= i < |cs| && 0 <= j < |cs| && Has(cs[i].properties, NOTIFY) ==> handles[j] as int != handles[i] as int + 1)
  }

  /** Validation is what the runtime's lookups need: in the registered database every UUID and every
      value or CCCD handle matches at most one attribute, and a handler exists for each permitted access. */
  lemma ValidationSuffices(name: seq<byte>, services: seq<Service>, handles: seq<u16>)
    requires Acceptable(name, services) && HandlesFromBuilder(Flatten(services), handles)
    ensures var db := Database(Flatten(services), handles);
            && WellFormed(db)
            && (forall a :: a in db ==> Served(a.characteristic))
            && (forall a, b, h: u16 :: a in db && b in db && Names(a, h) && Names(b, h) ==> a == b)
  {
    var cs := Flatten(services);
    var db := Database(cs, handles);
    forall a, b, h: u16 | a in db && b in db && Names(a, h) && Names(b, h)
      ensures a == b
    {
      AtMostOneMatch(db, a, b);
    }
  }
}
