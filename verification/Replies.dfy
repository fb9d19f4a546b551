/** What a peer and the application are told, in the octets of the Attribute Protocol, whatever the order of
    the checks. */
module Replies {
  import opened Gatt
  import opened Server

  lemma StatusOctets()
    ensures ReadNotPermitted.Code() == 2 && WriteNotPermitted.Code() == 3 && RequestNotSupported.Code() == 6
    ensures InvalidOffset.Code() == 7 && InvalidValueLength.Code() == 13 && UnlikelyError.Code() == 14
    ensures ValueNotAllowed.Code() == 19
  {
  }

  // ----- Reads -----

  /** A reply that serves `value`: a length probe gets the whole length, a copy as much as fits from the offset. */
  predicate Serves(r: Reply, value: seq<byte>, offset: u16, buffer: Option<u16>) {
    if offset > |value| then r == Reply(0xfe07, [])
    else if buffer.None? then r.code == |value| && r.bytes == []
    else
      && r.code == |r.bytes| && r.bytes <= value[offset..] && |r.bytes| <= buffer.value
      && (|r.bytes| == buffer.value || offset + |r.bytes| == |value|)
  }

  lemma AnswerServes(value: seq<byte>, offset: u16, buffer: Option<u16>)
    requires |value| <= 512
    ensures Serves(Answer(value, offset, buffer), value, offset, buffer)
  {
  }

  /** A read of a live peer serves the value available to it; it has the status of the refusal otherwise. */
  lemma ReadReplies(db: seq<Attribute>, st: State, handle: u16, a: Attribute, attribute: u16, offset: u16, buffer: Option<u16>,
                    outcome: ReadOutcome)
    requires WellFormed(db) && a in db && Names(a, attribute)
    requires forall k :: k in st.snapshots ==> |st.snapshots[k]| <= 512
    ensures var r := Read(db, st, handle, attribute, offset, buffer, outcome).1;
            var calls := a.handle == attribute && !(buffer.Some? && (handle, attribute) in st.snapshots);
            if handle !in st.connections then r == Reply(0xfe0e, [])
            else if !calls then exists value :: Available(st, handle, a, attribute, buffer, outcome, value) && Serves(r, value, offset, buffer)
            else if !a.characteristic.readable then r == Reply(0xfe02, [])
            else match outcome
                 case Returns(value) => if |value| <= 512 then Serves(r, value, offset, buffer) else r == Reply(0xfe0d, [])
                 case ReadRefused(status) => r == Reply(0xfe00 + status.Code() as int, [])
                 case ReadPanics => r == Reply(0xfe0e, [])
  {
    LookupsAreExact(db, a, attribute);
    if handle in st.connections {
      var cached := buffer.Some? && (handle, attribute) in st.snapshots;
      var value := if cached then st.snapshots[(handle, attribute)]
                   else if a.handle != attribute then Flag(Subscribed(st.subscriptions, handle, a.handle))
                   else if outcome.Returns? then outcome.value else [];
      if |value| <= 512 { AnswerServes(value, offset, buffer); }
      assert cached || a.handle != attribute ==> Available(st, handle, a, attribute, buffer, outcome, value);
    }
  }

  // ----- Writes -----

  /** The status of every write to an attribute, as an octet. */
  lemma WriteStatuses(db: seq<Attribute>, st: State, handle: u16, a: Attribute, attribute: u16, mode: u16, offset: u16,
                      value: seq<byte>, outcome: WriteOutcome)
    requires WellFormed(db) && a in db && Names(a, attribute)
    ensures Write(db, st, handle, attribute, mode, offset, value, outcome).code ==
            if mode != 0 then 6
            else if offset != 0 then 7
            else if handle !in st.connections then 14
            else if a.handle != attribute then
              if value == [0, 0] || value == [1, 0] then 0 else if |value| == 2 then 19 else 13
            else if |value| > 512 then 13
            else if !a.characteristic.writable then 3
            else match outcome case Accepts => 0 case WriteRefused(status) => status.Code() case WritePanics => 14
  {
    LookupsAreExact(db, a, attribute);
    if |value| == 2 { assert value == [value[0], value[1]]; }
  }

  /** An attribute that the database does not have can be neither read nor written. */
  lemma UnknownAttribute(db: seq<Attribute>, st: State, handle: u16, attribute: u16, offset: u16, buffer: Option<u16>,
                         answer: ReadOutcome, value: seq<byte>, verdict: WriteOutcome)
    requires handle in st.connections && forall a :: a in db ==> !Names(a, attribute)
    ensures Read(db, st, handle, attribute, offset, buffer, answer) == (st, Reply(0xfe02, []))
    ensures Write(db, st, handle, attribute, 0, 0, value, verdict) == Written(st, 3, [])
  {
    FoundByHandle(db, attribute);
  }

  // ----- Notifications -----

  predicate Live(st: State, c: Connection) {
    c.handle in st.connections && st.connections[c.handle].generation == c.generation
  }

  predicate Fits(value: seq<byte>, mtu: u16) {
    value == [] || |value| + 3 <= mtu
  }

  /** When each refusal occurs: a value is refused for the first reason that holds, and for no other. */
  lemma RefusalsIff(db: seq<Attribute>, st: State, c: Connection, uuid: Uuid, value: seq<byte>)
    requires WellFormed(db)
    ensures var r := Admit(db, st, c, uuid, value);
            && (r == Failure(NotActive) <==> !Live(st, c))
            && (r == Failure(UnknownCharacteristic) <==> Live(st, c) && forall a :: a in db ==> a.characteristic.uuid != uuid)
    ensures forall a :: a in db && a.characteristic.uuid == uuid && Live(st, c) ==>
              var r := Admit(db, st, c, uuid, value);
              var subscribed, fits := Subscribed(st.subscriptions, c.handle, a.handle), Fits(value, st.connections[c.handle].mtu);
              && (r == Failure(NotSubscribed) <==> !subscribed)
              && (r == Failure(TooLong) <==> subscribed && !fits)
              && (r == Failure(QueueFull) <==> subscribed && fits && |st.pending| >= 128)
  {
    FoundByUuid(db, uuid);
    forall a | a in db && a.characteristic.uuid == uuid
      ensures FindByUuid(db, uuid) == Some(a)
    {
      LookupsAreExact(db, a, a.handle);
    }
  }
}
