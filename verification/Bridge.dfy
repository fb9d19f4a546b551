/** The C bridge: the table of send requests, and the events it posts to the Rust side. */
module Bridge {
  import opened Gatt

  const SLOTS := 16
  const LE_SET_ADVERTISING_ENABLE: u16 := 0x200a

  /** What `rust_event(kind, handle, value)` posts, kinds 1 to 7 in order. */
  datatype Event =
    | StackWorking
    | Advertising(status: byte)
    | Connect(handle: u16, mtu: u16)
    | Disconnect(handle: u16)
    | CanSend(handle: u16)
    | CommandFailed(opcode: u16, status: byte)
    | MtuExchanged(handle: u16, mtu: u16)

  datatype Slot = Slot(busy: bool, handle: u16)

  datatype Bridge = Bridge(slots: seq<Slot>, events: seq<Event>, advertisingRequested: bool)

  predicate Waiting(slots: seq<Slot>, handle: u16) {
    exists i :: 0 <= i < |slots| && slots[i].busy && slots[i].handle == handle
  }

  function FirstFree(slots: seq<Slot>): (i: nat)
    ensures i <= |slots|
    ensures i < |slots| ==> !slots[i].busy
    ensures forall j :: 0 <= j < i ==> slots[j].busy
  {
    if slots == [] || !slots[0].busy then 0 else 1 + FirstFree(slots[1..])
  }

  /** A handle that waits already, or that finds no free slot, leaves the table as it is. */
  predicate Registers(slots: seq<Slot>, handle: u16) {
    !Waiting(slots, handle) && FirstFree(slots) < |slots|
  }

  function Request(slots: seq<Slot>, handle: u16, accepted: bool): (r: seq<Slot>)
    ensures |r| == |slots|
  {
    if Registers(slots, handle) then slots[FirstFree(slots) := Slot(accepted, handle)] else slots
  }

  /** BTstack calls `can_send` for slot `i`; it never does so for a slot that is not waiting. */
  function Fire(b: Bridge, i: nat): Bridge {
    if i < |b.slots| && b.slots[i].busy then
      b.(slots := b.slots[i := b.slots[i].(busy := false)], events := b.events + [CanSend(b.slots[i].handle)])
    else b
  }

  function FireAll(b: Bridge, fired: seq<nat>): Bridge {
    if fired == [] then b else Fire(FireAll(b, fired[..|fired| - 1]), fired[|fired| - 1])
  }

  function Release(slots: seq<Slot>, handle: u16): (r: seq<Slot>)
    ensures |r| == |slots|
    ensures forall i :: 0 <= i < |r| ==> r[i] == if slots[i].handle == handle then slots[i].(busy := false) else slots[i]
  {
    seq(|slots|, i requires 0 <= i < |slots| => if slots[i].handle == handle then slots[i].(busy := false) else slots[i])
  }

  function Post(b: Bridge, e: Event): Bridge {
    b.(events := b.events + [e])
  }

  function CommandComplete(b: Bridge, opcode: u16, status: byte): Bridge {
    var b1 := if opcode == LE_SET_ADVERTISING_ENABLE && b.advertisingRequested then Post(b, Advertising(status)) else b;
    if status != 0 then Post(b1, CommandFailed(opcode, status)) else b1
  }

  /** A completion of LE Set Advertising Enable is posted if and only if advertising was requested, and a
      failure of any command always, after it; nothing else is, and no slot changes. */
  lemma ResultsArePosted(b: Bridge, opcode: u16, status: byte)
    ensures var es := CommandComplete(b, opcode, status).events;
            && b.events <= es && CommandComplete(b, opcode, status) == b.(events := es)
            && (Advertising(status) in es[|b.events|..] <==> opcode == 0x200a && b.advertisingRequested)
            && (CommandFailed(opcode, status) in es[|b.events|..] <==> status != 0)
            && (forall e :: e in es[|b.events|..] ==> e == Advertising(status) || e == CommandFailed(opcode, status))
            && |es| <= |b.events| + 2
            && (|es| == |b.events| + 2 ==> es[|b.events|] == Advertising(status))
  {
    var es := CommandComplete(b, opcode, status).events;
    var confirmed, failed := opcode == LE_SET_ADVERTISING_ENABLE && b.advertisingRequested, status != 0;
    assert es[|b.events|..] ==
           (if confirmed then [Advertising(status)] else []) + (if failed then [CommandFailed(opcode, status)] else []);
  }

  function DisconnectionComplete(b: Bridge, handle: u16): Bridge {
    Post(b.(slots := Release(b.slots, handle)), Disconnect(handle))
  }

  // ----- The slot table invariant -----

  /** No two waiting slots share a handle, and only live links wait. */
  ghost predicate SlotsOk(slots: seq<Slot>, live: set<u16>) {
    && |slots| == SLOTS
    && (forall i, j :: 0 <= i < j < |slots| && slots[i].busy && slots[j].busy ==> slots[i].handle != slots[j].handle)
    && (forall i :: 0 <= i < |slots| && slots[i].busy ==> slots[i].handle in live)
  }

  /** BTstack accepts a request exactly for a live link. */
  lemma RequestKeepsSlots(slots: seq<Slot>, live: set<u16>, handle: u16)
    requires SlotsOk(slots, live)
    ensures SlotsOk(Request(slots, handle, handle in live), live)
    ensures forall h :: Waiting(slots, h) ==> Waiting(Request(slots, handle, handle in live), h)
  {
    var r := Request(slots, handle, handle in live);
    var k := FirstFree(slots);
    forall h | Waiting(slots, h)
      ensures Waiting(r, h)
    {
      var i :| 0 <= i < |slots| && slots[i].busy && slots[i].handle == h;
      assert r[i] == slots[i];
    }
  }

  /** The handle whose slot fires has its can-send posted; every other waiting handle still waits. */
  lemma FireKeepsSlots(b: Bridge, live: set<u16>, i: nat)
    requires SlotsOk(b.slots, live)
    ensures SlotsOk(Fire(b, i).slots, live)
    ensures forall h :: Waiting(Fire(b, i).slots, h) <==>
                             Waiting(b.slots, h) && !(i < |b.slots| && b.slots[i].busy && b.slots[i].handle == h)
    ensures i < |b.slots| && b.slots[i].busy ==> CanSend(b.slots[i].handle) in Fire(b, i).events
  {
    forall h
      ensures Waiting(Fire(b, i).slots, h) <==>
              Waiting(b.slots, h) && !(i < |b.slots| && b.slots[i].busy && b.slots[i].handle == h)
    {
      if Waiting(b.slots, h) {
        var k :| 0 <= k < |b.slots| && b.slots[k].busy && b.slots[k].handle == h;
        if k != i { assert Fire(b, i).slots[k] == b.slots[k]; }
      }
    }
  }

  function BusyCount(slots: seq<Slot>): (n: nat)
    ensures n <= |slots|
  {
    if slots == [] then 0 else (if slots[0].busy then 1 else 0) + BusyCount(slots[1..])
  }

  lemma {:induction false} BusyCountUpdate(slots: seq<Slot>, i: nat, s: Slot)
    requires i < |slots|
    ensures BusyCount(slots[i := s]) ==
            BusyCount(slots) + (if s.busy then 1 else 0) - (if slots[i].busy then 1 else 0)
  {
    if i == 0 {
      assert slots[0 := s][1..] == slots[1..];
    } else {
      assert slots[i := s][1..] == slots[1..][i - 1 := s];
      BusyCountUpdate(slots[1..], i - 1, s);
    }
  }

  /** A firing slot frees exactly one slot and posts exactly one event, for that slot's handle. */
  lemma FireIsOneForOne(b: Bridge, i: nat)
    requires i < |b.slots| && b.slots[i].busy
    ensures BusyCount(Fire(b, i).slots) == BusyCount(b.slots) - 1
    ensures Fire(b, i).events == b.events + [CanSend(b.slots[i].handle)]
    ensures forall j :: 0 <= j < |b.slots| && j != i ==> Fire(b, i).slots[j] == b.slots[j]
  {
    BusyCountUpdate(b.slots, i, b.slots[i].(busy := false));
  }

  // ----- When a request is lost -----

  function Handles(slots: seq<Slot>): set<u16> {
    set i | 0 <= i < |slots| :: slots[i].handle
  }

  lemma HandlesSnoc(slots: seq<Slot>)
    requires slots != []
    ensures Handles(slots) == Handles(slots[..|slots| - 1]) + {slots[|slots| - 1].handle}
  {
    var front := slots[..|slots| - 1];
    forall h | h in Handles(front)
      ensures h in Handles(slots)
    {
      var i :| 0 <= i < |front| && front[i].handle == h;
      assert slots[i].handle == h;
    }
  }

  lemma {:induction false} DistinctHandles(slots: seq<Slot>)
    requires forall i, j :: 0 <= i < j < |slots| ==> slots[i].handle != slots[j].handle
    ensures |Handles(slots)| == |slots|
  {
    if slots == [] {
      assert Handles(slots) == {};
    } else {
      var front, last := slots[..|slots| - 1], slots[|slots| - 1];
      DistinctHandles(front);
      assert last.handle !in Handles(front);
      HandlesSnoc(slots);
    }
  }

  /** The pigeonhole: with at most as many live links as slots, a live link always waits after asking. */
  lemma RequestIsNeverLost(slots: seq<Slot>, live: set<u16>, handle: u16)
    requires SlotsOk(slots, live) && handle in live && |live| <= SLOTS
    ensures Waiting(Request(slots, handle, true), handle)
  {
    var r := Request(slots, handle, true);
    if FirstFree(slots) < |slots| {
      if !Waiting(slots, handle) { assert r[FirstFree(slots)].busy; }
    } else if !Waiting(slots, handle) {
      DistinctHandles(slots);
      var others := Handles(slots) + {handle};
      assert handle !in Handles(slots);
      assert others <= live;
      SubsetSize(others, live);
      assert false;
    }
  }

  lemma {:induction false} SubsetSize(a: set<u16>, b: set<u16>)
    requires a <= b
    ensures |a| <= |b|
    decreases a
  {
    if a != {} {
      var x :| x in a;
      SubsetSize(a - {x}, b - {x});
    }
  }

  /** Without that bound the condition is exact: the request is lost if and only if no slot is free. */
  lemma RequestLostIffTableFull(slots: seq<Slot>, handle: u16)
    requires !Waiting(slots, handle)
    ensures Waiting(Request(slots, handle, true), handle) <==> (exists i :: 0 <= i < |slots| && !slots[i].busy)
  {
    var r := Request(slots, handle, true);
    var k := FirstFree(slots);
    if k < |slots| {
      assert r[k].busy && r[k].handle == handle;
    }
  }

  lemma RequestWaitsIff(slots: seq<Slot>, handle: u16)
    ensures Waiting(Request(slots, handle, true), handle) <==>
              Waiting(slots, handle) || exists i :: 0 <= i < |slots| && !slots[i].busy
  {
    if !Waiting(slots, handle) { RequestLostIffTableFull(slots, handle); }
  }

  // ----- The imperative bridge -----

  class Shim {
    const slots: array<Slot>
    var events: seq<Event>
    var advertisingRequested: bool

    ghost predicate Valid()
      reads this
    {
      slots.Length == SLOTS
    }

    ghost function Abs(): Bridge
      reads this, slots
    {
      Bridge(slots[..], events, advertisingRequested)
    }

    constructor ()
      ensures Valid() && fresh(slots)
      ensures Abs() == Bridge(seq(SLOTS, _ => Slot(false, 0)), [], false)
    {
      slots := new Slot[SLOTS](_ => Slot(false, 0));
      events := [];
      advertisingRequested := false;
    }

    /** `rs_start`: from now on the completion of LE Set Advertising Enable is reported. */
    method Start()
      requires Valid()
      modifies this`advertisingRequested
      ensures Valid() && Abs() == old(Abs()).(advertisingRequested := true)
    {
      advertisingRequested := true;
    }

    /** `accepted` and `fired` are BTstack's answer: whether it takes the registration, and which
        waiting slots it calls back before it returns. */
    method RequestSend(connection: u16, accepted: bool, fired: seq<nat>)
      requires Valid()
      modifies this`events, slots
      ensures Abs() ==
              var b := old(Abs()).(slots := Request(old(slots[..]), connection, accepted));
              if accepted && Registers(old(slots[..]), connection) then FireAll(b, fired) else b
    {
      ghost var before := Abs();
      var i := 0;
      while i < SLOTS
        invariant 0 <= i <= SLOTS
        invariant forall j :: 0 <= j < i ==> !(slots[j].busy && slots[j].handle == connection)
        invariant Abs() == before
      {
        if slots[i].busy && slots[i].handle == connection {
          assert before.slots[i].busy && before.slots[i].handle == connection;
          return;
        }
        i := i + 1;
      }
      i := 0;
      while i < SLOTS
        invariant 0 <= i <= SLOTS
        invariant forall j :: 0 <= j < i ==> slots[j].busy
        invariant Abs() == before
      {
        if !slots[i].busy {
          slots[i] := Slot(true, connection);
          if accepted {
            Callbacks(fired);
          } else {
            slots[i] := slots[i].(busy := false);
          }
          assert FirstFree(before.slots) == i;
          assert accepted || slots[..] == before.slots[i := Slot(false, connection)];
          return;
        }
        i := i + 1;
      }
    }

    method Callbacks(fired: seq<nat>)
      requires Valid()
      modifies this`events, slots
      ensures Abs() == FireAll(old(Abs()), fired)
    {
      var k := 0;
      while k < |fired|
        invariant 0 <= k <= |fired|
        invariant Abs() == FireAll(old(Abs()), fired[..k])
      {
        if fired[k] < SLOTS && slots[fired[k]].busy {
          CanSendNow(fired[k]);
        }
        assert fired[..k + 1][..k] == fired[..k];
        k := k + 1;
      }
      assert fired[..k] == fired;
    }

    method CanSendNow(i: nat)
      requires Valid() && i < SLOTS && slots[i].busy
      modifies this`events, slots
      ensures Abs() == Fire(old(Abs()), i)
    {
      slots[i] := slots[i].(busy := false);
      events := events + [CanSend(slots[i].handle)];
    }

    /** The Rust side takes the oldest posted event. */
    method Take() returns (e: Event)
      requires Valid() && events != []
      modifies this`events
      ensures e == old(events)[0] && Abs() == old(Abs()).(events := old(events)[1..])
    {
      e := events[0];
      events := events[1..];
    }

    /** The cases of the event handler that only pass an event on: state, connect and MTU exchange. */
    method Forward(e: Event)
      requires Valid()
      modifies this`events
      ensures Abs() == Post(old(Abs()), e)
    {
      events := events + [e];
    }

    method OnCommandComplete(opcode: u16, status: byte)
      requires Valid()
      modifies this`events
      ensures Abs() == CommandComplete(old(Abs()), opcode, status)
    {
      if opcode == LE_SET_ADVERTISING_ENABLE && advertisingRequested { events := events + [Advertising(status)]; }
      if status != 0 { events := events + [CommandFailed(opcode, status)]; }
    }

    method OnDisconnectionComplete(handle: u16)
      requires Valid()
      modifies this`events, slots
      ensures Abs() == DisconnectionComplete(old(Abs()), handle)
    {
      var i := 0;
      while i < SLOTS
        invariant 0 <= i <= SLOTS
        invariant events == old(events)
        invariant forall j :: 0 <= j < i ==> slots[j] == Release(old(slots[..]), handle)[j]
        invariant forall j :: i <= j < SLOTS ==> slots[j] == old(slots[j])
      {
        if slots[i].handle == handle {
          slots[i] := slots[i].(busy := false);
        }
        i := i + 1;
      }
      events := events + [Disconnect(handle)];
      assert slots[..] == Release(old(slots[..]), handle);
    }
  }
}
