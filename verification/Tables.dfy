/** What every operation keeps true of the runtime's own tables. */
module Tables {
  import opened Gatt
  import opened Bridge
  import opened Server
  import opened Machine
  import opened Links

  /** Live connections sit under their own handle and have distinct generations of this session. */
  ghost predicate ConnectionsOk(cs: map<u16, Connection>, first: nat, next: nat) {
    && first <= next
    && (forall h :: h in cs ==> cs[h].handle == h && first <= cs[h].generation < next)
    && (forall h, k :: h in cs && k in cs && cs[h].generation == cs[k].generation ==> h == k)
  }

  ghost predicate NotifyHandle(db: seq<Attribute>, attribute: u16) {
    exists a :: a in db && a.handle == attribute && Notifies(a)
  }

  /** Subscriptions and snapshots exist only for live connections; only notify values are subscribed. */
  ghost predicate KeysOk(db: seq<Attribute>, live: set<u16>, subs: Subscriptions, snapshots: Snapshots) {
    && (forall k :: k in subs ==> k.0 in live && NotifyHandle(db, k.1))
    && (forall k :: k in snapshots ==> k.0 in live && |snapshots[k]| <= 512)
  }

  /** A cached CCCD value is the current subscription flag. */
  ghost predicate Coherent(db: seq<Attribute>, subs: Subscriptions, snapshots: Snapshots) {
    forall k, a :: k in snapshots && a in db && a.handle != k.1 && Names(a, k.1) ==>
      snapshots[k] == Flag(Subscribed(subs, k.0, a.handle))
  }

  ghost predicate StateOk(db: seq<Attribute>, st: State) {
    && KeysOk(db, st.connections.Keys, st.subscriptions, st.snapshots)
    && Coherent(db, st.subscriptions, st.snapshots)
  }

  /** A queued value belongs to the connection that holds its handle now, and fits its MTU. */
  ghost predicate EntryOk(db: seq<Attribute>, cs: map<u16, Connection>, grows: bool, p: Pending) {
    && p.connection.handle in cs
    && cs[p.connection.handle].generation == p.connection.generation
    && |p.value| <= 512 && |p.value| <= Payload(p.connection.mtu)
    && (grows ==> p.connection.mtu <= cs[p.connection.handle].mtu)
    && NotifyHandle(db, p.attribute)
  }

  ghost predicate PendingOk(db: seq<Attribute>, cs: map<u16, Connection>, grows: bool, ps: seq<Pending>) {
    && |ps| <= 128
    && (forall p :: p in ps ==> EntryOk(db, cs, grows, p))
  }

  ghost predicate StateInv(db: seq<Attribute>, grows: bool, first: nat, next: nat, st: State) {
    && ConnectionsOk(st.connections, first, next)
    && StateOk(db, st)
    && PendingOk(db, st.connections, grows, st.pending)
  }

  ghost predicate TablesOk(db: seq<Attribute>, hyp: Hypotheses, first: nat, s: System) {
    StateInv(db, hyp.mtuGrows, first, s.next, s.state)
  }

  // ----- Reads and writes -----

  lemma SnapshotKeepsTables(db: seq<Attribute>, st: State, h: u16, b: Attribute, attribute: u16, value: seq<byte>)
    requires WellFormed(db) && StateOk(db, st) && h in st.connections
    requires b in db && Names(b, attribute) && |value| <= MAX_VALUE
    requires b.handle != attribute ==> value == Flag(Subscribed(st.subscriptions, h, b.handle))
    ensures StateOk(db, st.(snapshots := st.snapshots[(h, attribute) := value]))
  {
    var snapshots := st.snapshots[(h, attribute) := value];
    forall k, a | k in snapshots && a in db && a.handle != k.1 && Names(a, k.1)
      ensures snapshots[k] == Flag(Subscribed(st.subscriptions, k.0, a.handle))
    {
      AtMostOneMatch(db, a, b);
    }
  }

  lemma ReadKeepsTables(db: seq<Attribute>, st: State, h: u16, attribute: u16, offset: u16, buffer: Option<u16>,
                        answer: ReadOutcome)
    requires WellFormed(db) && StateOk(db, st)
    ensures var st' := Read(db, st, h, attribute, offset, buffer, answer).0;
            && StateOk(db, st')
            && st' == st.(snapshots := st'.snapshots)
  {
    ReadCases(db, st, h, attribute, offset, buffer, answer);
    FoundByHandle(db, attribute);
    if h in st.connections && FindByHandle(db, attribute).Some? {
      var b := FindByHandle(db, attribute).value;
      var c := Capture(b, Subscribed(st.subscriptions, h, b.handle), attribute, answer);
      if c.Success? && |c.value| <= MAX_VALUE { SnapshotKeepsTables(db, st, h, b, attribute, c.value); }
    }
  }

  lemma SwitchKeepsTables(db: seq<Attribute>, st: State, h: u16, b: Attribute, attribute: u16, on: bool)
    requires WellFormed(db) && StateOk(db, st)
    requires h in st.connections && b in db && b.handle != attribute && Names(b, attribute)
    ensures StateOk(db, Switch(st, h, b, attribute, on).state)
  {
    var st' := Switch(st, h, b, attribute, on).state;
    forall k, a | k in st'.snapshots && a in db && a.handle != k.1 && Names(a, k.1)
      ensures st'.snapshots[k] == Flag(Subscribed(st'.subscriptions, k.0, a.handle))
    {
      AtMostOneMatch(db, a, b);
    }
  }

  lemma WriteKeepsTables(db: seq<Attribute>, st: State, h: u16, attribute: u16, mode: u16, offset: u16, value: seq<byte>,
                         verdict: WriteOutcome)
    requires WellFormed(db) && StateOk(db, st)
    ensures var st' := Write(db, st, h, attribute, mode, offset, value, verdict).state;
            && StateOk(db, st')
            && st'.connections == st.connections && st'.pending == st.pending
  {
    WriteCases(db, st, h, attribute, mode, offset, value, verdict);
    FoundByHandle(db, attribute);
    if h in st.connections && FindByHandle(db, attribute).Some? && FindByHandle(db, attribute).value.handle != attribute {
      SwitchKeepsTables(db, st, h, FindByHandle(db, attribute).value, attribute, |value| == 2 && value[0] == 1);
    }
  }

  // ----- Connection events -----

  lemma EntriesSurvive(db: seq<Attribute>, grows: bool, ps: seq<Pending>, from: map<u16, Connection>, to: map<u16, Connection>)
    requires PendingOk(db, from, grows, ps)
    requires forall p :: p in ps && p.connection.handle in from ==>
               && p.connection.handle in to
               && to[p.connection.handle].generation == from[p.connection.handle].generation
               && (grows ==> from[p.connection.handle].mtu <= to[p.connection.handle].mtu)
    ensures PendingOk(db, to, grows, ps)
  {
    forall p | p in ps
      ensures EntryOk(db, to, grows, p)
    {
      assert EntryOk(db, from, grows, p);
    }
  }

  lemma ConnectKeepsTables(db: seq<Attribute>, grows: bool, first: nat, st: State, c: Connection)
    requires StateInv(db, grows, first, c.generation, st) && c.handle !in st.connections
    ensures StateInv(db, grows, first, c.generation + 1, Server.Connect(st, c))
  {
    EntriesSurvive(db, grows, st.pending, st.connections, Server.Connect(st, c).connections);
  }

  lemma DisconnectKeepsKeys(db: seq<Attribute>, st: State, h: u16)
    requires StateOk(db, st)
    ensures StateOk(db, Server.Disconnect(st, h))
  {
  }

  lemma DisconnectKeepsTables(db: seq<Attribute>, grows: bool, first: nat, next: nat, st: State, h: u16)
    requires StateInv(db, grows, first, next, st)
    ensures StateInv(db, grows, first, next, Server.Disconnect(st, h))
  {
    DisconnectKeepsKeys(db, st, h);
    WithoutMembers(st.pending, h);
    var ps := Without(st.pending, h);
    assert PendingOk(db, st.connections, grows, ps);
    EntriesSurvive(db, grows, ps, st.connections, st.connections - {h});
  }

  lemma MtuKeepsTables(db: seq<Attribute>, grows: bool, first: nat, next: nat, st: State, h: u16, m: u16)
    requires StateInv(db, grows, first, next, st)
    requires grows && h in st.connections ==> st.connections[h].mtu <= m
    ensures StateInv(db, grows, first, next, SetMtu(st, h, m))
  {
    if h in st.connections {
      EntriesSurvive(db, grows, st.pending, st.connections, SetMtu(st, h, m).connections);
    }
  }

  // ----- The queue -----

  lemma AdmittedIsOk(db: seq<Attribute>, hyp: Hypotheses, first: nat, s: System, c: Connection, uuid: Uuid, value: seq<byte>)
    requires TablesOk(db, hyp, first, s) && |value| <= MAX_VALUE
    requires Admit(db, s.state, c, uuid, value).Success?
    ensures var p := Admit(db, s.state, c, uuid, value).value;
            && EntryOk(db, s.state.connections, hyp.mtuGrows, p)
            && p.connection == s.state.connections[c.handle] && p.connection.handle == c.handle
            && p.connection.generation == c.generation
            && p.value == value && Subscribed(s.state.subscriptions, c.handle, p.attribute)
            && |s.state.pending| < MAX_PENDING
  {
  }

  lemma RemovalKeepsEntries(db: seq<Attribute>, cs: map<u16, Connection>, grows: bool, ps: seq<Pending>, i: nat)
    requires PendingOk(db, cs, grows, ps) && i < |ps|
    ensures PendingOk(db, cs, grows, RemoveAt(ps, i))
  {
    forall p | p in RemoveAt(ps, i)
      ensures p in ps
    {
    }
  }

  lemma FlushKeepsTables(db: seq<Attribute>, grows: bool, first: nat, next: nat, st: State, i: nat)
    requires StateInv(db, grows, first, next, st) && i < |st.pending|
    ensures StateInv(db, grows, first, next, st.(pending := RemoveAt(st.pending, i)))
  {
    RemovalKeepsEntries(db, st.connections, grows, st.pending, i);
  }

  lemma EventKeepsTables(db: seq<Attribute>, hyp: Hypotheses, first: nat, s: System, status: byte)
    requires TablesOk(db, hyp, first, s) && s.bridge.events != []
    requires HarmlessTo(hyp.mtuGrows, s.state.connections, s.bridge.events[0])
    ensures TablesOk(db, hyp, first, AfterEvent(s, s.bridge.events[0], status))
  {
    match s.bridge.events[0]
    case Connect(h, m) => ConnectKeepsTables(db, hyp.mtuGrows, first, s.state, Connection(h, s.next, m));
    case Disconnect(h) => DisconnectKeepsTables(db, hyp.mtuGrows, first, s.next, s.state, h);
    case MtuExchanged(h, m) => MtuKeepsTables(db, hyp.mtuGrows, first, s.next, s.state, h, m);
    case CanSend(h) =>
      var i := FirstFor(s.state.pending, h);
      if i < |s.state.pending| { FlushKeepsTables(db, hyp.mtuGrows, first, s.next, s.state, i); }
    case _ =>
  }

  lemma TablesStep(db: seq<Attribute>, hyp: Hypotheses, first: nat, s: System, l: Label)
    requires WellFormed(db) && hyp.freshLinks && LinksOk(hyp, s) && TablesOk(db, hyp, first, s) && Enabled(hyp, s, l)
    ensures TablesOk(db, hyp, first, Apply(db, s, l))
  {
    match l
    case Notify(c, uuid, value) =>
      if Admit(db, s.state, c, uuid, value).Success? { AdmittedIsOk(db, hyp, first, s, c, uuid, value); }
    case AttRead(h, a, offset, buffer, answer) => ReadKeepsTables(db, s.state, h, a, offset, buffer, answer);
    case AttWrite(h, a, mode, offset, value, verdict) =>
      WriteKeepsTables(db, s.state, h, a, mode, offset, value, verdict);
    case Process(e, status) =>
      HeadIsHarmless(hyp, s);
      EventKeepsTables(db, hyp, first, s, status);
    case _ =>
  }
}
