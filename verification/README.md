# btstack-gatt-rs: a model of the GATT runtime and proofs about it

btstack-gatt-rs runs a Bluetooth LE GATT server on BTstack. One Rust thread owns the connections, the
subscriptions, a cache of read values, a queue of notifications and a queue of posted events. A small C
bridge owns a table of sixteen send requests. API commands, HCI packets, ATT callbacks and can-send
callbacks interleave on that thread. This project models the thread and the bridge as they are written,
as classes whose fields are updated in place, and proves what holds in every state of every run.

`dafny verify dfyconfig.toml` checks everything.

## How it is laid out

| file | content |
|---|---|
| `Gatt.dfy`, `Configuration.dfy`, `Advertising.dfy` | shared values; builders and validation; the advertising encoder and a parser written from the Bluetooth Core Specification, Vol 3 Part C section 11 |
| `Bridge.dfy` | the slot table: its specification, and the class `Shim` that updates an array |
| `Server.dfy`, `Replies.dfy` | the thread's tables and the queue: what each operation does to them, and what a peer or the application is told, in octets |
| `Machine.dfy` | thread, bridge and BTstack as one state machine of small steps, with a log kept for the proofs |
| `Links.dfy`, `Tables.dfy`, `Delivery.dfy`, `Ledger.dfy`, `Stream.dfy` | the invariant, part by part, and that every step keeps it |
| `Theorems.dfy`, `Snapshots.dfy`, `Peers.dfy`, `Restarts.dfy`, `Owners.dfy` | statements about every run |
| `Limits.dfy` | concrete runs in which a property fails without its hypothesis |
| `Runtime.dfy`, `Loop.dfy` | the thread in imperative form: the class `Worker` and the loop of `run`, proved to be runs of the machine |
| `Lifecycle.dfy` | the process-wide `ACTIVE` flag: starters, workers and joins, interleaved |
| `Session.dfy` | the Android session object: the stop barrier and the run-once completion |

A run is a sequence of labels. BTstack and the application are the environment: labels carry packets'
effects, handlers' answers (a handler may answer differently each time, or panic) and `rs_notify`'s status.
A can-send callback that BTstack makes from inside `rs_request_send` or `rs_notify` is a `SlotReady` step
right after it; `Runtime.FiresAreSteps` and the methods of `Worker` show that this loses nothing.

`Loop.Run` joins the two halves. It works on the objects, assumes nothing of BTstack, and the run it makes is
exactly the one its turns prescribe (`Loop.RunLabels`): the commands obeyed and their answers, the calls made,
every event of each drain. If that run meets a theorem's hypotheses, the objects' own fields are the state the
theorem is about.

## What is assumed of BTstack

Always (it is part of `Machine.Enabled` and of the definitions):

- a request for a can-send is accepted exactly for a live link, and a slot is called back only while it waits;
- value handles are distinct, and the handle after a notify value belongs to no other attribute (`Gatt.WellFormed`);
- while commands are obeyed and while events are drained, BTstack calls back only through can-send.

By name, in `Machine.Hypotheses`, where a theorem asks for it:

- `freshLinks`: a connect event comes only for a handle that is not live;
- `sixteenLinks`: at most sixteen links at a time;
- `mtuGrows`: an MTU event never shrinks a link's MTU;
- `oneChange`: one delivered packet changes the status of at most one link, once.

## Properties that do not hold unconditionally

**Wake-ups beyond sixteen links.** `rs_request_send` returns in silence when all sixteen slots are taken,
and `btstack_config.h` defines `HAVE_MALLOC`, so nothing in the repository bounds the number of links. Both
places that call it can lose a value. `Limits.SeventeenthIsStranded`: with seventeen links, a value that
`notify` has just accepted is queued with nothing left to bring the runtime back to it.
`Limits.FlushStrandsTheNext`: every value has its wake-up, and then the repeated request of a flush finds the
table full, so the connection's next value loses it. The exact condition is on the requests:
`Delivery.WakeStepIff` for one step and `Theorems.WakeupsIff` for a whole run prove that no queued value is ever
without its wake-up if and only if every accepted command, and every flush that has more to send, finds its
handle waiting, its can-send or disconnect posted, or a slot free. `Theorems.NoLostWakeup` proves that with at
most sixteen links none is ever lost.

**`ACTIVE` and a panic outside `catch_unwind`.** After `run` and `stop_controller` the thread reports an error
with `format!("{e}")`, and later drops the handlers and the transport, with no `catch_unwind` around either.
An error of the transport is displayed by the transport's own code; if that panics, the guard clears `ACTIVE`
although `rs_deinit` never ran. `Lifecycle.CrashLeavesTheStackUp` gives the steps. `Lifecycle.StackUpIff` is
exact: with the flag clear, the stack is up if and only if the last worker past `rs_init` crashed before its
`rs_deinit`, and such a crash is the report of such an error. (Nothing between `rs_init` and the first
`catch_unwind` can unwind: it calls C and fills vectors.)

**`shutdown` as a barrier.** A `shutdown`, or a drop, on the worker's own thread cannot join: it sends Stop and
returns while the worker still runs (`Lifecycle.ShutdownInsideReturnsEarly`). `Lifecycle.ShutdownIsABarrierIff`
proves that this is the only case: a shutdown returned after its worker ended if and only if it was not called
on that worker's thread.

**A connect event for a live handle.** It overwrites the connection without purging the queue, so a value can
leave on another connection than the one it was accepted for (`Limits.ReusedHandleIsMisdirected`).
`Owners.OwnershipIff` is exact, without any hypothesis: queued values stay with their own connections throughout
a run if and only if no connect event is processed while something is queued for its handle.

**A rejected `run()`.** It leaves the session alone, unless it held the last reference to it; then, and only
then, the destructor stops it (`Session.RejectedRunDoesNotStop`).

## Model

| member | source | states |
|---|---|---|
| Theorems.NoLostWakeup | btstack-sys/c/bridge.c:109-126 | With at most sixteen links, in every reachable state every queued value has a waiting slot, a posted can-send, a posted disconnect, or its handle's flush in progress |
| Theorems.WakeupsIff | btstack-sys/c/bridge.c:114-126 | For any number of links: in a whole run no queued value is ever without its wake-up if and only if every accepted command and every flush with more to send finds its handle waiting, its can-send or disconnect posted, or a slot free |
| Delivery.WakeStepIff | btstack-core/src/runtime.rs:437-449 | The same for one step: from a state with all values awaited, the next has them awaited if and only if the step's request, if it makes one, finds room |
| Theorems.NotifyWakesIff | btstack-core/src/runtime.rs:305-312 | The request of one accepted command takes effect, for any number of links, if and only if its connection waits, its can-send is posted, or some slot is free |
| Limits.SeventeenthIsStranded | btstack-sys/c/bridge.c:114-126 | A run with seventeen links ends with an accepted, queued value that nothing will wake |
| Limits.FlushStrandsTheNext | btstack-core/src/runtime.rs:445-449 | A run in which every queued value has its wake-up reaches a flush whose repeated request is dropped, and the connection's next value is stranded |
| Theorems.FifoAndConservation | btstack-core/src/runtime.rs:406-412 | Per connection, accepted values are the dequeued ones, then the purged ones, then those pending, in order, none lost or repeated; nothing is purged while it lives, nothing is pending after; the queue holds at most 128 |
| Theorems.DisconnectPurgesOneConnection | btstack-core/src/runtime.rs:370-376 | A disconnect empties exactly its own connection's part of the queue and leaves every other connection's untouched |
| Theorems.FlushServesTheOldest | btstack-core/src/runtime.rs:406-451 | A can-send takes the oldest value of its own handle, hands it over exactly if still subscribed, reports a failure exactly if refused, and disturbs no other connection |
| Theorems.FlushAsksIffMore | btstack-core/src/runtime.rs:437-449 | After a flush the bridge is asked again exactly if more is queued for that handle, and nothing else happens |
| Theorems.TransmissionSafety | btstack-core/src/runtime.rs:413-426 | Every `rs_notify` of every run carries a value accepted for the very connection that holds the handle, which subscribes to it now, on a notify characteristic, of at most 512 octets and at most its MTU minus 3 |
| Theorems.SentToItsOwnLink | btstack-core/src/runtime.rs:342-381 | If one packet changes at most one link, no status change of that handle is unprocessed when a value is handed over, so it leaves on the link it was accepted for |
| Theorems.StaleTokensStayDead | btstack-core/src/runtime.rs:281-285 | After Disconnected(c), in any continuation a Notify carrying c is refused as inactive and nothing of c is accepted or dequeued, however often the handle is reused |
| Theorems.EventsAreACompleteLog | btstack-core/src/runtime.rs:362-376 | Replaying the emitted events rebuilds exactly the live generations, their handles, and the enabled (generation, characteristic) pairs |
| Theorems.EventProtocol | btstack-core/src/runtime.rs:363-376 | Each connection's events are Connected, then others, then at most one Disconnected and nothing after; it is open exactly while live; ids are handed out without gap or repetition |
| Restarts.IdsNeverRepeat | btstack-core/src/runtime.rs:16 | The ids of all Connected events strictly increase over all sessions of a process, each with services of its own |
| Restarts.IdsAreConsecutive | btstack-core/src/runtime.rs:362-369 | They are exactly the counter's values, in order, over any number of sessions |
| Theorems.EventsCarryTheConnection | btstack-core/src/runtime.rs:362-376 | Each step emits at most one event, and it carries its connection exactly, MTU included: Connected as the tables hold it afterwards, Disconnected and SubscriptionChanged as they held it before, NotificationFailed as it was when the value was accepted |
| Theorems.MirrorIsTheSubscriptionTable | examples/gatt-peripheral/src/main.rs:63-93 | With one notify characteristic, the ids in the example's subscriber map over the whole stream are exactly the runtime's enabled set, each with the handle and generation of its live connection |
| Theorems.MirrorStoresTheLastSwitch | examples/gatt-peripheral/src/main.rs:70-83 | The connection stored for an id is the connection as it stood at its last accepted CCCD write, MTU included |
| Stream.Follow | examples/gatt-peripheral/src/main.rs:63-90 | The example's loop computes that map from any events |
| Stream.MirrorIsEnabledSet | examples/gatt-peripheral/src/main.rs:70-86 | For any stream of one characteristic's changes, the map's keys are the pairs that a full replay finds enabled |
| Theorems.AgreesAtPacketBoundary | btstack-core/src/runtime.rs:317-341 | Whenever the thread asks for a packet, only can-send events are queued and its connections are BTstack's links: it lags by at most one packet |
| Theorems.SlotTableAlways | btstack-sys/c/bridge.c:48-56 | Across all interleavings no two waiting slots share a handle and every waiting slot's link is live |
| Ledger.DrainTerminates | btstack-core/src/runtime.rs:342-385 | Whatever BTstack answers and posts meanwhile, a drain takes a bounded number of steps, at most the drop of a weight of events, busy slots and queue |
| Ledger.DrainStepIsLighter | btstack-core/src/runtime.rs:437-449 | Each event and each repeated request strictly lowers events + busy slots + 2 per queued value; a callback keeps it and lowers the busy slots |
| Peers.PeerIsIsolated | btstack-core/src/runtime.rs:359-380 | In any run, one peer's connected status, flags, cached values and every reply it gets are those of a machine that sees only that peer's own connects, disconnects, reads and writes |
| Peers.OthersCannotInterfere | btstack-core/src/runtime.rs:491-540 | Two sessions in which a peer does the same look the same to it, whatever the others do |
| Peers.ProjectRead | btstack-core/src/runtime.rs:487-541 | A read, seen from any one peer, is that peer's own read or nothing |
| Peers.ProjectWrite | btstack-core/src/runtime.rs:553-620 | A write, seen from any one peer, is that peer's own write or nothing |
| Snapshots.CccdReadsLastWrite | btstack-core/src/runtime.rs:500-526 | Any CCCD read, cached or not, serves the last accepted write to it since the handle last disconnected, or zero: a probe is told 2, a copy gets those octets from its offset |
| Snapshots.SnapshotIsLastCapture | btstack-core/src/runtime.rs:500-526 | In every reachable state the cached value is the handler result of the last length probe or first chunk since the last accepted write or disconnect, and nothing is cached if there was none |
| Snapshots.ChunksReassembleOneSnapshot | btstack-core/src/runtime.rs:500-539 | From any reachable state, cached, probed or not: reading at advancing offsets collects a prefix of the last capture, and exactly it once a chunk is short, whatever the handler would answer later and whatever interleaves, as long as no probe, accepted write or disconnect hits that value; while nothing is captured it collects nothing |
| Snapshots.ChunksServeTheProbe | btstack-core/src/runtime.rs:501-533 | If the value was captured before, by a probe or an earlier read, that capture is the one collected |
| Snapshots.ProbeTellsTheLength | btstack-core/src/runtime.rs:501-533 | In every session a length probe that succeeds is told exactly the length of what it captured |
| Snapshots.ProbeThenChunks | btstack-core/src/runtime.rs:527-539 | The length a probe was told is the length of what the chunks after it collect |
| Replies.ReadReplies | btstack-core/src/runtime.rs:487-541 | The reply to every read: what is available served from the offset, or 0xfe00 plus the octet of the refusal, for each way it can be refused |
| Replies.WriteStatuses | btstack-core/src/runtime.rs:553-620 | The status octet of every write |
| Replies.UnknownAttribute | btstack-core/src/runtime.rs:494-499 | An attribute the database does not have gives 0xfe02 to a read and 3 to a write, with no effect |
| Replies.StatusOctets | btstack-core/src/gatt.rs:27-37 | The octet of each status |
| Replies.RefusalsIff | btstack-core/src/runtime.rs:281-304 | When each refusal of a notification occurs: the first reason that holds, and no other |
| Snapshots.LengthsAreNotErrors | btstack-core/src/runtime.rs:519-539 | In every reachable state a successful reply's code is a length of at most 512 that fits the buffer; error codes start at 0xfe00 and carry no octets |
| Theorems.InvStep | btstack-core/src/runtime.rs:265-390 | Every step of every kind keeps the whole invariant: view, tables, boundary, wake-ups, ledger, event stream, transmissions |
| Theorems.Reaches | btstack-core/src/runtime.rs:265-390 | So every reachable state of every session has it |
| Links.LinksStep | btstack-sys/c/bridge.c:34-65 | Every step keeps: absorbing the posted events turns the runtime's view into BTstack's, and the slot table is sound |
| Links.LostLinkIsAnnounced | btstack-sys/c/bridge.c:48-56 | A link the runtime still lists but BTstack has lost has its disconnect event queued |
| Tables.TablesStep | btstack-core/src/runtime.rs:36-43 | Every step keeps: subscriptions, snapshots and queued values belong to live connections, generations are distinct, snapshots hold at most 512 octets and every cached CCCD equals its flag |
| Delivery.WakeStep | btstack-core/src/runtime.rs:437-449 | Every step keeps every queued value awaited |
| Delivery.BoundaryStep | btstack-core/src/runtime.rs:317-342 | Every step keeps: only can-send events outside packets, and at most one status event if a packet changes one link |
| Ledger.LedgerStep | btstack-core/src/runtime.rs:277-314 | Every step keeps accepted = dequeued + purged + pending for every generation, and purged generations dead |
| Stream.StreamStep | btstack-core/src/runtime.rs:584-595 | Every step keeps the replayed event stream equal to the tables |
| Stream.StageIsLifecycle | btstack-core/src/runtime.rs:363-376 | The stage automaton accepts exactly the streams of the form Connected, others, at most one Disconnected |
| Loop.Run | btstack-core/src/runtime.rs:265-390 | The whole loop: what the objects did is exactly the steps that the turns prescribe, in order, with their answers; it still runs if and only if every turn let it go on; it is a run of the machine, the slot table is sound, and if the run meets the hypotheses the objects satisfy the invariant |
| Loop.LoopGoesOnIff | btstack-core/src/runtime.rs:268-389 | For any number of turns: the loop still runs if and only if in every turn no Stop was taken, the transport could be read and written, no command failed, and by the deadline advertising had been confirmed |
| Loop.CommandsAreAnsweredOnce | btstack-core/src/runtime.rs:269-316 | While the loop runs, the commands that arrived are those answered so far, one answer each and in order, followed by those that still wait |
| Loop.TurnGoesOnIff | btstack-core/src/runtime.rs:268-389 | The same for one turn of any session |
| Loop.Serve | btstack-core/src/runtime.rs:317-389 | Every call of the packet that is a step is made, in order, then every posted event is handled; a failed send or a missed startup deadline ends the loop |
| Loop.Deliver | btstack-core/src/runtime.rs:323-338 | Exactly the enabled calls, in order |
| Loop.TakeTurn | btstack-core/src/runtime.rs:268-389 | One turn: the commands up to 128 or a Stop are obeyed and answered in order, the rest kept; then exactly the calls of the packet and the events of the drain; it continues only with the transport readable, nothing failed, the events drained and the startup deadline kept |
| Loop.Callback | btstack-sys/c/bridge.c:34-65 | Each call of BTstack into the bridge or the Rust callbacks is one step of the machine |
| Runtime.Worker.constructor | btstack-core/src/runtime.rs:102-112 | A new worker is the machine's initial state |
| Runtime.Worker.Notify | btstack-core/src/runtime.rs:179-203 | A refusal changes nothing and is the first that applies; an accepted value is queued once and logged, and what happened is a run of the machine |
| Runtime.Worker.RunCommands | btstack-core/src/runtime.rs:269-316 | Commands are obeyed in order, each Notify answered for the state its predecessors left, until Stop, 128, or none are left |
| Runtime.Worker.HandOver | btstack-core/src/runtime.rs:407-436 | The first half of a flush; the callbacks of `rs_notify` happen exactly if the value is still wanted |
| Runtime.Worker.AskForMore | btstack-core/src/runtime.rs:437-449 | The second half; the callbacks of the repeated request happen exactly if there is more and BTstack takes the request |
| Runtime.Worker.FlushNotification | btstack-core/src/runtime.rs:406-451 | The head event is consumed, and both halves with their callbacks are exactly the steps given, all of them drain steps of the machine |
| Runtime.Worker.HandleEvent | btstack-core/src/runtime.rs:343-383 | Every other event is exactly one step, and ends `run` exactly on a failed command or failed advertising |
| Runtime.Worker.OnConnect | btstack-core/src/runtime.rs:362-369 | Takes the next generation, stores the connection and emits Connected |
| Runtime.Worker.OnDisconnect | btstack-core/src/runtime.rs:370-376 | Retains the other handles' rows and values and emits Disconnected if the handle was live |
| Runtime.Worker.OnMtu | btstack-core/src/runtime.rs:377-379 | Changes the MTU of a live connection and nothing else |
| Runtime.Worker.Drain | btstack-core/src/runtime.rs:342-385 | The drain loop handles every posted event in order until none is left or one is an error, ends within a bounded number of steps, and is a run of the machine |
| Runtime.EventIsARun | btstack-core/src/runtime.rs:342-385 | Handling any one event, with all its callbacks, is a run of drain steps and lowers the weight |
| Runtime.Worker.Read | btstack-core/src/runtime.rs:480-543 | The read callback on the object is the read of the specification, state and reply |
| Runtime.Worker.Write | btstack-core/src/runtime.rs:545-621 | The write callback on the object is the write of the specification, state, code and event |
| Runtime.FlushIsARun | btstack-core/src/runtime.rs:406-451 | A flush with callbacks at both places is a sequence of small steps |
| Runtime.FiresAreSteps | btstack-sys/c/bridge.c:109-113 | Callbacks made from inside a call are enabled steps right after it |
| Server.AdmitsIff | btstack-core/src/runtime.rs:281-306 | A value is accepted if and only if its token is live, its characteristic is subscribed, it is empty or fits the current MTU minus 3, and the queue has room; it is queued for the connection as it is now |
| Server.WritesIff | btstack-core/src/runtime.rs:553-620 | A write succeeds if and only if it is whole, its connection is live, and it is a value its handler accepts or one of the two CCCD values; then its snapshot is gone and a CCCD's flag is the written one; otherwise nothing changes, and prepared or offset writes depend on no handler |
| Server.ReadsIff | btstack-core/src/runtime.rs:487-541 | A read succeeds if and only if its connection is live and a value, cached or freshly captured, reaches its offset |
| Server.ReadCases | btstack-core/src/runtime.rs:487-541 | A read leaves the tables alone or records one value of at most 512 octets under its own key |
| Server.WriteCases | btstack-core/src/runtime.rs:553-620 | A write is refused without effect, or switches one subscription, or drops one snapshot after a live peer's value of at most 512 octets was accepted by its handler |
| Bridge.RequestIsNeverLost | btstack-sys/c/bridge.c:114-126 | With at most sixteen live links a live link always waits after asking (pigeonhole) |
| Bridge.RequestLostIffTableFull | btstack-sys/c/bridge.c:117-125 | Without the bound, a request is lost if and only if no slot is free |
| Bridge.RequestKeepsSlots | btstack-sys/c/bridge.c:114-126 | A request keeps the table sound and forgets no waiting handle |
| Bridge.FireKeepsSlots | btstack-sys/c/bridge.c:109-113 | A callback keeps the table sound; exactly its own handle stops waiting, and that handle's can-send is posted |
| Bridge.FireIsOneForOne | btstack-sys/c/bridge.c:109-113 | It frees exactly one slot, posts exactly one event, for that slot's handle, and touches no other slot |
| Bridge.Shim.RequestSend | btstack-sys/c/bridge.c:114-126 | Both scans of the array, the claim, the rejection and callbacks before returning, as one update of the table |
| Bridge.Shim.CanSendNow | btstack-sys/c/bridge.c:109-113 | The callback on the array |
| Bridge.ResultsArePosted | btstack-sys/c/bridge.c:41-47 | A completion of opcode 0x200a is posted if and only if advertising was requested, a failure of any command always and after it, and nothing else |
| Bridge.Shim.OnCommandComplete | btstack-sys/c/bridge.c:41-47 | Posts the advertising result if advertising was requested, and a failure for any non-zero status, in that order |
| Bridge.Shim.OnDisconnectionComplete | btstack-sys/c/bridge.c:48-56 | Frees every slot with that handle and posts one disconnect |
| Bridge.Shim.constructor | btstack-sys/c/bridge.c:67-71 | All slots free and advertising not requested |
| Bridge.Shim.Start | btstack-sys/c/bridge.c:103 | Advertising is requested, so its completion will be reported |
| Limits.ReusedHandleIsMisdirected | btstack-core/src/runtime.rs:362-369 | A run in which a live handle connects again sends a value accepted for the earlier connection to the later one |
| Owners.OwnershipIff | btstack-core/src/runtime.rs:362-376 | With no hypothesis at all: queued values stay with their own connections throughout a run if and only if no connect event is processed while something is queued for its handle |
| Owners.OwnedMeansNoneMisdirected | btstack-core/src/runtime.rs:406-425 | Then every value ever given to `rs_notify` went to the connection that it was accepted for |
| Restarts.ReadyMeansAdvertising | btstack-core/src/runtime.rs:345-358 | The ready message is sent only after a status-0 completion of opcode 0x200a, and in a session that goes on, with its events handled, it has been sent if and only if there was one |
| Restarts.FailureEndsTheSession | btstack-core/src/runtime.rs:342-383 | With the events handled, a session is over if and only if it was told to stop or some command completed with a failure |
| Lifecycle.OneRuntimeAtATime | btstack-core/src/runtime.rs:83-101 | Over any interleaving at most one worker is between `rs_init` and `rs_deinit`, and the flag is set exactly while some call or worker holds it |
| Lifecycle.StackUpIff | btstack-core/src/runtime.rs:133-152 | With the flag clear, the stack is up if and only if the last worker past `rs_init` crashed before its `rs_deinit`; every such crash is the report of an error whose own code panics |
| Lifecycle.ClearMeansReleased | btstack-core/src/runtime.rs:146-150 | While the flag is clear every transport has been released except by crashed workers, and with no crash the stack is down |
| Lifecycle.CrashLeavesTheStackUp | btstack-core/src/runtime.rs:142-145 | A transport error whose Display panics clears the flag with the stack up |
| Lifecycle.CrashInTeardown | btstack-core/src/runtime.rs:149-150 | A handler whose destructor panics clears the flag with the stack down and the transport not yet emptied |
| Lifecycle.StartAndShutdown | btstack-core/src/runtime.rs:153-174 | Ok only after the status-0 completion; a failing start that spawned a worker, and a joining shutdown, return only after that worker ended |
| Lifecycle.ShutdownIsABarrierIff | btstack-core/src/runtime.rs:204-218 | Over all runs a shutdown returned after its worker ended if and only if it was not called on that worker's thread, and then the worker is over for good |
| Lifecycle.ShutdownInsideReturnsEarly | btstack-core/src/runtime.rs:205-211 | A run in which a handler's shutdown, or drop, returns while its worker serves |
| Lifecycle.BusyStartIsHarmless | btstack-core/src/runtime.rs:83-88 | A refused start leaves no trace: the run without it is a run too, and leads to the same state but for its own answer |
| Lifecycle.CallsTellTheirStory | btstack-core/src/runtime.rs:153-174 | Over all runs a start is failing, or has failed, if and only if it gave up waiting; has returned Ok if and only if it received the ready message; and is shut down if and only if it was asked to be |
| Lifecycle.ReadyIff | btstack-core/src/runtime.rs:345-358 | A waiting start can return Ok if and only if opcode 0x200a completed with status 0; no worker goes on serving after a command failed |
| Lifecycle.WorkersTellTheirStory | btstack-core/src/runtime.rs:133-152 | A transport is held from the spawn until its worker empties it; a worker can crash before `rs_deinit` if and only if some error that was to be reported has code that panics, and it reports none if and only if nothing failed |
| Session.StopIsABarrier | examples/gatt-peripheral-android/native/src/lib.rs:92-98 | Whenever any of any number of stop() calls has returned, or a run() that held the completion is over, the worker has terminated |
| Session.ReferencesAreCounted | examples/gatt-peripheral-android/native/src/lib.rs:101-111 | Over all runs: while a reference is left, those taken by the session, futures and callers are those left, those given back, and those of futures that are over; and the destructor has begun its stop() if and only if none is left |
| Session.LastReferenceStops | examples/gatt-peripheral-android/native/src/lib.rs:107-111 | Once every reference taken has been given back, the destructor has entered stop() |
| Session.FutureStopsIff | examples/gatt-peripheral-android/native/src/lib.rs:86-106 | A future stops the session if and only if it held the completion and is over or being dropped |
| Session.SessionTellsItsStory | examples/gatt-peripheral-android/native/src/lib.rs:79-111 | The worker lives until it ends, the join handle is there until taken and exactly the first to lock the mutex joins, the completion is there until polled; a caller is in stop() from its call, or its future's drop, to its return; a future is what its own steps made of it |
| Session.RunObtainsCompletionOnce | examples/gatt-peripheral-android/native/src/lib.rs:79-85 | At most one run() ever obtains the completion |
| Session.RejectedRunDoesNotStop | examples/gatt-peripheral-android/native/src/lib.rs:80-86 | In any run a poll is rejected exactly when the completion is gone, leaves flag, handle, lock and worker alone, and begins a stop() if and only if it held the last reference |
| Session.RejectedRunHasNoGuard | examples/gatt-peripheral-android/native/src/lib.rs:80-86 | However a run goes on, a rejected run() never calls stop() itself |
| Session.FlagTellsOfAStop | examples/gatt-peripheral-android/native/src/lib.rs:92-94 | The flag is set if and only if some caller of stop() is past its first line |
| Session.StopNeverDeadlocks | examples/gatt-peripheral-android/native/src/lib.rs:92-111 | While a stop() is in progress some step of a stop(), or the end of a worker that has been told to stop, can happen |
| Session.NativeServer.TakeWorker | examples/gatt-peripheral-android/native/src/lib.rs:95 | Locks the mutex and empties the join handle, as one step of the protocol |
| Session.NativeServer.Stop | examples/gatt-peripheral-android/native/src/lib.rs:92-98 | stop() on the object, whatever other threads do before it gets the lock and while it joins: when it returns the worker is over, the handle is gone and the flag is set |
| Session.NativeServer.RunFuture | examples/gatt-peripheral-android/native/src/lib.rs:79-88 | run() on the object, with any interference: it obtains the completion exactly if it was there; if so the worker is over when it ends, otherwise the flag is as before |
| Session.NativeServer.TakeCompletion | examples/gatt-peripheral-android/native/src/lib.rs:80-86 | Empties the completion; a run() that finds it gone drops its reference |
| Advertising.AdvertisingData.ToBytes | btstack-core/src/advertising.rs:34-73 | Succeeds if and only if a name, if any, is not empty and the true length is at most 31; then a parser written from the standard recovers flags 6, the distinct UUIDs in order and the name, and no length is truncated |
| Advertising.AdvertisingData.Measure | btstack-core/src/advertising.rs:35-60 | The length arithmetic accepts exactly the encodable payloads, whose lengths all fit an octet |
| Advertising.AdvertisingData.Encode | btstack-core/src/advertising.rs:61-72 | The octets written are the layout, with no cast losing a bit |
| Advertising.AdvertisingData.ServiceUuid | btstack-core/src/advertising.rs:26-31 | Keeps the list equal to the distinct UUIDs requested so far |
| Advertising.AdvertisingData.LocalName | btstack-core/src/advertising.rs:18-21 | Sets the name and leaves the services |
| Advertising.DistinctKeepsFirsts | btstack-core/src/advertising.rs:26-31 | Deduplication loses none, repeats none, and keeps the order of first occurrence |
| Advertising.UuidBytesParse | btstack-core/src/advertising.rs:64-66 | Any number of UUIDs in reversed octet order parses back |
| Advertising.LaidOut | btstack-core/src/advertising.rs:61-72 | The encoder's layout parses back to the payload, and its size is the structures' true length |
| Configuration.Validate | btstack-core/src/gatt.rs:138-170 | The nested loop accepts exactly the declarative predicate; each refusal is true of the configuration; on acceptance the closing encode succeeds and parses back to the name |
| Configuration.ValidationSuffices | btstack-core/src/runtime.rs:117-131 | In the database registered from a valid configuration every UUID, value handle and CCCD handle matches at most one attribute, and every permitted access has its handler |
| Configuration.AllowOnlyAdds | btstack-core/src/gatt.rs:72-87 | Or-ing in property bits grants exactly those bits and withdraws none |
| Configuration.CharacteristicBuilder.Allow | btstack-core/src/gatt.rs:72-87 | A property builder changes only the property bits |
| Gatt.LookupsAreExact | btstack-core/src/runtime.rs:494-497 | In a well-formed database both lookups return the one attribute that matches, in whatever order it is listed |
| Gatt.AtMostOneMatch | btstack-core/src/runtime.rs:571-574 | No handle, value or CCCD, and no UUID is ambiguous |

## Left out

- BTstack itself (HCI, L2CAP, the ATT server, the attribute database builder): it appears only through the assumptions above.
- The status octet of a disconnection-complete event: the bridge ignores it, and the model takes each such event as the end of the link.
- `event_handler`'s checks of packet type and size: the model starts from the decoded event.
- The shutdown loop `stop_controller`: BTstack may still call back after `run` returned, but posted events are no longer drained, so no theorem says that every connection gets a Disconnected event. `rs_stop` clearing the advertising request is not modelled; nothing reads the events it would suppress.
- Clocks: the startup deadline is an input of a turn, and the timeouts of `start` are steps that may happen at any time. The 3-second wait of `notify` is not modelled: the model's result is the worker's answer, and the API can report a timeout for a value that is queued all the same.
- The bounded command channel: a command refused because the channel is full, or because `notify` was called from a handler, never reaches the worker; a closed channel ends the loop like Stop.
- A dropped receiver of `ServerEvent`s: sending to it fails silently in the source; the model keeps all emitted events. The Error event of a failed session is not modelled.
- Wrap-around of the 64-bit connection counter, and of a value handle at 65535.
- Handler bodies: they are oracles. A caught handler panic is an outcome that leaves the tables alone.
- Raw pointers and buffers: a buffer is its size, and a reply is the octets copied.
- Names as UTF-8: a name is its octets.
- `validate_packet`, command-line arguments, the USB transport in `btstack-nusb`, tracing and output, the Kotlin application, build scripts and the Python check: input and output, or single-function checks.
- `examples/gatt-peripheral-android/native/src/android.rs`: it repeats the subscriber map of the command-line example.
- A panic while the thread unwinds or while its thread-locals are destroyed, which aborts the process.
- The lifecycle of `ACTIVE` is modelled on values as interleaved atomic steps, not as a class: its state lives in an atomic, thread-locals and channels, not in one object.
- `StopOnDrop`, `Drop` and joins are steps of the protocol; that the operating system lets a ready step happen is not modelled.
- `GattService` only collects characteristics: the model starts from the collected list.
