# A verified model of the TaskMonitor collector

`tkmcollector` takes requests from control clients and messages from monitored devices, and works
through them on an event loop: one dispatcher queue, one database queue and one queue per device, with
a registry of devices and a relational store (SQLite or PostgreSQL) behind them. Each handler is small
and hands work from queue to queue. What matters therefore shows only over whole runs: no request is
lost or answered twice, samples land under the right session, the order in which queues are served does
not show in the tables, and pending work comes to an end. This project models that machine and proves
those facts for every run.

## How the model is built

Each handler appears twice. As a *rule* it is a function from the state of one component and one request
to the new state and everything pushed or written (`HandleStore`, `HandleMonitor`, `RouteOf`, `Accept`). As a *method* of
a class it updates fields, pushes to queues and loops over rows the way the C++ does, and its contract
says that it does exactly what the rule says. What a rule means is stated apart from it, request by request
and state by state (`Commands`, `DeviceLaws`, `Answers`, `Reading`). The rules are the steps of the
`Collector` state machine; the theorems are about all its runs.

| files | subject |
|---|---|
| `protocol`, `routing`, `collector` | requests, control requests, dispatcher routing, the step system |
| `like`, `tables`, `samples`, `backend` | row selection, the tables and statements, one database request |
| `relational`, `frozen`, `replies`, `row_ids` | what every sequence of database requests keeps |
| `monitor_rules`, `device_laws`, `connections`, `lanes` | the device state machine, what each request means in each state, live connections, update lanes |
| `commands`, `answers` | what each control command does from end to end, and what its client is told |
| `queues`, `conservation`, `draining` | every queued request, no loss or double answer, termination |
| `closing`, `cleaning`, `attribution`, `ownership`, `key_reuse`, `interleaving`, `registry` | sessions, samples and devices over whole runs |
| `framing` | the descriptor wire format |
| `control_app`, `delivery` | the control program and what it has shown when it quits |
| `monitor_device`, `device_manager`, `database`, `dispatcher` | the objects, proved against the rules |
| `reading`, `positions` | reading from a monitor as events of a run |

The run is opened by `Startup`, takes external events (a control request, a monitor message, a lost
connection, a tick of a lane timer) and turns of the event loop (one request of one queue) in any order,
and each turn carries what the outside answered: which statements, connects, sends and writes
succeeded, the time, and the order in which rows were listed.

Assumptions, where the code relies on something outside the repository:

- `AsyncQueue` is FIFO and stays registered, and `SafeList` appends and removals take effect at
  `commit`. The bswinfra library is not part of this model.
- The clock is past zero where a property needs an end timestamp that is not zero.
- A connection's finaliser and destructor are one step (`Drop`), which may come at any moment while the
  connection exists, so also at any time after a Disconnect request took it off the event loop.
- A stopped timer does not tick any more; a started one ticks at any time until it is stopped.
- Status and reason texts are named constants; a request's payload travels with its action.

`Origin.ticket`, `Data.trace`, `SessionRow.serial`, `World.asked`, `World.owners`, `World.traces`,
`World.log`, `World.lost` and the causes of `ControlApp.QuitApp` only record a run. No handler reads them.

## Where the code differs from what one would expect

Each of these is kept as the code has it and stated exactly by a lemma.

- With several open sessions under one hash the back ends part: SQLite stores a sample under the first,
  PostgreSQL stores nothing (`Samples.DialectsStoreAlikeIff`). A failing check lets such rows in
  (`Relational.TwoOpenSessionsExample`).
- SQLite's forced AddDevice ignores a failed delete and inserts a second row under an Okay
  (`Replies.AddDeviceTellsTheTruthIff`).
- SQLite does not cascade and hands out keys again, so samples of a removed session can come to lie under
  a later one (`RowIds.SQLiteTakesKeyIff`). `Attribution.RunsNameIff` says exactly which runs do that, and
  `KeyReuse.AttributionFailsExample` is one.
- A Disconnect for a device that was never connected calls through a null connection. A monitor that sends
  its session and hangs up leaves a device collecting without a connection (`Connections.HangUpExample`),
  and the next Disconnect or the next tick of a lane does the same. So do lane timers that a second
  StartStream put out of reach, even after an orderly drop (`Connections.StrayTimerExample`).
  `Connections.CrashesExactlyOnMissingConnection` is the exact condition.
- The descriptor sender's limit is looser than the reader's; 1017 to 1022 bytes make it send past the
  buffer (`Framing.SendingLimits`).
- A comment in `doAddSession` says the device is disconnected when its session hash is taken; the code
  removes the older session.

## Model

| member | source | states |
|---|---|---|
| Conservation.EveryRequestOnce | source/ControlClient.cpp:123-357 | in every run from start-up without a null-connection call, each accepted control request except QuitCollector is in exactly one queue or has had exactly one status, written or lost in the write, and every status answers an accepted request |
| Conservation.EffectHandsOn | source/PQDatabase.cpp:306-596 | a database request hands its client on exactly once, whatever fails: one status for a client's request, none for an internal one |
| Conservation.OutcomeHandsOn | source/MonitorDevice.cpp:490-719 | a device request hands its client on exactly once, over the Connect to SendDescriptor hop and every early return |
| Conservation.RouteHandsOn | source/Dispatcher.cpp:86-302 | a dispatcher request hands its client on exactly once; only a QuitCollector client is dropped |
| Conservation.RunsConserve | source/Dispatcher.cpp:49-84 | waiting requests plus statuses, written or lost, stay one per accepted request, in every run from any such state |
| Commands.AddDeviceCommand | source/ControlClient.cpp:220-237 | an accepted AddDevice request, over dispatcher and database handler, for every table and every failing statement: which status with which reason, which row is new, what an enforced one removes, that nothing else changes, and that a reload follows exactly an Okay |
| Commands.RemoveDeviceCommand | source/ControlClient.cpp:239-257 | likewise RemoveDevice: Okay takes exactly this device (in PostgreSQL with its sessions and their samples), anything else takes nothing |
| Commands.RemoveSessionCommand | source/ControlClient.cpp:200-218 | likewise RemoveSession: exactly this session, in PostgreSQL with its samples |
| Commands.InitCommand | source/ControlClient.cpp:157-171 | likewise InitDatabase: the tables are emptied if and only if the request is enforced and the drop succeeds |
| Commands.DevicesCommand | source/ControlClient.cpp:189-198 | GetDevices sends its client each device row once with the state of its registered device; the status tells of the query, the reason of the write |
| Commands.SessionsCommand | source/ControlClient.cpp:339-357 | GetSessions sends its client each session row asked for once, with its own fields |
| Commands.SessionAndQuitCommands | source/ControlClient.cpp:123-187 | a session request is answered Okay if and only if the session message was written; QuitCollector leads to the exit |
| Commands.DeviceCommands | source/ControlClient.cpp:259-337 | the four device commands, and no others, go to the device of their hash, each as its own action, under their client and request id |
| Commands.CommandArrives | source/Dispatcher.cpp:86-256 | an accepted request reaches the queue it is for, behind what waits there, or is answered NoSuchDevice; nothing else changes |
| Answers.AnswerIsWritten | source/Dispatcher.cpp:263-302 | an answer is written to its own client as the status kind, reason and request id it carries |
| Answers.RunsStaySettled | source/Dispatcher.cpp:49-84 | once an answer is all there is for a request, no run ever tells its client anything else |
| Answers.AnswerIsTold | source/PQDatabase.cpp:306-596 | every status a client reads in any run is the one its handler queued |
| Answers.RemoveDeviceIsTold | source/PQDatabase.cpp:543-596 | in every run the status read says OK if and only if the device existed and check and delete succeeded, and the tables bear it out |
| Answers.RemoveSessionIsTold | source/PQDatabase.cpp:648-701 | the same for sessions |
| Answers.AddDeviceIsTold | source/SQLiteDatabase.cpp:445-497 | in every run the status read says OK exactly under the stated conditions, and then the one row with the hash is the requested device, short of SQLite's failed removal |
| Delivery.QuitsAfterOwnStatusAndList | control/Dispatcher.cpp:442-465 | over every collector run and control run together: a Quit on account of a status follows the status of one of the client's own commands, and a list written for that command was handled by then |
| Delivery.RunsDeliver | source/PQDatabase.cpp:345-382 | in every run each status carries its request's id (or none for an unknown device), and a list precedes the status of the same request |
| ControlApp.QuitsAfterCommandStatus | control/Dispatcher.cpp:133-161 | the session request's own status never makes the control program quit; a status Quit follows a command status together with everything delivered before it |
| ControlApp.HandshakeFirst | control/Dispatcher.cpp:99-161 | in every run of the control program a session is asked for only after connecting and greeting, and any other request goes out only after the session message was handled |
| ControlApp.TurnLaw | control/Dispatcher.cpp:99-165 | what each action queues, writes and sets off |
| ControlApp.InputLaw | control/Connection.cpp:37-135 | replies, hang-ups and served commands are queued in order |
| ControlApp.ReplyIsTaken | control/Connection.cpp:60-110 | each reply the loop gets to is taken as it is, in order |
| ControlApp.OnlyRepliesAreTaken | control/Connection.cpp:37-120 | and nothing else; the connection stays registered if and only if there was merely nothing more to read |
| ControlApp.ControlProgram.ReadLoop | control/Connection.cpp:37-120 | the reply loop queues the collector's messages in socket order up to the read that ends it, and returns whether the connection stays registered |
| ControlApp.ControlProgram.RequestHandler | control/Dispatcher.cpp:51-97 | each action queues exactly its follow-ups and writes exactly its request; the session message sets off the command event; Quit stops the program |
| Draining.EveryScheduleDrains | source/Dispatcher.cpp:49-84 | with no new input every order of turns, whatever the outside answers, reaches empty queues or an exit |
| Draining.TurnShrinks | source/PQDatabase.cpp:256-304 | every turn lowers the measure: pending CleanSessions first, then the weighted work of all queues |
| Draining.NeverStuck | source/Dispatcher.cpp:49-84 | while work is pending some turn is enabled |
| Draining.EveryRequestIsAnswered | source/Dispatcher.cpp:263-302 | once drained without an exit or a null-connection call every accepted request has had exactly one status, written or lost in the write |
| Attribution.SamplesAreAttributed | source/MonitorDevice.cpp:721-731 | both back ends, any number of devices, drops, reconnects and control requests, whatever statements fail: each row stored in the run lies under a session with the hash of the last SetSession its device had handled before that sample; in SQLite as long as no handled request deletes a session row |
| Attribution.RunsNameIff | source/Query.cpp:894-902 | a run keeps every sample under a session of its hash all along if and only if no step inserts a session under a key that samples taken under another hash still name |
| Attribution.StepNamesIff | source/SQLiteDatabase.cpp:543-585 | the same for one step |
| Attribution.RunsAttribute | source/Query.cpp:818-833 | the invariant behind it, kept from any state that has it while no session row is deleted in SQLite |
| KeyReuse.AttributionFailsExample | source/SQLiteDatabase.cpp:587-629 | a SQLite run from start-up on a sound table in which a sample ends up under a session it was not taken for |
| KeyReuse.RemovalMisnamesExample | source/SQLiteDatabase.cpp:587-629 | from any state with a connected device and an empty session table: session, sample, RemoveSession, next session, and the sample lies under that one |
| Ownership.SamplesAreOwned | source/PQDatabase.cpp:598-646 | in PostgreSQL, with plain session hashes not shared between devices: the session a row of the run lies under also belongs to the device that took the sample |
| Ownership.RunsOwn | source/Query.cpp:764-795 | the invariant behind it, kept from any state that has it |
| Ownership.OpeningOwns | source/PQDatabase.cpp:608-639 | adding a session leaves every row under its hash with the requesting device, on a hash collision too |
| Ownership.StepStaysOrdered | source/MonitorDevice.cpp:590-602 | the session request is always queued ahead of the samples taken under its hash |
| Interleaving.DrainedRunIsSequential | source/MonitorDevice.cpp:580-610 | for one device's messages, whatever lane timers tick, every drained run leaves the tables of forwarding and storing each message to completion in arrival order, up to start timestamps |
| Interleaving.InterleavingsAgree | source/MonitorDevice.cpp:721-731 | any two interleavings of the same messages drain to the same tables |
| Interleaving.HandlingIsPlaying | source/PQDatabase.cpp:598-646 | handling AddSession or AddData depends on the tables only up to timestamps and queues nothing |
| Closing.DropClosesTheSession | source/Connection.cpp:128-152 | from any state, after a drop and a drained database queue every row with the hash the device held has ended, unless a device takes that hash again |
| Closing.RunsStayClosing | source/MonitorDevice.cpp:79-93 | an EndSession queued behind the AddSession of its hash is never overtaken, in any run |
| Cleaning.CleaningEndsOldSessions | source/PQDatabase.cpp:256-304 | once the clean and what was queued by then are handled, each session row present at the clean and still there has ended, whatever interleaves |
| Cleaning.StartupCleans | source/Application.cpp:115-120 | in every run from start-up the third database turn is the clean, after which no session of an earlier run stays open |
| Cleaning.StartupLoads | source/Application.cpp:115-120 | the second loads the devices, so that the registry knows every device row |
| Cleaning.StartupErases | source/Main.cpp:189-201 | when asked to erase, the fourth empties the tables |
| Cleaning.CleaningSparesNewSessions | source/SQLiteDatabase.cpp:295-320 | the clean ends no session added later under a hash that was not open at the clean |
| Connections.CalmRunsStayCoherent | source/MonitorDevice.cpp:490-719 | in every calm run a streaming state implies a live connection, no connection implies Loaded or Disconnected with only control requests waiting and no lane timer running, and no handler and no timer calls through a null connection |
| Connections.CrashesExactlyOnMissingConnection | source/MonitorDevice.cpp:156-306 | in any state a step calls through a null connection if and only if it is SendDescriptor, RequestSession, Disconnect outside Disconnected, or a tick of a lane with a source, without a connection |
| Connections.CrashesExactlyOnLoadedDisconnect | source/MonitorDevice.cpp:612-637 | from coherent devices a step of any kind, ticks included, does so if and only if it handles Disconnect for a Loaded device without a connection |
| Connections.DropKeepsCoherentIff | source/Connection.cpp:126-152 | a drop keeps the devices coherent if and only if only control requests wait and no timers run but the newest |
| Connections.TimersStrayIff | source/MonitorDevice.cpp:95-154 | timers get out of reach if and only if a stream is started while some run |
| Connections.HangUpExample | source/MonitorDevice.cpp:580-644 | a run in which a device ends up Collecting without a connection, its timers running |
| Connections.StrandedTickExample | source/MonitorDevice.cpp:156-170 | the next tick from there calls through the null connection |
| Connections.StrandedDisconnectExample | source/MonitorDevice.cpp:612-637 | so does the next Disconnect request |
| Connections.StrayTimerExample | source/MonitorDevice.cpp:653-690 | a run in which lanes are started twice, the connection is dropped with nothing waiting, and the old timers call through the null connection of a Disconnected device |
| RegistryRuns.RegistryOnlyGrows | source/DeviceManager.cpp:19-65 | over every run hashes stay distinct, no entry is lost or replaced, and getDevice keeps finding the same device |
| RegistryRuns.LoadingCompletesTheRegistry | source/PQDatabase.cpp:208-254 | loading keeps existing entries and their state, adds Loaded entries for table rows only, and leaves every row registered |
| RegistryRuns.RegistryIsGetDevice | source/DeviceManager.cpp:54-65 | the state listed for a hash is that of the device getDevice returns, and there is one if and only if getDevice finds it |
| RegistryRuns.NewDevicesAreNew | source/SQLiteDatabase.cpp:269-293 | what loading adds are listed rows under unknown hashes, each hash once |
| RegistryRuns.NewDevicesCover | source/SQLiteDatabase.cpp:269-293 | every listed row is known before or added |
| Relational.RequestsKeepTheTables | source/Query.cpp:17-610 | over every request sequence one device row and one session row per hash at most and, in PostgreSQL, every session at a device and every sample at a session |
| Relational.StepStaysSound | source/Query.cpp:17-55 | primary keys never collide, in either dialect and whatever fails |
| Relational.StepStaysUnique | source/PQDatabase.cpp:471-701 | one request keeps hashes unique through forced re-add and hash collision |
| Relational.StepStaysLinked | source/Query.cpp:44-55 | cascades keep every reference intact, whatever fails |
| Relational.RequestRunsStatements | source/PQDatabase.cpp:114-150 | every request is two statements at most, the first of which removes or makes the only change |
| Relational.DialectsSelectAlikeIff | source/Query.cpp:784-866 | LIKE and IS select the same devices, sessions and open sessions in all tables if and only if the hash has no LIKE metacharacter |
| Like.ExactIffPlain | source/Query.cpp:680-729 | a LIKE pattern accepts exactly the equal string if and only if it is free of percent, underscore and backslash |
| Like.DeviceHashesAreExact | shared/Helpers.cpp:28-33 | decimal device hashes always qualify |
| Frozen.EndedSessionsAreFrozen | source/Query.cpp:894-902 | over every request sequence, either dialect, whatever fails: an ended session stays ended and keeps exactly its samples as long as its row exists |
| Frozen.StatementStaysFrozen | source/Query.cpp:797-833 | no statement touches an ended session's samples without removing its row |
| Samples.ExecutionAppends | source/SQLiteDatabase.cpp:75-87 | statement by statement or as one transaction: all entries in order under the one open session, or nothing |
| Samples.StoredRows | source/Query.cpp:907-972 | a sample adds exactly its number of rows, with their content, to its own table under one session and changes nothing else |
| Samples.StoredContents | source/Query.cpp:942-969 | row by row what a sample stores: totals and cores for SysProcStat, the entries in order for the five repeated kinds, one row for any other kind, with their stamps, under the open session |
| Samples.NothingStored | source/Query.cpp:894-902 | without an open session of the hash nothing is stored |
| Samples.DialectsStoreAlikeIff | source/SQLiteDatabase.cpp:799-912 | both back ends leave the same tables if and only if the sample has no rows or at most one open session has the hash; otherwise PostgreSQL stores nothing |
| Relational.TwoOpenSessionsExample | source/SQLiteDatabase.cpp:553-580 | requests after which one hash has two open rows in both back ends, and a sample they then store differently |
| RowIds.SQLiteTakesKeyIff | source/Query.cpp:35-43 | whatever was removed before, an inserted session gets a key if and only if that is one past the largest in use (1 if none is), and all rows naming the key come under it |
| RowIds.SQLiteInheritsIff | source/SQLiteDatabase.cpp:543-585 | exactly when a session added right after a removal gets the removed session's key and with it its samples |
| RowIds.PostgreSQLNeverInherits | source/Query.cpp:44-55 | in PostgreSQL a new session starts without samples |
| Replies.RemoveDeviceTellsTheTruth | source/PQDatabase.cpp:543-596 | Okay if and only if the device existed and check and delete succeeded; then it is gone, otherwise nothing changed |
| Replies.RemSessionTellsTheTruth | source/PQDatabase.cpp:648-701 | the same for sessions |
| Replies.AddDeviceTellsTheTruthIff | source/SQLiteDatabase.cpp:445-497 | an Okay AddDevice leaves exactly one row with the hash and the requested fields if and only if it is not SQLite's forced add over a device it failed to delete |
| Replies.AddSessionOpensIff | source/Query.cpp:764-795 | with succeeding checks and deletes: exactly one row under the hash, open, carrying the message's fields and the device's key, if and only if the insert succeeds and the device hash selects one row; otherwise none; other sessions untouched |
| Replies.EndSessionStamps | source/Query.cpp:797-816 | exactly the rows with the hash get the end time, ended ones again; nothing else changes |
| Replies.InitTellsTheTruth | source/PQDatabase.cpp:160-206 | Okay if and only if the back end was reached and the tables created; empty if the drop was forced and succeeded, as before otherwise |
| Replies.DeviceListTellsTheTruth | source/PQDatabase.cpp:306-383 | a written list has exactly one entry per device row with its registered state; Okay tells of the query only, not of the write |
| Replies.SessionListTellsTheTruth | source/SQLiteDatabase.cpp:380-443 | a written list shows exactly the rows asked for, each once, complete if and only if ended |
| Queues.RunsStayProper | source/MonitorDevice.cpp:490-731 | in every run internal requests have no client, session requests carry the hash their handlers insist on, and Forced is absent or True |
| Framing.DescriptorRoundTrip | shared/Helpers.cpp:47-102 | for every descriptor envelope of at most 1016 bytes: size + 8 bytes are sent, the two receives consume exactly these, the parsed window is the envelope, and the next envelope starts aligned |
| Framing.SendingLimits | shared/Helpers.cpp:35-67 | which sizes are sent, which are refused, which make the send window leave the buffer, and when a send is short |
| Framing.ReadingStaysInBounds | shared/Helpers.cpp:81-102 | for any header the second receive stays inside the buffer, and the parsed window starts behind the varint and reaches at most one zero byte past what was received |
| Framing.VarintRoundTrip | shared/Helpers.cpp:52-56 | base 128 varints decode to what was encoded, taking exactly their own bytes |
| Framing.VarintBytes | shared/Helpers.cpp:52-55 | each byte of the length carries its seven bits of the size, least significant first, and its top bit tells whether another follows |
| Framing.SendControlDescriptor | shared/Helpers.cpp:35-67 | the buffer code sends exactly the frame; a short send fails |
| Framing.ReadControlDescriptor | shared/Helpers.cpp:69-111 | the buffer code reads exactly as specified, every index in bounds, and fails unless the window holds a descriptor |
| DeviceLaws.StopLaw | source/MonitorDevice.cpp:692-719 | for every device: StopCollecting is Okay if and only if it is collecting; the request that follows makes it idle and stops its newest timers; otherwise nothing changes |
| DeviceLaws.StartLaw | source/MonitorDevice.cpp:653-690 | StartCollecting by state: asks for a session, or starts the stream over the lanes of the session, or is refused |
| DeviceLaws.ConnectLaw | source/MonitorDevice.cpp:490-562 | Connect and the descriptor it leads to: every outcome with its status, state and queued requests |
| DeviceLaws.DisconnectLaw | source/MonitorDevice.cpp:612-637 | Disconnect and the drop it leads to, likewise |
| DeviceLaws.SessionLaw | source/MonitorDevice.cpp:580-610 | a session is held, its row is asked for under the device's hash, the stream follows |
| DeviceLaws.SampleLaw | source/MonitorDevice.cpp:721-731 | a sample goes on unchanged under the hash of the held session |
| DeviceLaws.StreamLaw | source/MonitorDevice.cpp:639-644 | the device collects with a new set of timers |
| DeviceLaws.RemainingLaws | source/MonitorDevice.cpp:530-578 | stream end, descriptor, session request and status, in every state |
| DeviceLaws.DropLaw | source/Connection.cpp:126-152 | a lost connection in every state |
| Lanes.LaneHolds | source/MonitorDevice.cpp:312-354 | each recognised source has its place in its lane, in the order of the session |
| Lanes.LaneLength | source/MonitorDevice.cpp:312-354 | and nothing else has |
| Lanes.ConfigUpdateLanes | source/MonitorDevice.cpp:308-454 | whatever the list held, it ends up as the recognised fast, pace and slow sources in order |
| Lanes.EachLaneDrivesItsOwn | source/MonitorDevice.cpp:95-125 | one tick of a lane updates exactly the sources configured for it, and together the three ticks are the whole list |
| Lanes.Tick | source/MonitorDevice.cpp:95-125 | the tick's loop asks for exactly the sources of its lane, and faults if and only if there is one and no connection |
| Reading.MessageIsPushed | source/Connection.cpp:62-113 | each message the loop gets to becomes its request, in order: a session with its name, a sample with its receive time, nothing else changed |
| Reading.OnlyMessagesArePushed | source/Connection.cpp:40-121 | and nothing else is pushed; the connection stays if and only if there was merely nothing more to read |
| Reading.ReadingIsIncoming | source/Connection.cpp:38-121 | what is pushed arrives as the Incoming events of a possible run, one for each, and nothing else changes |
| MonitorDevices.Connection.ReadLoop | source/Connection.cpp:38-121 | messages become requests in socket order up to the read that ends the loop, which decides whether the connection stays |
| MonitorDevices.MonitorDevice.CreateConnection | source/MonitorDevice.cpp:54-61 | creates a connection exactly when there is none |
| MonitorDevices.MonitorDevice.UpdateState | source/MonitorDevice.cpp:79-93 | becoming Disconnected queues the end of the session, if one was ever set |
| MonitorDevices.MonitorDevice.StartUpdateLanes | source/MonitorDevice.cpp:95-136 | a new set of timers runs, only its handles are kept, and the list is configured from the held session |
| MonitorDevices.MonitorDevice.StopUpdateLanes | source/MonitorDevice.cpp:138-154 | only the timers of the kept handles stop |
| MonitorDevices.MonitorDevice.LaneTimer | source/MonitorDevice.cpp:97-106 | a tick asks the monitor for the sources of its lane, or faults without a connection |
| MonitorDevices.MonitorDevice.DeleteConnection | source/MonitorDevice.cpp:63-67 | stopping the lanes and releasing the connection is the drop step of the runs |
| MonitorDevices.MonitorDevice.RequestHandler | source/MonitorDevice.cpp:457-488 | the handler of a popped request changes the device and its queues exactly as the runs assume, and faults exactly on a null-connection call |
| MonitorDevices.MonitorDevice.DoConnect | source/MonitorDevice.cpp:490-528 | the three outcomes of connecting |
| MonitorDevices.MonitorDevice.DoSendDescriptor | source/MonitorDevice.cpp:530-562 | the descriptor's outcomes, a null connection included |
| MonitorDevices.MonitorDevice.DoSetSession | source/MonitorDevice.cpp:580-610 | holds the session, queues its row and then the stream |
| MonitorDevices.MonitorDevice.DoDisconnect | source/MonitorDevice.cpp:612-637 | the three outcomes of disconnecting; the connection is taken off the event loop |
| MonitorDevices.MonitorDevice.DoStartStream | source/MonitorDevice.cpp:639-644 | collecting, with new timers over the lanes of the held session |
| MonitorDevices.MonitorDevice.DoStopStream | source/MonitorDevice.cpp:646-651 | idle, with the newest timers stopped |
| MonitorDevices.MonitorDevice.DoStartCollecting | source/MonitorDevice.cpp:653-690 | what each device state answers and queues |
| MonitorDevices.MonitorDevice.DoStopCollecting | source/MonitorDevice.cpp:692-719 | only a collecting device stops |
| DeviceManagers.DeviceManager.AddDevice | source/DeviceManager.cpp:19-35 | an entry is appended if and only if its hash is new |
| DeviceManagers.DeviceManager.GetDevice | source/DeviceManager.cpp:54-65 | the last entry with the hash, null if and only if there is none |
| Databases.Database.RequestHandler | source/PQDatabase.cpp:114-150 | the handler of a popped request changes tables, queues, client streams and registry exactly as the runs assume |
| Databases.Database.DoInitDatabase | source/PQDatabase.cpp:160-206 | (re-)creation with its first-wins status |
| Databases.Database.DoLoadDevices | source/PQDatabase.cpp:208-254 | the scan registers exactly the missing hashes as Loaded |
| Databases.Database.DoCleanSessions | source/PQDatabase.cpp:256-304 | the scan queues one EndSession per open row in listing order |
| Databases.Database.DoGetDevices | source/PQDatabase.cpp:306-383 | the list with each registered state goes out ahead of the queued status |
| Databases.Database.DoGetSessions | source/PQDatabase.cpp:385-469 | the session list, all or by device, ahead of the queued status |
| Databases.Database.DoAddDevice | source/PQDatabase.cpp:471-541 | look up, removal when forced, insert, status and reload |
| Databases.Database.DoRemoveDevice | source/PQDatabase.cpp:543-596 | the delete always runs; the first status stays |
| Databases.Database.DoAddSession | source/PQDatabase.cpp:598-646 | a row holding the hash is removed before the new one is inserted |
| Databases.Database.DoRemSession | source/PQDatabase.cpp:648-701 | both dialects' delete paths end in the same tables and status |
| Databases.Database.DoEndSession | source/PQDatabase.cpp:703-720 | marks every row with the hash |
| Databases.Database.DoAddData | source/PQDatabase.cpp:722-1035 | the switch over kinds and the execution of the kind's statements |
| Databases.Database.RunTransaction | source/PQDatabase.cpp:94-102 | all statements or none |
| Databases.Database.RunScript | source/SQLiteDatabase.cpp:75-87 | statements one by one up to the first failure |
| Databases.AddDataStatements | source/Query.cpp:907-972 | the loops emit one insert per entry in order, behind the totals for SysProcStat |
| Dispatchers.Dispatcher.RequestHandler | source/Dispatcher.cpp:49-84 | the popped request goes exactly where routing says, every other device queue untouched |
| Dispatchers.Dispatcher.ToRegistered | source/Dispatcher.cpp:141-166 | to the registered device, or a NoSuchDevice status if and only if the hash is unknown |
| Dispatchers.Dispatcher.DoSendStatus | source/Dispatcher.cpp:263-302 | writes one status to a client, or reports that the write failed, and does nothing for an internal request |
| Dispatchers.ControlClient.Handle | source/ControlClient.cpp:123-357 | one dispatcher request per control request; a session request also writes the session |
| Dispatchers.ControlClient.ReadLoop | source/ControlClient.cpp:39-113 | requests are accepted in socket order up to the read that ends the loop, which decides whether the client stays registered |
| Dispatchers.RequestIsTaken | source/ControlClient.cpp:62-104 | each request the loop gets to is taken as it is, in order |
| Dispatchers.OnlyRequestsAreTaken | source/ControlClient.cpp:39-113 | and nothing else; the client stays registered if and only if there was merely nothing more to read |
| Dispatchers.ReadingIsControlEvents | source/ControlClient.cpp:39-113 | a read loop's effect is a run of control events of the step system |

## Left out

- Sockets, epoll, timers' real time, the watchdog, daemonising and logging: results of connecting, sending and writing are arbitrary booleans; a running lane timer ticks at arbitrary times.
- Protobuf, libpqxx and sqlite3 internals, SQL text and per-kind column lists: one kind of row per table with opaque column text; quoting of hashes inside SQL text is not modelled.
- The object that runs the event loop: its choice of queue is an arbitrary sequence of events.
- Command-line options, help text, configuration, and the printing of lists by the control program: one-branch facts.
- `DeviceManager::remDevice`: never called.
- Sessions of one device in PostgreSQL: the query applies LIKE to integer columns (source/Query.cpp:754-758); modelled as a failing query.
- The hash function behind device hashes: only the decimal form of its result is modelled, not injectivity.
- A statement of a sample failing midway for a reason other than its session (a full disk, say): all statements of a sample succeed or all fail.
- A PostgreSQL reconnection that throws: a failed reconnection is answered as the one that returns false (source/PQDatabase.cpp:68-92).
- The moment at which the control program's command event is served: at any time after the session message set it off.
- The server error PostgreSQL raises for a pattern ending in a backslash: modelled as no match.
- Gaps a failed insert leaves in a SERIAL counter: keys stay fresh with or without them.
- Attribution.SamplesAreAttributed: in PostgreSQL, arriving session hashes free of LIKE metacharacters, which select other rows (Relational.DialectsSelectAlikeIff); in SQLite, no deleted session row, since the general statement is false there (KeyReuse.AttributionFailsExample) and Attribution.RunsNameIff is the exact one.
- Ownership.SamplesAreOwned: for PostgreSQL, while checks and deletes succeed and session hashes are not shared between devices; in SQLite a removed device's key can go to another device whose sessions stay behind.
- Delivery.QuitsAfterOwnStatusAndList: for a client that uses the session request's id for session requests only, as the control program does.
- Interleaving.DrainedRunIsSequential: statements succeed and only that device's messages are in flight, since a failing statement makes the tables depend on when it failed.
- Relational.StepStaysUnique: while checks and deletes succeed; a failing check lets a second row in.
- At most one open session per device: the code does not keep this (source/MonitorDevice.cpp:665-674).
- An end timestamp written only once: the session hash is never cleared (source/MonitorDevice.cpp:83-91).
- At most one running timer per lane: a second StartStream replaces the handles without stopping the timers (source/MonitorDevice.cpp:95-125).
- Referential integrity in SQLite: foreign keys are not enforced.
- The request id in the answer about an unknown device: the code does not echo it (source/Dispatcher.cpp:147-158).
