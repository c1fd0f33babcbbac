# OPC UA VMD events bridge — a Dafny model

The application exposes the device's video-analytics alarms as boolean variables of an
embedded OPC UA server (open62541). It subscribes to analytics events of one configured
source, turns each delivered event into a (label, active) pair and creates or updates a
read-only boolean variable named after the label. When the "port" parameter changes it
stops the server, joins its run-loop thread and launches a new server on the new port. When
the "eventsource" parameter changes it unsubscribes and subscribes again.

The model has one module per source file, plus two helper modules:

- `Options` (options.dfy): the `Option` datatype.
- `CString` (c_string.dfy): the C library's `atoi` as the application uses it, and its
  partner, the decimal rendering of a number.
- `Open62541` (open62541.dfy) models opcua_open62541.c. Alarm nodes are `NodeRec` values in
  a `map<string, NodeRec>` keyed by label. `Upsert` is the create-or-overwrite step and
  `Replay` folds it over a series of observations. `ServerState` is the module's abstract
  state: the static `server` pointer, whether the object behind it is alive, its port, its
  run-loop threads and its nodes. `AfterInit`, `AfterStart`, `AfterExit` and `AfterProcess`
  are that state's pure transitions. Class `UaServer` holds the same state in fields (ghost
  `serverPtrSet`, `serverAlive`, `runLoops`; real `port` and `nodes`), and its methods are
  proved against those transitions.
- `AxEvents` (ax_events.dfy) models opcua_axevents.c. An event is its key/value set.
  `Classify` is the callback's forward-or-drop decision. `SubscriptionFilter` is the
  key/value set given to the library, and `Matches` says which events such a filter
  selects. Class `EventSubscriber` holds `subid` and ghost logs of the library calls made
  and the events freed.
- `VmDev` (vmdev.dfy) models opcua_vmdev.c. `ClassifyPortValue` is the port callback's
  decision. Class `Bridge` holds the module globals `uaport`, `ua_server_running`,
  `ehandler_running` and the main loop's quit request. It also owns the `UaServer` and
  `EventSubscriber` objects. `Bridge.Valid()` is the lifecycle invariant: the running flag
  is set exactly while a server object exists, at most one run loop is live, and a live
  run loop implies the flag.

External libraries are parameters or ghost state:

- Whether `pthread_create` succeeds is `threadOk`.
- Whether the filter key/value set could be filled is `filterOk`.
- The id the event library assigns is `granted`.
- Whether the parameter store registered the callback is `registered`, and the value it
  fetched is `fetched`.
- Calls into the event library are recorded in `EventSubscriber.busCalls`.
- Calls of `ua_server_axevent_process` are recorded in `UaServer.processed`.
- Parameter-callback invocations are recorded in `Bridge.callbacks`, as (parameter name,
  value) pairs.

## Model

| member | source | states |
|---|---|---|
| `CString.AtoiOfNatToString` | opcua_vmdev.c:78-79 | `atoi` of a number's decimal form gives back the number. This holds after any leading white space and before any non-digit suffix. |
| `CString.AtoiWithoutDigits` | opcua_vmdev.c:78-79 | A value without a digit (empty, non-numeric) reads as 0. |
| `VmDev.ClassifyPortValue` | opcua_vmdev.c:79-92 | Rejected iff `atoi(value)` is outside [1024, 65535]. Unchanged iff it is in range and equal to the current port. Otherwise Changed to exactly that in-range value. |
| `VmDev.DecimalPortValue` | opcua_vmdev.c:79-92 | A decimal port value is rejected out of range, ignored when equal to the current port, and otherwise becomes the new port. |
| `VmDev.DecimalOutOfRangeRejected` | opcua_vmdev.c:80-84 | Any decimal value outside the range (0, 1023, 65536, ...) is rejected. |
| `VmDev.NonNumericPortRejected` | opcua_vmdev.c:78-84 | A value without a digit is rejected. |
| `VmDev.Bridge.constructor` | opcua_vmdev.c:29-32 | Start-up state: port 0, no server, flags false, subscription id 0. |
| `VmDev.Bridge.LaunchUaServer` | opcua_vmdev.c:46-65 | Requires the port in range and the server not running. Creates the server on that port with an empty store and sets the flag before starting: the start requires the flag already set, as the run loop reads it. Returns whether the thread started; on failure the flag stays set. |
| `VmDev.Bridge.ShutdownUaServer` | opcua_vmdev.c:67-72 | Requires the flag. Clears it before the join; the joined run loop deletes the server. |
| `VmDev.Bridge.PortCallback` | opcua_vmdev.c:74-101 | Rejected or unchanged values leave `uaport`, the flag and the server state untouched. A change sets `uaport` and stops any running server before relaunching. Over the corrected run-loop exit, there is afterwards exactly one server, on the new port, with an empty node store, and at most one run loop. |
| `VmDev.Bridge.EvtsourceCallback` | opcua_vmdev.c:103-121 | Unsubscribes the stored id only when `ehandler_running` was set, then always subscribes to the new source. Stores the returned id and sets `ehandler_running` even when subscribing failed. |
| `VmDev.Bridge.SetupParam` | opcua_vmdev.c:123-158 | Succeeds iff registration and fetch both succeed. On failure nothing changes. On success the parameter's callback runs exactly once, with the fetched value, and the quit request is untouched. For "port", the new `uaport`, flag and server state are those of `ClassifyPortValue`'s verdict, and the subscription is untouched. For "eventsource", the old subscription is dropped only if `ehandler_running` was set, the new one is made with the source's filter, its id is stored and the flag set; the port and server are untouched. No event is freed and no event is processed on either path. |
| `VmDev.Bridge.SignalHandler` | opcua_vmdev.c:189-201 | Requests the main loop to quit for SIGTERM, SIGABRT and SIGINT; any other signal changes nothing. |
| `Open62541.Upsert` | opcua_open62541.c:106-136 | The label's node holds the new state and the key set gains only the label. Every other node is unchanged. An existing node keeps every attribute but its value; an absent label gets the node `ua_server_add_status` creates. |
| `Open62541.UpsertWellFormed` | opcua_open62541.c:64-104 | On a store whose nodes are all label-derived, create and update give the same node. The store stays well formed: node id and browse name (ns 1, label), display name = description = label, Boolean, read-only, under ObjectsFolder via Organizes. |
| `Open62541.UpsertIdempotent` | opcua_open62541.c:113-124 | Repeating an observation takes the update path and leaves the store equal. |
| `Open62541.ReplayAt` | opcua_open62541.c:106-136 | After a series of observations, a label has a node iff it had one before or was observed. That node holds the state of the label's latest observation. Labels never observed keep their node, and nothing is deleted. |
| `Open62541.ReplayWellFormed` | opcua_open62541.c:64-94 | Every node created by a series of observations has the label-derived attributes. |
| `Open62541.ReadBackAfterEachObservation` | opcua_open62541.c:96-104 | Right after the i-th observation, its label reads back that observation's state. |
| `Open62541.AfterExitAsWritten` | opcua_open62541.c:25-35 | As written, the run loop's exit deletes the server and its nodes but leaves the static pointer set, so `ua_server_init` is possible on no port at all. |
| `Open62541.AfterExit` | opcua_open62541.c:25-35 | Corrected, the exit also resets the pointer, so `ua_server_init` is possible again on every valid port. |
| `Open62541.RelaunchAfterExitAsWritten` | opcua_open62541.c:25-44 | As written, after the run loop exits the pointer is still set and the object is dead. The next `ua_server_init` fails its `NULL == server` assertion. |
| `Open62541.RelaunchAfterExit` | opcua_open62541.c:25-44 | Corrected, after the run loop exits a new server can be created on any valid port. Created and started, it gives one server on that port with an empty store. |
| `Open62541.FailedStartBlocksRelaunch` | opcua_open62541.c:37-61 | A server whose thread could not be created is never deleted, so a later `ua_server_init` fails its assertion. |
| `Open62541.UaServer.constructor` | opcua_open62541.c:23 | The static pointer starts out NULL and there is no store. |
| `Open62541.UaServer.Init` | opcua_open62541.c:37-44 | Requires no server and the port in range. Afterwards a live server on that port, with an empty store. |
| `Open62541.UaServer.Start` | opcua_open62541.c:46-62 | Requires a server and the shared running flag set. Returns true exactly when the thread is created, and only then is a run loop live. |
| `Open62541.UaServer.RunLoopExit` | opcua_open62541.c:25-35 | Requires the running flag cleared. The run loop returns and the server is deleted with its nodes; corrected, the pointer is reset. |
| `Open62541.UaServer.AddStatus` | opcua_open62541.c:64-94 | Adds the label-derived node holding the state. An existing node id is left as it is. |
| `Open62541.UaServer.UpdateStatus` | opcua_open62541.c:96-104 | Overwrites only the value of an existing node. A missing node is not created. |
| `Open62541.UaServer.AxeventProcess` | opcua_open62541.c:106-140 | Requires a live server. The new store is `Upsert` of the old, and the label's node is the label-derived node holding the state. The call is appended to the log of processed (label, state) pairs. |
| `AxEvents.Classify` | opcua_axevents.c:56-88 | Forwards iff the user data is "axevents-discovery", "active" holds a boolean and tnsaxis:topic2 holds a string. The forwarded pair is (topic2, active). |
| `AxEvents.FilterSelects` | opcua_axevents.c:104-122 | The filter selects exactly the events with tnsaxis:topic0 "CameraApplicationPlatform", tnsaxis:topic1 equal to the source, and a boolean "active". |
| `AxEvents.OldSourceNotSelected` | opcua_axevents.c:107-122 | After a source change, an event of the old source is not selected by the new filter. |
| `AxEvents.SelectedEventsHaveActive` | opcua_axevents.c:75-85 | An event selected by the filter passes the "active" check. Only a missing topic2 can then drop it. |
| `AxEvents.AlarmEventForwarded` | opcua_axevents.c:24-48 | An alarm event of the subscribed source is selected and forwarded as (label, active). |
| `AxEvents.EventSubscriber.constructor` | opcua_axevents.c:54 | `subid` starts at 0; no library calls have been made yet. |
| `AxEvents.EventSubscriber.Subscribe` | opcua_axevents.c:96-159 | Subscribes with the discovery tag even when filling the filter failed; the filter is topic0, topic1 = source and a boolean "active". Returns the library's id, or 0 when none was granted. |
| `AxEvents.EventSubscriber.Setup` | opcua_axevents.c:161-173 | Stores the returned id in `subid`. Returns false exactly when that id is 0. |
| `AxEvents.EventSubscriber.Teardown` | opcua_axevents.c:175-181 | Unsubscribes whatever id `subid` holds, without a check. |
| `AxEvents.EventSubscriber.Deliver` | opcua_axevents.c:56-94 | A dropped event leaves the server state unchanged. A forwarded one makes exactly one `ua_server_axevent_process(label, active)` call, appended to the server's log of processed pairs, and the state is that one update. The event is freed exactly once on every path. |

## Findings

| source | as written | input that shows it | evidently intended | confidence | as-written member | corrected member |
|---|---|---|---|---|---|---|
| opcua_open62541.c:33 | `run_ua_server` deletes the server but never sets the static `server` back to NULL | launch on port 4840, then set "port" to 4841: shutdown joins the run loop, and the relaunch's `ua_server_init` fails `assert(NULL == server)` (opcua_open62541.c:39) | `server = NULL` after `UA_Server_delete`, so the server can be recreated on each port change | not executed; high | `Open62541.RelaunchAfterExitAsWritten` | `Open62541.RelaunchAfterExit` |

`Open62541.AfterExitAsWritten` is the as-written transition. `Open62541.AfterExit` is the
corrected one. `UaServer.RunLoopExit` and the `Bridge` use the corrected transition.

## Differences between the design intent and the code

- The callback's user-data check is meant to discard stale deliveries from an earlier
  subscription. The code registers the same constant tag "axevents-discovery" for every
  subscription, so the check cannot tell an old subscription from the new one. The model
  follows the code. What separates the sources is the filter (`AxEvents.OldSourceNotSelected`).
- Unsubscribing is meant to be safe when no subscription is active. `axevent_teardown` has
  no check of its own and unsubscribes the stored id, which may be 0 or stale. The caller's
  `ehandler_running` flag is the only guard. The model follows the code.

## Left out

- The run-loop thread, `UA_Server_run` and any concurrency: only the running flag, the
  count of live run loops and the effect of the join are modelled.
- `Open62541.UaServer.Start`: a run loop that exits by itself is not modelled, whether it
  saw a cleared flag or `UA_Server_run` failed, for instance because it could not bind its
  port. A run loop ends only through `Open62541.UaServer.RunLoopExit`, at the join.
- open62541 internals and the OPC UA wire protocol. The address space is reduced to the
  alarm variables, and a failed add or write is modelled as "no change".
- The axevent and axparameter libraries' transport, parsing and callback registration.
  Their answers are parameters. A filter whose filling failed is recorded without its
  partial contents.
- GMainLoop, `sigaction` installation (`signal_handler_init`), syslog and logging.
  `g_main_loop_quit` is modelled as a quit-request flag.
- `main` and `setup_params`, the start-up and shutdown glue. Note that `main`'s cleanup
  calls `shutdown_ua_server` even when set-up failed before any server was launched, which
  violates that function's assertion.
- Memory management: `g_free`, `ax_event_free` beyond "freed once", `UA_NodeId_clear` on an
  uninitialised node id, the leaked label string.
- The unused `uaserver` static, and the `NULL != ehandler` / `NULL != value` assertions: the
  model has no null handler and no null strings. A NULL parameter value is therefore not
  modelled.
- opcua_axevents.h holds prototypes only.
- `CString.Atoi`: a value beyond the range of C's `int` is undefined behaviour for `atoi`.
  The model takes the mathematical value, which is then out of range and rejected. On
  LP64 glibc `atoi` is `(int) strtol(...)`, which wraps: "4294972136" reads as 4840 there
  and is accepted as a port, while the model rejects it.
- `VmDev.Bridge.PortCallback` requires `PortChangeSafe`: a relaunch may only follow a launch
  whose thread started. After a failed start the flag stays set and the server is never
  deleted. The code's next port change would join a thread that was never created and then
  fail `ua_server_init`'s assertion (`Open62541.FailedStartBlocksRelaunch`). The model does
  not allow that call.
- `VmDev.Bridge.ShutdownUaServer` requires a live run loop, because `pthread_join` needs a
  thread that was created.
- `Open62541.UaServer.RunLoopExit` runs the corrected exit (`Open62541.AfterExit`), which
  resets the static pointer. The code as written leaves it set, so the assertion failure of
  the second launch (opcua_open62541.c:33, :39) is not reachable through the class. It is
  shown only by `Open62541.AfterExitAsWritten` and `Open62541.RelaunchAfterExitAsWritten`.
- `VmDev.Bridge.PortCallback` relaunches over the corrected exit of
  `Open62541.UaServer.RunLoopExit`. As written, the code's second port change fails
  `ua_server_init`'s assertion (opcua_open62541.c:39); the model's contract describes the
  corrected program.
- `Open62541.UaServer.RunLoopExit` requires exactly one run loop: with two, deleting the
  server under the other would be a use after free, which the model does not represent.
- `AxEvents.EventSubscriber.Deliver` requires a live server for an event it forwards. If
  the initial port is invalid but the event source is valid, the code would reach
  `ua_server_axevent_process` without a server and abort on its assertion.
