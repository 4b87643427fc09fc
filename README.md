# Mirobot driver, modelled and verified in Dafny

This project models the `Mirobot` driver object of `main.js`. The driver is the
event-driven client that sends commands to a Mirobot drawing robot over a WebSocket,
one command at a time. The model covers all of it:

- the command queue `msg_stack` and the dispatch phase `robot_state` (`idle`,
  `receiving` or `running`);
- the callback table `cbs`, keyed by message id;
- the connection flags (`connected`, `error`, `has_connected`), the socket and the
  connect, response and reconnect timers;
- the sensor cache `sensorState` with its listening flags;
- the named-event bus (`addEventListener`/`emitEvent`);
- the operations `send`, `send_msg`, `process_msg_queue`, `handle_msg`, `stop`, `turn`,
  `collideState`/`followState`, `collideSensorNotify`/`followSensorNotify`, `connect`,
  `disconnect`, `setConnectedState`, `handleError`, `ready`, `setSimulator` and
  `setSimulating`.

The project has seven modules:

- `Protocol` (`protocol.dfy`): the records on the wire (`{cmd, arg, id}` commands and
  `{id, status, msg}` replies), how a truthy argument is stringified, and how a turn
  is normalised.
- `Events` (`events.dfy`): emissions and listener calls.
- `Callbacks` (`callbacks.dfy`): the kinds of handler the driver installs, and the
  enumeration order of the callback table (the order `for (var i in cbs)` visits it).
  It also holds stop's drain loop as the source writes it (Finding 2).
- `Machine` (`machine.dfy`): the driver's whole state as one value, with one function
  per operation, socket event and timer event. `Step` applies any single event, and
  `Run` applies a sequence of events.
- `Driver` (`driver.dfy`): the `Mirobot` class. Its fields are the object's fields,
  and its methods update them in place. The `emitEvent` listener loop and stop's drain
  over `cbs` are `while` loops. Every method is proved to change the object exactly as
  the `Machine` function of the same name says (`St() == Machine.F(old(St()), ...)`).
  So everything proved about `Machine` holds of the object.
- `Properties` (`properties.dfy`): what each operation does to the queue, the phase,
  the callback table, the socket output, the handler log, the emitted events, the
  error latch, the connection flags and the sensor cache. There is one lemma per branch
  of `send` and `handle_msg`.
- `Invariants` (`invariants.dfy`): properties of whole runs from a new driver:
  - the state stays valid;
  - the queue is first in, first out against the commands queued so far;
  - at most one queued command is in flight;
  - an error latch holds until `disconnect`.

The environment is modelled abstractly:

- Message ids are parameters.
- A timer is an "armed" flag plus a "timer fired" event.
- A handler call is logged as `Invocation(id, phase, recursion)`.
- What the driver writes to the socket is appended to `wire`, and what it hands to the
  simulator to `simOutbox`.
- `socketsOpened` counts the sockets the driver has created.

## Model

| member | source | states |
|---|---|---|
| `Driver.Mirobot.constructor` | main.js:4-12 | a new driver holds the url, no handlers and both sensors `null`, and it connects when a url is given |
| `Driver.Mirobot.Ready` | main.js:78-80 | ready means connected or simulating |
| `Driver.Mirobot.Connect` | main.js:22-43 | remembers a given url; opens a socket and arms the connect timeout only when not connected, not latched in error, and a url is known |
| `Driver.Mirobot.Disconnect` | main.js:45-51 | clears `connected` and `error`, detaches the socket's error and close handlers, and closes the socket |
| `Driver.Mirobot.SetConnectedState` | main.js:53-76 | clears the connect timeout and records the state; schedules one debounced pair of state events; disarms the reconnect timer on success and arms it on failure |
| `Driver.Mirobot.HandleError` | main.js:104-114 | on a close event or a timeout, closes an open socket and flushes the queue; any failure marks the driver disconnected (phase reset: see Findings) |
| `Driver.Mirobot.SetSimulator` | main.js:82-84 | records whether a simulator is set: a truthy `sim` sets one, a falsy one removes it |
| `Driver.Mirobot.SetSimulating` | main.js:86-89 | switches the route and announces readiness |
| `Driver.Mirobot.AddEventListener` | main.js:99-102 | appends the listener to the event's list |
| `Driver.Mirobot.Emit` | main.js:91-97 | the loop calls every listener of the event once, in registration order |
| `Driver.Mirobot.SendMsg` | main.js:281-291 | goes to the simulator when simulating with one set; otherwise to the socket when connected, re-arming the response timeout; otherwise nowhere |
| `Driver.Mirobot.ProcessMsgQueue` | main.js:293-298 | when idle with a non-empty queue, moves to receiving and dispatches the head |
| `Driver.Mirobot.Send` | main.js:264-279 | registers the handler and stringifies a truthy argument; dispatches an immediate command at once; otherwise announces `programStart` on an empty queue, queues the command and re-drives |
| `Driver.Mirobot.Turn` | main.js:120-126 | a negative angle is made positive with the direction flipped, then sent |
| `Driver.Mirobot.Stop` | main.js:232-246 | sends `stop` at once, with the drain handler |
| `Driver.Mirobot.SensorState` | main.js:188-214 | changes the object as `collideState`/`followState` do; `Properties.SensorStateDecides` states the poll-or-cache decision |
| `Driver.Mirobot.SensorNotify` | main.js:216-230 | changes the object as `collideSensorNotify`/`followSensorNotify` do; `Properties.SensorNotifyQueues` and `Properties.ReplyArms` state what that does |
| `Driver.Mirobot.Drain` | main.js:236-238 | corrected (Finding 2): the loop calls every registered handler once, in enumeration order, with 'complete' and the recursion marker |
| `Driver.Mirobot.Invoke` | main.js:190-195 | a handler call is logged; corrected (Finding 2): stop's wrapper drains and resets on 'complete'; a query wrapper caches the value; an arming wrapper sets its flag; the handshake marks the driver connected |
| `Driver.Mirobot.Callback` | main.js:328-331 | calls a registered handler with the phase, and deletes it on completion |
| `Driver.Mirobot.CompleteHead` | main.js:316-325 | handler, shift, `programComplete` on an empty queue, idle, re-drive |
| `Driver.Mirobot.HandleMsg` | main.js:300-337 | clears the response timer and dispatches a reply branch by branch, then applies the error latch |
| `Driver.Mirobot.OnOpen` | main.js:29-34 | marks the driver connected and sends `version` with the handshake handler |
| `Driver.Mirobot.OnClose` | main.js:36 | a close event reaches `handleError` unless `disconnect` detached the socket |
| `Driver.Mirobot.OnError` | main.js:35 | an error event reaches `handleError` unless the socket was detached |
| `Driver.Mirobot.ConnTimeout` | main.js:37-41 | closes the socket if the driver is still not connected |
| `Driver.Mirobot.ResponseTimeout` | main.js:289 | the response timeout is a failure of the connection |
| `Driver.Mirobot.Reconnect` | main.js:70-73 | the reconnect timer calls `connect()` with no url |
| `Driver.Mirobot.StateChange` | main.js:58-61 | the debounced timer emits `readyStateChange`, then `connectedStateChange` |
| `Protocol.Stringify` | main.js:269 | a truthy argument becomes text that reads back as the same number or string; a falsy one (absent, 0, "") is left as it is |
| `Protocol.DecimalRoundTrip` | main.js:269 | the decimal text of an integer reads back as that integer |
| `Protocol.StringifyIdempotent` | main.js:269 | stringifying again changes nothing |
| `Protocol.NormalizeTurn` | main.js:120-126 | the angle becomes non-negative and keeps its magnitude; a left/right turn keeps its signed rotation |
| `Protocol.NormalizeTurnIdempotent` | main.js:120-126 | normalising twice is normalising once |
| `Callbacks.Without` | main.js:318 | deleting a key removes every occurrence of it from the enumeration order; every other key stays, the kept keys keep their relative order, and a duplicate-free order stays duplicate-free |
| `Callbacks.DrainedLogCovers` | main.js:236-238 | a drained log calls each registered key exactly once |
| `Callbacks.DrainAsWritten` | main.js:236-238 | as written, the drain visits a prefix of the order and stops exactly at the first sensor query handler; without one it visits the whole order |
| `Callbacks.DrainAsWrittenThrows` | main.js:191-195 | as written, the drain throws if and only if a sensor query is pending |
| `Properties.DeliverAllEffect` | main.js:93-95 | the listener loop adds exactly one call per listener, in order |
| `Properties.EmitEffect` | main.js:91-97 | an emission is recorded and delivered, and nothing else changes |
| `Properties.NestedEffect` | main.js:237 | corrected (Finding 2): a nested call leaves the queue, the phase, the table, the wire and the latch alone |
| `Properties.NestedAllEffect` | main.js:236-238 | corrected (Finding 2): the drain loop logs exactly one nested call per key, in order, and changes nothing in the queue or the table |
| `Properties.DrainCallsDrained` | main.js:236-238 | corrected (Finding 2): the drain calls every registered handler exactly once |
| `Properties.InvokePlain` | main.js:190-229 | every handler call except stop's completion logs one call and leaves the queue, the phase, the table and the wire alone |
| `Properties.InvokeStop` | main.js:234-244 | corrected (Finding 2): stop's completion drains every handler, emits `programComplete` once, and leaves the queue, the table and the phase empty and idle |
| `Properties.RegisterEnumeration` | main.js:266-268 | registering keeps the enumeration order exact |
| `Properties.ForgetEnumeration` | main.js:318 | deleting keeps the enumeration order exact |
| `Properties.CallbackStarted` | main.js:311-313 | 'started' calls the registered handler, if any, and keeps it |
| `Properties.CallbackCompleted` | main.js:316-319 | 'complete' calls the handler once, if any, and removes exactly it |
| `Properties.CallbackDrains` | main.js:328-331 | corrected (Finding 2): completing stop's handler drains and resets the queue and the table |
| `Properties.LatchEffect` | main.js:333-336 | only the "Too many connections" error sets `error`, and it emits `error` |
| `Properties.SendMsgCore` | main.js:281-291 | the command reaches the socket exactly when the driver is on the wire; nothing else in the queue changes |
| `Properties.ProcessSends` | main.js:293-297 | idle with a non-empty queue: moves to receiving and writes the head when on the wire |
| `Properties.ProcessWaits` | main.js:293-298 | otherwise `process_msg_queue` changes nothing |
| `Properties.RegisteredEffect` | main.js:266-268 | registration touches only the table |
| `Properties.SendImmediate` | main.js:270-271 | an immediate command leaves the queue and the phase unchanged and goes out at once; no event is emitted |
| `Properties.SendQueuedIdle` | main.js:272-278 | a queued command when idle is appended at the tail and dispatched; `programStart` is emitted if and only if the queue was empty |
| `Properties.SendQueuedBusy` | main.js:272-278 | a queued command while busy is appended at the tail and waits; `programStart` is emitted if and only if the queue was empty |
| `Properties.NotifyCaches` | main.js:304-307 | a notification emits its id and caches its value; the queue, the table and the phase are untouched |
| `Properties.AcceptedOnHead` | main.js:309-314 | `accepted` for the head calls its handler with 'started' and keeps it; the queue is unchanged and the phase becomes running |
| `Properties.CompleteLast` | main.js:315-325 | `complete` for the only command: handler called and removed, queue empty and idle, `programComplete` emitted, nothing sent |
| `Properties.CompleteNext` | main.js:315-325 | `complete` for the head with more queued: exactly the head leaves, the rest keep their order, the new head goes out, no `programComplete` |
| `Properties.CompleteDrains` | main.js:315-325 | corrected (Finding 2): `complete` for a head whose handler is stop's drain: queue, table and phase reset |
| `Properties.HeadOtherStatus` | main.js:309-336 | any other status for the head changes nothing but the latch |
| `Properties.OtherReply` | main.js:327-336 | a reply for any other id, other than stop's, calls its handler once with 'complete' and removes it; the queue and the phase are never touched |
| `Properties.StopReplyDrains` | main.js:232-246 | corrected (Finding 2): the reply to `stop` calls every registered handler once with the recursion marker, emits `programComplete` once, and empties the queue and the table |
| `Properties.SendKeepsSensors` | main.js:264-279 | `send` leaves the sensor cache, the listening flags and the values handed over alone |
| `Properties.SensorStateDecides` | main.js:188-214 | `collideState`/`followState` poll exactly when no value is cached or the sensor is not listening: then exactly one query command is queued, with the query wrapper as its handler, and nothing is handed over; otherwise nothing is sent or registered and the cached value is handed over |
| `Properties.QueryWrapper` | main.js:191-196 | the query wrapper on 'complete' caches the reply's value under the sensor and hands over exactly that value; on 'started' it does nothing |
| `Properties.QueryAnswered` | main.js:191-196 | the `complete` reply to a poll, for the head or not, caches its value and hands it over |
| `Properties.SensorNotifyQueues` | main.js:216-230 | the notify switch ('true' or 'false') is queued with the arming wrapper as its handler; the sensor fields are untouched |
| `Properties.ArmWrapper` | main.js:218-221 | the arming wrapper, whatever its arguments, sets its sensor listening and changes neither the other sensor's flag, the cache nor the queue |
| `Properties.ReplyArms` | main.js:309-332 | a reply that reaches the arming wrapper ('accepted' or 'complete' for the head, or any reply for another id) sets the sensor listening, whether notifications were switched on or off |
| `Properties.ArmedSensorAnswersFromCache` | main.js:188-230 | after arming, a reply to the switch and a notification with a value, a query is answered from the cache with no round trip |
| `Properties.SimulatorRoute` | main.js:281-291 | after `setSimulator`, a command goes to the simulator exactly when a simulator is set and the driver is simulating, and otherwise to the socket when connected |
| `Properties.HandleErrorFlushes` | main.js:104-113 | a close event or a timeout closes an open socket, flushes the queue and disconnects with a reconnect armed |
| `Properties.HandleErrorDisconnects` | main.js:110-113 | any other failure only disconnects |
| `Properties.HandshakePromotes` | main.js:53-75 | the `version` handler, in any phase, runs `setConnectedState(true)`: connected, `has_connected` set, connect timeout and reconnect timer disarmed, one more state change pending; queue, table, wire, latch and emissions unchanged |
| `Properties.OnOpenSendsVersion` | main.js:29-34 | the open event opens the socket, marks the driver connected and writes the immediate `version` at once (unless the simulator takes it) with the handshake handler; the queue and the rest of the connection flags wait for the reply |
| `Properties.HandshakeReplyPromotes` | main.js:300-337 | any reply that reaches the handshake handler promotes the connection; a reply for an id that is not the head also leaves the response timeout cleared |
| `Properties.OnOpenConnects` | main.js:29-34 | the open event followed by the reply to its `version` leaves the driver connected, with `has_connected` set, neither the connect timeout nor the reconnect timer armed, and exactly one more state change pending; when `version` is not the head of the queue, the response timeout is cleared too (a head completion may re-arm it by writing the next command) |
| `Invariants.QWSent` | main.js:286-287 | only queued-plane commands count toward first-in-first-out on the wire |
| `Invariants.FifoSend` | main.js:264-279 | `send` keeps the invariant, with what it queues appended to the history |
| `Invariants.FifoReply` | main.js:300-337 | every reply keeps the invariant and never clears the latch |
| `Invariants.FifoError` | main.js:104-114 | `handleError` keeps the invariant |
| `Invariants.ConnectRefused` | main.js:22-24 | `connect` while connected or latched in error only remembers a given url |
| `Invariants.ConnectWithoutUrl` | main.js:22-24 | `connect` with no url known does nothing |
| `Invariants.ConnectOpens` | main.js:22-42 | otherwise exactly one socket is created, connecting, with the connect timeout armed |
| `Invariants.FifoConnect` | main.js:22-43 | `connect` keeps the invariant and the latch |
| `Invariants.FifoStep` | main.js:4-341 | every event keeps the invariant, extending the history by what it queues; every event but `disconnect` keeps the latch |
| `Invariants.FifoInit` | main.js:4-12 | a new driver satisfies the invariant |
| `Invariants.FifoRun` | main.js:4-341 | the invariant holds along any run |
| `Invariants.Reachable` | main.js:4-341 | every state reachable from a new driver satisfies the invariant for the commands it queued |
| `Invariants.FifoMeans` | main.js:293-298 | the invariant means a valid state, a queue that is the tail of the queued commands, and queued commands on the wire in queue order with none sent before the ones ahead of it |
| `Invariants.LatchRun` | main.js:333-336 | without `disconnect`, a latched error stays latched and no socket is opened |
| `Invariants.ErrorLatch` | main.js:45-47 | from a new driver, only `disconnect` clears the latch |
| `Invariants.DisconnectUnlatches` | main.js:45-47 | `disconnect` clears the latch and the connected flag |
| `Invariants.HandleErrorAsWrittenStalls` | main.js:104-114 | as written, an error while a command is in flight leaves a stale phase and no valid state; after reconnecting, the next queued `send` queues its command and announces `programStart` but writes nothing |
| `Invariants.HandleErrorResumes` | main.js:104-114 | with the phase reset, the next queued command goes out once the connection is back |

## Left out

- The WebSocket itself (`new WebSocket`, `ws.send`, `ws.close`, `readyState`),
  `JSON.stringify` and `JSON.parse`: messages are records, socket events are actions,
  and `wire` records what would be written.
- Wall-clock time: the 1 s, 3 s, 5 s and 500 ms timers are armed flags and "fired"
  events. The debounced state events are a counter of pending emissions.
- `Math.random` ids are parameters, so two commands may share an id exactly as in the
  source, and nothing assumes ids are fresh.
- The simulator (`sim.send`) is a log of what is handed to it. Its replies enter like
  any other reply.
- `console.log`.
- The `ext.*` Scratch glue, the block descriptors and `fetchDevices`: they are outside
  the driver.
- The callers' own handlers are opaque. A call to one is logged, and has no effect on
  the driver. The caller's callback of `stop` (main.js:243), and the callbacks the
  sensor wrappers pass values to, are represented by the handler log and by `readings`.
- For-in order: JavaScript visits integer-like keys of `cbs` first. The model visits
  keys in insertion order, which is the source's order for non-numeric random ids.
- `disconnect` without a socket throws in the source. The model keeps the cleared
  flags and changes nothing else.
- Stringify: numbers are integers (`Num(n: int)`), whereas the source's are
  floating-point; fractional distances and angles, and the source's exponent notation
  for large numbers, are not modelled.
- NormalizeTurn: holds for integer angles only, for the same reason.
- Connect: the driver keeps a single socket. A `connect` while an earlier socket is still
  connecting replaces it in the model, whereas in the source the old socket's handlers
  stay live and a second connect timer runs. Likewise a socket that `handleError` left
  closing is forgotten when the 5 s reconnect opens a new one. In the source its `onclose`
  is still attached, so a late close event calls `handleError` on the new session: that
  flushes the new queue and arms another reconnect. The model does not capture this.
- `Invariants.FifoMeans` states "at most as often as queued" as a subsequence of the
  queued commands. It does not say which command went out when the same command was
  queued twice.

Three behaviours of the source a reader may not expect, all modelled as written:

- the response timer is cleared by every reply, not only by the head's;
- a command queued while disconnected is marked `receiving` but not re-driven when the
  connection returns;
- an `accepted` reply to `stop` takes the non-head branch, so stop's handler drains on
  that reply already.

The exceptions to modelling as written are Findings 1 and 2 below: the model runs the
corrected behaviour, and keeps the behaviour as written beside it.

## Findings

| source | as written | input that shows it | evidently intended | confidence | as-written member | corrected member |
|---|---|---|---|---|---|---|
| main.js:104-114 | `handleError` empties `msg_stack` but leaves `robot_state` as it was | a response timeout while a command is receiving or running, then a reconnect and any queued `send`: the command is queued and `programStart` emitted, but that `send` writes nothing, because the phase is not idle and `process_msg_queue` waits | a connection failure resets the dispatch phase to idle with the queue emptied | high (not executed) | `Invariants.HandleErrorAsWrittenStalls` | `Invariants.HandleErrorResumes` |
| main.js:191-195, 236-238 | stop's drain calls a pending `collideState`/`followState` wrapper with `msg` undefined; the wrapper reads `msg.msg` and throws | `collideState` while polling, then `stop` and its reply: the drain stops at the wrapper, so `programComplete`, the reset and the rest of the drain never happen | every pending handler is told 'complete', then `programComplete` is emitted, and the queue and the table are reset | medium (not executed) | `Callbacks.DrainAsWrittenThrows` | `Properties.StopReplyDrains` |

For Finding 1, `Machine.HandleErrorAsWritten` is the function as written. The driver and
`Machine.HandleError` reset the phase. For Finding 2, `Callbacks.DrainAsWritten` is the
loop as written. In the model a query wrapper reached by the drain only logs its call
(`Machine.Nested`).
