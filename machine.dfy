/** The driver as a state machine: its whole state as one value, and one function per
    operation or event giving the state after it. The `Mirobot` class is proved to follow
    these functions step for step; the properties of the driver are proved about them. */
module Machine {
  import opened Protocol
  import opened Events
  import opened Callbacks

  /** The dispatch phase of the head of the queue (`robot_state`). */
  datatype RobotState = Idle | Receiving | Running

  datatype WsPhase = Connecting | Open | Closing | Closed

  /** The socket: none yet, or one in some phase. `live` is false once `disconnect` has
      replaced its error and close handlers by no-ops. */
  datatype Socket = NoSocket | Ws(phase: WsPhase, live: bool)

  /** What `handleError` is called with: a close event, the response timeout, or anything
      else (the socket's error event). */
  datatype Failure = CloseEvent | Timeout | OtherFailure

  /** Everything the driver holds, and a record of what it has done to the outside world:
      `socketsOpened` counts the sockets it created, `wire` the messages written to the socket,
      `simOutbox` those handed to the simulator, `calls` the handler calls, `emitted` and
      `deliveries` the events and the listener calls they made, `readings` the sensor
      values handed to callers. */
  datatype State = State(
    url: string, connected: bool, error: bool, hasConnected: bool, socket: Socket, socketsOpened: nat,
    simulating: bool, hasSim: bool,
    connTimeoutArmed: bool, responseTimerArmed: bool, reconnectArmed: bool, pendingStateEmits: nat,
    msgStack: seq<Command>, robotState: RobotState, cbs: Table, cbOrder: seq<string>,
    sensorState: map<string, Payload>, collideListening: bool, followListening: bool,
    listeners: ListenerTable,
    wire: seq<Command>, simOutbox: seq<Command>, calls: seq<Invocation>,
    emitted: seq<Emission>, deliveries: seq<Delivery>, readings: seq<Reading>)

  // ---------------------------------------------------------------------------
  // Helpers
  // ---------------------------------------------------------------------------

  /** `ws.close()`: a socket that is connecting or open starts closing. */
  function CloseSocket(ws: Socket): Socket {
    match ws
    case NoSocket => ws
    case Ws(p, live) => Ws(if p == Connecting || p == Open then Closing else p, live)
  }

  /** `if(this.ws.readyState === WebSocket.OPEN) this.ws.close()`. */
  function CloseIfOpen(ws: Socket): Socket {
    if ws.Ws? && ws.phase == Open then CloseSocket(ws) else ws
  }

  /** A read of the sensor cache: a key never written reads as `undefined`. */
  function Lookup(cache: map<string, Payload>, key: string): Payload {
    if key in cache then cache[key] else Undefined
  }

  /** `ready()`. */
  predicate Ready(s: State) {
    s.connected || s.simulating
  }

  function ReadyText(s: State): string {
    if Ready(s) then "ready" else "notReady"
  }

  function ConnectedText(s: State): string {
    if s.connected then "connected" else "disconnected"
  }

  function Listening(s: State, sensor: Sensor): bool {
    if sensor == Collide then s.collideListening else s.followListening
  }

  predicate HeadIs(s: State, id: string) {
    |s.msgStack| > 0 && s.msgStack[0].id == id
  }

  /** The invariant of the driver: the queue holds only queued-plane commands; its head is
      in flight exactly when it is non-empty; and the enumeration order of the callback
      table lists each registered id once. */
  ghost predicate Valid(s: State) {
    (forall i :: 0 <= i < |s.msgStack| ==> !IsImmediate(s.msgStack[i].cmd)) &&
    ((s.robotState == Idle) <==> (s.msgStack == [])) &&
    IsEnumeration(s.cbOrder, s.cbs.Keys)
  }

  // ---------------------------------------------------------------------------
  // Construction and connection
  // ---------------------------------------------------------------------------

  /** `connect(url)`: remembers a given url; creates a socket and arms the 1 s connect
      timeout only when neither connected nor latched in error, and a url is known. */
  function Connect(s: State, u: string): State {
    var s1 := if u != "" then SetUrl(s, u) else s;
    if CanConnect(s1) then OpenSocket(s1) else s1
  }

  function SetUrl(s: State, u: string): State {
    s.(url := u)
  }

  /** The guard of `connect`: not connected, not latched in error, and a url known. */
  predicate CanConnect(s: State) {
    !s.connected && !s.error && s.url != ""
  }

  /** A new socket, connecting, with the connect timeout armed. */
  function OpenSocket(s: State): State {
    ArmConnTimeout(NewSocket(s))
  }

  function NewSocket(s: State): State {
    s.(hasConnected := false, socket := Ws(Connecting, true))
  }

  function ArmConnTimeout(s: State): State {
    s.(socketsOpened := s.socketsOpened + 1, connTimeoutArmed := true)
  }

  /** `new Mirobot(url)`: nothing registered, both sensors unknown (`null`), and a
      connection attempt when a url is given. */
  function Init(u: string): State {
    var s := State(u, false, false, false, NoSocket, 0, false, false, false, false, false, 0,
                   [], Idle, map[], [], map["follow" := Null, "collide" := Null], false, false, map[],
                   [], [], [], [], [], []);
    if u != "" then Connect(s, "") else s
  }

  /** `disconnect()`: clears the connected and error flags, detaches the socket's error and
      close handlers and closes it. Without a socket the flags are cleared and nothing else
      happens (the source then throws). */
  function Disconnect(s: State): State {
    DetachSocket(ClearFlags(s))
  }

  function ClearFlags(s: State): State {
    s.(connected := false, error := false)
  }

  function DetachSocket(s: State): State {
    s.(socket := Detach(s.socket))
  }

  /** The socket with its handlers replaced by no-ops, and closed. */
  function Detach(ws: Socket): Socket {
    match ws
    case NoSocket => NoSocket
    case Ws(_, _) => Ws(CloseSocket(ws).phase, false)
  }

  /** `setConnectedState(state)`: clears the connect timeout, records the state, schedules
      one debounced pair of state-change events, and disarms (state) or arms (not state)
      the reconnect timer. */
  function SetConnectedState(s: State, state: bool): State {
    SetReconnectTimer(ScheduleStateChange(RecordConnected(s, state), state), state)
  }

  /** The connect timeout cleared and the state recorded. */
  function RecordConnected(s: State, state: bool): State {
    s.(connTimeoutArmed := false, connected := state)
  }

  /** `has_connected` set on success, and one more debounced state-change pending. */
  function ScheduleStateChange(s: State, state: bool): State {
    s.(hasConnected := s.hasConnected || state, pendingStateEmits := s.pendingStateEmits + 1)
  }

  /** The reconnect timer disarmed on success, armed on failure. */
  function SetReconnectTimer(s: State, state: bool): State {
    s.(reconnectArmed := !state)
  }

  /** `handleError(err)`: on a close event or the response timeout the socket is closed if
      open and the queue is flushed, with the dispatch phase reset (see Findings in the
      README); any failure marks the driver disconnected. */
  function HandleError(s: State, f: Failure): State {
    var s1 := if f != OtherFailure then Flush(s) else s;
    SetConnectedState(s1, false)
  }

  /** The socket closed if open, and the queue flushed and idle. */
  function Flush(s: State): State {
    IdleQueue(s.(socket := CloseIfOpen(s.socket)))
  }

  /** The queue emptied and the phase idle. */
  function IdleQueue(s: State): State {
    s.(robotState := Idle, msgStack := [])
  }

  /** `handleError(err)` as written: the queue is flushed but the phase is left as it was. */
  function HandleErrorAsWritten(s: State, f: Failure): State {
    var s1 := if f != OtherFailure then s.(socket := CloseIfOpen(s.socket), msgStack := []) else s;
    SetConnectedState(s1, false)
  }

  /** `setSimulator(sim)`: `present` is whether `sim` is truthy; a falsy `sim` removes the
      simulator, so `send_msg` falls back to the socket. */
  function SetSimulator(s: State, present: bool): State {
    s.(hasSim := present)
  }

  /** `setSimulating(s)`: switches the route and announces readiness. */
  function SetSimulating(s: State, on: bool): State {
    var s1 := SetSimulatingFlag(s, on);
    Emit(s1, "readyStateChange", Some(ReadyText(s1)))
  }

  function SetSimulatingFlag(s: State, on: bool): State {
    s.(simulating := on)
  }

  // ---------------------------------------------------------------------------
  // Event bus
  // ---------------------------------------------------------------------------

  /** `addEventListener(event, listener)`. */
  function AddEventListener(s: State, name: string, l: nat): State {
    s.(listeners := s.listeners[name := ListenersOf(s.listeners, name) + [l]])
  }

  /** `emitEvent(event, msg)`: every listener of the event is called, in order. */
  function Emit(s: State, name: string, payload: Option<string>): State {
    var e := Emission(name, payload);
    DeliverAll(Announce(s, e), ListenersOf(s.listeners, name), e)
  }

  /** The listener loop of `emitEvent`: each listener of `ls` called with `e`, in order. */
  function DeliverAll(s: State, ls: seq<nat>, e: Emission): State {
    if ls == [] then s else Deliver(DeliverAll(s, ls[..|ls| - 1], e), Delivery(ls[|ls| - 1], e))
  }

  /** The emission recorded, before any listener is called. */
  function Announce(s: State, e: Emission): State {
    s.(emitted := s.emitted + [e])
  }

  /** One listener call. */
  function Deliver(s: State, d: Delivery): State {
    s.(deliveries := s.deliveries + [d])
  }

  // ---------------------------------------------------------------------------
  // Dispatch
  // ---------------------------------------------------------------------------

  /** Whether `send_msg` writes to the socket (rather than to the simulator, or nowhere). */
  predicate OnWire(s: State) {
    !(s.simulating && s.hasSim) && s.connected
  }

  /** `send_msg(msg)`: to the simulator when simulating with one set, else to the socket
      when connected (re-arming the 3 s response timeout), else nowhere. */
  function SendMsg(s: State, c: Command): State {
    if s.simulating && s.hasSim then SimSend(s, c)
    else if s.connected then Transmit(s, c)
    else s
  }

  /** `sim.send(...)`. */
  function SimSend(s: State, c: Command): State {
    s.(simOutbox := s.simOutbox + [c])
  }

  /** `ws.send(...)` and the response timeout re-armed. */
  function Transmit(s: State, c: Command): State {
    s.(wire := s.wire + [c], responseTimerArmed := true)
  }

  /** `process_msg_queue()`: when idle and something is queued, the head goes out and is
      now being received. */
  function ProcessMsgQueue(s: State): State {
    if s.robotState == Idle && |s.msgStack| > 0 then SendMsg(SetPhase(s, Receiving), s.msgStack[0])
    else s
  }

  function SetPhase(s: State, p: RobotState): State {
    s.(robotState := p)
  }

  /** The command appended to the queue. */
  function Enqueue(s: State, c: Command): State {
    s.(msgStack := s.msgStack + [c])
  }

  /** `this.cbs[id] = cb`: a new key goes to the end of the enumeration order. */
  function Register(s: State, id: string, h: Handler): State {
    s.(cbs := s.cbs[id := h], cbOrder := if id in s.cbs then s.cbOrder else s.cbOrder + [id])
  }

  /** `delete this.cbs[id]`. */
  function Unregister(s: State, id: string): State {
    s.(cbs := s.cbs - {id}, cbOrder := Without(s.cbOrder, id))
  }

  /** `send(msg, cb)` with the id `id`: registers the handler, stringifies a truthy argument,
      and either sends an immediate command at once or queues it, announcing
      `programStart` when the queue was empty. */
  function Send(s: State, cmd: string, arg: Arg, id: string, handler: Option<Handler>): State {
    var s1 := if handler.Some? then Register(s, id, handler.value) else s;
    var c := Command(cmd, Stringify(arg), id);
    if IsImmediate(cmd) then SendMsg(s1, c)
    else
      var s2 := if |s1.msgStack| == 0 then Emit(s1, "programStart", None) else s1;
      ProcessMsgQueue(Enqueue(s2, c))
  }

  /** `turn(direction, angle, cb)`. */
  function Turn(s: State, direction: string, angle: int, id: string, handler: Option<Handler>): State {
    var t := NormalizeTurn(direction, angle);
    Send(s, t.0, Num(t.1), id, handler)
  }

  /** `stop(cb)`: sends `stop` at once, with the drain handler. */
  function Stop(s: State, id: string): State {
    Send(s, "stop", NoArg, id, Some(StopDrain))
  }

  /** `collideState(cb)` / `followState(cb)`: polls the robot unless the sensor has a cached
      value and notifications are armed, in which case the cached value is handed over. */
  function SensorState(s: State, sensor: Sensor, id: string): State {
    if Polls(s, sensor) then Send(s, sensor.QueryCmd(), NoArg, id, Some(SensorQuery(sensor)))
    else HandOver(s, Reading(sensor, Lookup(s.sensorState, sensor.Name())))
  }

  /** Whether a sensor query asks the robot: no value cached yet, or notifications not
      armed. */
  predicate Polls(s: State, sensor: Sensor) {
    Lookup(s.sensorState, sensor.Name()) == Null || !Listening(s, sensor)
  }

  /** A reading handed to the caller. */
  function HandOver(s: State, reading: Reading): State {
    s.(readings := s.readings + [reading])
  }

  /** `collideSensorNotify(state, cb)` / `followSensorNotify(state, cb)`. */
  function SensorNotify(s: State, sensor: Sensor, on: bool, id: string): State {
    Send(s, sensor.NotifyCmd(), Str(if on then "true" else "false"), id, Some(SensorArm(sensor)))
  }

  // ---------------------------------------------------------------------------
  // Handlers
  // ---------------------------------------------------------------------------

  /** Records one handler call. */
  function Log(s: State, inv: Invocation): State {
    s.(calls := s.calls + [inv])
  }

  /** `cbs[id]('complete', undefined, true)`, as stop's drain makes it: a sensor query
      without a reply and a stop reached this way do nothing but be recorded. */
  function Nested(s: State, id: string, h: Handler): State {
    var s1 := Log(s, Invocation(id, Completed, true));
    match h
    case SensorArm(sensor) => Arm(s1, sensor)
    case Handshake => SetConnectedState(s1, true)
    case _ => s1
  }

  /** The drain loop over the keys `keys` of `table`, one nested call per key. */
  function NestedAll(s: State, keys: seq<string>, table: Table): State {
    if keys == [] then s
    else
      var s1 := NestedAll(s, keys[..|keys| - 1], table);
      var k := keys[|keys| - 1];
      if k in table then Nested(s1, k, table[k]) else s1
  }

  /** The loop of stop's handler: every registered handler, in enumeration order. */
  function Drain(s: State): State {
    NestedAll(s, s.cbOrder, s.cbs)
  }

  /** Stop's handler on completion: the drain, `programComplete`, and the reset of the
      phase, the queue and the table. */
  function StopComplete(s: State): State {
    Reset(Emit(Drain(s), "programComplete", None))
  }

  /** Idle, with an empty queue and an empty table. */
  function Reset(s: State): State {
    ClearTable(IdleQueue(s))
  }

  function ClearTable(s: State): State {
    s.(cbs := map[], cbOrder := [])
  }

  /** A sensor's listening flag set. */
  function Arm(s: State, sensor: Sensor): State {
    s.(collideListening := s.collideListening || sensor == Collide,
       followListening := s.followListening || sensor == Follow)
  }

  /** A sensor value cached and handed to the caller. */
  function Cache(s: State, sensor: Sensor, value: Payload): State {
    s.(sensorState := s.sensorState[sensor.Name() := value], readings := s.readings + [Reading(sensor, value)])
  }

  /** `cbs[id](phase, reply)` for the handler `h`. */
  function Invoke(s: State, id: string, h: Handler, phase: Phase, reply: Reply): State {
    var s1 := Log(s, Invocation(id, phase, false));
    match h
    case Caller => s1
    case StopDrain => if phase == Completed then StopComplete(s1) else s1
    case SensorQuery(sensor) => if phase == Completed then Cache(s1, sensor, reply.msg) else s1
    case SensorArm(sensor) => Arm(s1, sensor)
    case Handshake => SetConnectedState(s1, true)
  }

  /** `if (this.cbs[id]) { this.cbs[id](phase, reply); delete this.cbs[id]; }`, the
      removal only on completion. */
  function Callback(s: State, r: Reply, phase: Phase): State {
    if r.id in s.cbs then
      var s1 := Invoke(s, r.id, s.cbs[r.id], phase, r);
      if phase == Completed then Unregister(s1, r.id) else s1
    else s
  }

  // ---------------------------------------------------------------------------
  // Replies
  // ---------------------------------------------------------------------------

  /** `complete` for the head: handler, shift, `programComplete` when the queue is then
      empty, idle, and the next command. */
  function CompleteHead(s: State, r: Reply): State {
    var s1 := Callback(s, r, Completed);
    var s2 := Shift(s1);
    var s3 := if |s2.msgStack| == 0 then Emit(s2, "programComplete", None) else s2;
    ProcessMsgQueue(SetPhase(s3, Idle))
  }

  /** `Array.prototype.shift` on the queue: the head removed, if any. */
  function Shifted(q: seq<Command>): seq<Command> {
    if |q| > 0 then q[1..] else q
  }

  function Shift(s: State): State {
    s.(msgStack := Shifted(s.msgStack))
  }

  /** The error latch: a "Too many connections" error sets `error` and emits `error`. */
  function Latch(s: State, r: Reply): State {
    if IsFatal(r) then Emit(LatchError(s), "error", None) else s
  }

  function LatchError(s: State): State {
    s.(error := true)
  }

  /** A notification's value cached under its id. */
  function CacheNotify(s: State, r: Reply): State {
    s.(sensorState := s.sensorState[r.id := r.msg])
  }

  function ClearResponseTimer(s: State): State {
    s.(responseTimerArmed := false)
  }

  /** `handle_msg(msg)`. */
  function HandleMsg(s: State, r: Reply): State {
    var s1 := ClearResponseTimer(s);
    if r.status == Notify then
      CacheNotify(Emit(s1, r.id, None), r)
    else
      var s2 :=
        if HeadIs(s1, r.id) then
          if r.status == Accepted then SetPhase(Callback(s1, r, Started), Running)
          else if r.status == Complete then CompleteHead(s1, r)
          else s1
        else Callback(s1, r, Completed);
      Latch(s2, r)
  }

  // ---------------------------------------------------------------------------
  // Socket and timer events
  // ---------------------------------------------------------------------------

  /** The socket's open event: connected, and the `version` handshake goes out. */
  function OnOpen(s: State, versionId: string): State
    requires s.socket.Ws?
  {
    Send(MarkOpen(s), "version", NoArg, versionId, Some(Handshake))
  }

  function MarkOpen(s: State): State
    requires s.socket.Ws?
  {
    s.(socket := Ws(Open, s.socket.live), connected := true)
  }

  /** The socket's close event: reaches `handleError` unless `disconnect` detached it. */
  function OnClose(s: State): State
    requires s.socket.Ws?
  {
    var s1 := MarkClosed(s);
    if s.socket.live then HandleError(s1, CloseEvent) else s1
  }

  function MarkClosed(s: State): State
    requires s.socket.Ws?
  {
    s.(socket := Ws(Closed, s.socket.live))
  }

  /** The socket's error event: reaches `handleError` unless `disconnect` detached it. */
  function OnError(s: State): State
    requires s.socket.Ws?
  {
    if s.socket.live then HandleError(s, OtherFailure) else s
  }

  /** The connect timeout: the socket is closed if the driver is still not connected. */
  function ConnTimeout(s: State): State {
    s.(connTimeoutArmed := false, socket := if s.connected then s.socket else CloseSocket(s.socket))
  }

  /** The response timeout: a failure of the connection. */
  function ResponseTimeout(s: State): State {
    HandleError(ClearResponseTimer(s), Timeout)
  }

  /** The reconnect timer: `connect()` with no url. */
  function Reconnect(s: State): State {
    Connect(DisarmReconnect(s), "")
  }

  function DisarmReconnect(s: State): State {
    s.(reconnectArmed := false)
  }

  /** A debounced state-change timer: `readyStateChange` then `connectedStateChange`. */
  function StateChange(s: State): State
    requires s.pendingStateEmits > 0
  {
    var s1 := s.(pendingStateEmits := s.pendingStateEmits - 1);
    var s2 := Emit(s1, "readyStateChange", Some(ReadyText(s1)));
    Emit(s2, "connectedStateChange", Some(ConnectedText(s2)))
  }

  // ---------------------------------------------------------------------------
  // Runs
  // ---------------------------------------------------------------------------

  /** Everything that can happen to the driver: a call of its public interface, a reply,
      or a socket or timer event. An event that cannot happen in the current state (a
      timer that is not armed, a socket event without a socket) changes nothing. */
  datatype Action =
    | UserSend(cmd: string, arg: Arg, id: string, handler: Option<Handler>)
    | UserTurn(direction: string, angle: int, id: string, handler: Option<Handler>)
    | UserStop(id: string)
    | UserSensorState(sensor: Sensor, id: string)
    | UserSensorNotify(sensor: Sensor, on: bool, id: string)
    | UserConnect(url: string)
    | UserDisconnect
    | UserSetSimulator(present: bool)
    | UserSetSimulating(on: bool)
    | UserListen(name: string, listener: nat)
    | Received(reply: Reply)
    | SocketOpened(versionId: string)
    | SocketClosed
    | SocketErrored
    | ConnTimeoutFired
    | ResponseTimeoutFired
    | ReconnectFired
    | StateChangeFired

  function Step(s: State, a: Action): State {
    match a
    case UserSend(cmd, arg, id, h) => Send(s, cmd, arg, id, h)
    case UserTurn(d, angle, id, h) => Turn(s, d, angle, id, h)
    case UserStop(id) => Stop(s, id)
    case UserSensorState(sensor, id) => SensorState(s, sensor, id)
    case UserSensorNotify(sensor, on, id) => SensorNotify(s, sensor, on, id)
    case UserConnect(u) => Connect(s, u)
    case UserDisconnect => Disconnect(s)
    case UserSetSimulator(present) => SetSimulator(s, present)
    case UserSetSimulating(on) => SetSimulating(s, on)
    case UserListen(name, l) => AddEventListener(s, name, l)
    case Received(r) => HandleMsg(s, r)
    case SocketOpened(v) => if s.socket.Ws? && s.socket.phase == Connecting then OnOpen(s, v) else s
    case SocketClosed => if s.socket.Ws? && s.socket.phase != Closed then OnClose(s) else s
    case SocketErrored => if s.socket.Ws? then OnError(s) else s
    case ConnTimeoutFired => if s.connTimeoutArmed then ConnTimeout(s) else s
    case ResponseTimeoutFired => if s.responseTimerArmed then ResponseTimeout(s) else s
    case ReconnectFired => if s.reconnectArmed then Reconnect(s) else s
    case StateChangeFired => if s.pendingStateEmits > 0 then StateChange(s) else s
  }

  function Run(s: State, actions: seq<Action>): State {
    if actions == [] then s else Step(Run(s, actions[..|actions| - 1]), actions[|actions| - 1])
  }
}
