/** The `Mirobot` driver object. Its fields are those of the source object, plus the
    record of what it has done (`wire`, `calls`, `emitted`, ...); every method is proved to
    change them exactly as the corresponding function of `Machine` says, so the properties
    proved about `Machine` hold of the object. */
module Driver {
  import opened Protocol
  import opened Events
  import opened Callbacks
  import Machine

  class Mirobot {
    var url: string
    var connected: bool
    var error: bool
    var hasConnected: bool
    var socket: Machine.Socket
    var socketsOpened: nat
    var simulating: bool
    var hasSim: bool
    var connTimeoutArmed: bool
    var responseTimerArmed: bool
    var reconnectArmed: bool
    var pendingStateEmits: nat
    var msgStack: seq<Command>
    var robotState: Machine.RobotState
    var cbs: Table
    var cbOrder: seq<string>
    var sensorState: map<string, Payload>
    var collideListening: bool
    var followListening: bool
    var listeners: ListenerTable
    var wire: seq<Command>
    var simOutbox: seq<Command>
    var calls: seq<Invocation>
    var emitted: seq<Emission>
    var deliveries: seq<Delivery>
    var readings: seq<Reading>

    /** The object's state as a value. */
    function St(): Machine.State
      reads this
    {
      Machine.State(url, connected, error, hasConnected, socket, socketsOpened, simulating, hasSim,
                    connTimeoutArmed, responseTimerArmed, reconnectArmed, pendingStateEmits,
                    msgStack, robotState, cbs, cbOrder, sensorState, collideListening, followListening,
                    listeners, wire, simOutbox, calls, emitted, deliveries, readings)
    }

    constructor (u: string)
      ensures St() == Machine.Init(u)
    {
      url := u;
      connected, error, hasConnected := false, false, false;
      socket, socketsOpened := Machine.NoSocket, 0;
      simulating, hasSim := false, false;
      connTimeoutArmed, responseTimerArmed, reconnectArmed, pendingStateEmits := false, false, false, 0;
      msgStack, robotState := [], Machine.Idle;
      cbs, cbOrder := map[], [];
      sensorState := map["follow" := Null, "collide" := Null];
      collideListening, followListening := false, false;
      listeners := map[];
      wire, simOutbox, calls, emitted, deliveries, readings := [], [], [], [], [], [];
      new;
      if u != "" {
        Connect("");
      }
    }

    method Ready() returns (r: bool)
      ensures r == Machine.Ready(St())
    {
      r := connected || simulating;
    }

    // -------------------------------------------------------------------------
    // Connection
    // -------------------------------------------------------------------------

    method Connect(u: string)
      modifies this
      ensures St() == Machine.Connect(old(St()), u)
    {
      if u != "" {
        SetUrl(u);
      }
      if !connected && !error && url != "" {
        OpenSocket();
      }
    }

    method SetUrl(u: string)
      modifies this
      ensures St() == Machine.SetUrl(old(St()), u)
    {
      url := u;
    }

    method OpenSocket()
      modifies this
      ensures St() == Machine.OpenSocket(old(St()))
    {
      NewSocket();
      ArmConnTimeout();
    }

    method NewSocket()
      modifies this
      ensures St() == Machine.NewSocket(old(St()))
    {
      hasConnected, socket := false, Machine.Ws(Machine.Connecting, true);
    }

    method ArmConnTimeout()
      modifies this
      ensures St() == Machine.ArmConnTimeout(old(St()))
    {
      socketsOpened, connTimeoutArmed := socketsOpened + 1, true;
    }

    method Disconnect()
      modifies this
      ensures St() == Machine.Disconnect(old(St()))
    {
      ClearFlags();
      DetachSocket();
    }

    method ClearFlags()
      modifies this
      ensures St() == Machine.ClearFlags(old(St()))
    {
      connected, error := false, false;
    }

    method DetachSocket()
      modifies this
      ensures St() == Machine.DetachSocket(old(St()))
    {
      socket := Machine.Detach(socket);
    }

    method SetConnectedState(state: bool)
      modifies this
      ensures St() == Machine.SetConnectedState(old(St()), state)
    {
      RecordConnected(state);
      ScheduleStateChange(state);
      SetReconnectTimer(state);
    }

    method RecordConnected(state: bool)
      modifies this
      ensures St() == Machine.RecordConnected(old(St()), state)
    {
      connTimeoutArmed, connected := false, state;
    }

    method ScheduleStateChange(state: bool)
      modifies this
      ensures St() == Machine.ScheduleStateChange(old(St()), state)
    {
      hasConnected, pendingStateEmits := hasConnected || state, pendingStateEmits + 1;
    }

    method SetReconnectTimer(state: bool)
      modifies this
      ensures St() == Machine.SetReconnectTimer(old(St()), state)
    {
      reconnectArmed := !state;
    }

    method HandleError(f: Machine.Failure)
      modifies this
      ensures St() == Machine.HandleError(old(St()), f)
    {
      if f != Machine.OtherFailure {
        Flush();
      }
      SetConnectedState(false);
    }

    method Flush()
      modifies this
      ensures St() == Machine.Flush(old(St()))
    {
      CloseIfOpen();
      IdleQueue();
    }

    method CloseIfOpen()
      modifies this
      ensures St() == old(St()).(socket := Machine.CloseIfOpen(old(socket)))
    {
      socket := Machine.CloseIfOpen(socket);
    }

    method IdleQueue()
      modifies this
      ensures St() == Machine.IdleQueue(old(St()))
    {
      robotState, msgStack := Machine.Idle, [];
    }

    /** `setSimulator(sim)`; `present` is whether `sim` is truthy. */
    method SetSimulator(present: bool)
      modifies this
      ensures St() == Machine.SetSimulator(old(St()), present)
    {
      hasSim := present;
    }

    method SetSimulating(on: bool)
      modifies this
      ensures St() == Machine.SetSimulating(old(St()), on)
    {
      SetSimulatingFlag(on);
      Emit("readyStateChange", Some(if connected || simulating then "ready" else "notReady"));
    }

    method SetSimulatingFlag(on: bool)
      modifies this
      ensures St() == Machine.SetSimulatingFlag(old(St()), on)
    {
      simulating := on;
    }

    // -------------------------------------------------------------------------
    // Event bus
    // -------------------------------------------------------------------------

    method AddEventListener(name: string, l: nat)
      modifies this
      ensures St() == Machine.AddEventListener(old(St()), name, l)
    {
      listeners := listeners[name := ListenersOf(listeners, name) + [l]];
    }

    /** Calls the event's listeners one by one. */
    method Emit(name: string, payload: Option<string>)
      modifies this
      ensures St() == Machine.Emit(old(St()), name, payload)
    {
      var e := Emission(name, payload);
      var ls := ListenersOf(listeners, name);
      Announce(e);
      var i := 0;
      while i < |ls|
        invariant 0 <= i <= |ls|
        invariant St() == Machine.DeliverAll(Machine.Announce(old(St()), e), ls[..i], e)
      {
        assert ls[..i + 1][..i] == ls[..i];
        Deliver(Delivery(ls[i], e));
        i := i + 1;
      }
      assert ls[..i] == ls;
    }

    method Announce(e: Emission)
      modifies this
      ensures St() == Machine.Announce(old(St()), e)
    {
      emitted := emitted + [e];
    }

    method Deliver(d: Delivery)
      modifies this
      ensures St() == Machine.Deliver(old(St()), d)
    {
      deliveries := deliveries + [d];
    }

    // -------------------------------------------------------------------------
    // Dispatch
    // -------------------------------------------------------------------------

    method SendMsg(c: Command)
      modifies this
      ensures St() == Machine.SendMsg(old(St()), c)
    {
      if simulating && hasSim {
        SimSend(c);
      } else if connected {
        Transmit(c);
      }
    }

    method SimSend(c: Command)
      modifies this
      ensures St() == Machine.SimSend(old(St()), c)
    {
      simOutbox := simOutbox + [c];
    }

    method Transmit(c: Command)
      modifies this
      ensures St() == Machine.Transmit(old(St()), c)
    {
      wire, responseTimerArmed := wire + [c], true;
    }

    method ProcessMsgQueue()
      modifies this
      ensures St() == Machine.ProcessMsgQueue(old(St()))
    {
      if robotState == Machine.Idle && |msgStack| > 0 {
        SetPhase(Machine.Receiving);
        SendMsg(msgStack[0]);
      }
    }

    method SetPhase(p: Machine.RobotState)
      modifies this
      ensures St() == Machine.SetPhase(old(St()), p)
    {
      robotState := p;
    }

    method Send(cmd: string, arg: Arg, id: string, handler: Option<Handler>)
      modifies this
      ensures St() == Machine.Send(old(St()), cmd, arg, id, handler)
    {
      if handler.Some? {
        Register(id, handler.value);
      }
      var c := Command(cmd, Stringify(arg), id);
      if IsImmediate(cmd) {
        SendMsg(c);
      } else {
        if |msgStack| == 0 {
          Emit("programStart", None);
        }
        Enqueue(c);
        ProcessMsgQueue();
      }
    }

    method Register(id: string, h: Handler)
      modifies this
      ensures St() == Machine.Register(old(St()), id, h)
    {
      cbOrder, cbs := if id in cbs then cbOrder else cbOrder + [id], cbs[id := h];
    }

    method Enqueue(c: Command)
      modifies this
      ensures St() == Machine.Enqueue(old(St()), c)
    {
      msgStack := msgStack + [c];
    }

    method Turn(direction: string, angle: int, id: string, handler: Option<Handler>)
      modifies this
      ensures St() == Machine.Turn(old(St()), direction, angle, id, handler)
    {
      var t := NormalizeTurn(direction, angle);
      Send(t.0, Num(t.1), id, handler);
    }

    method Stop(id: string)
      modifies this
      ensures St() == Machine.Stop(old(St()), id)
    {
      Send("stop", NoArg, id, Some(StopDrain));
    }

    method SensorState(sensor: Sensor, id: string)
      modifies this
      ensures St() == Machine.SensorState(old(St()), sensor, id)
    {
      var cached := Machine.Lookup(sensorState, sensor.Name());
      var listening := if sensor == Collide then collideListening else followListening;
      if cached == Null || !listening {
        Send(sensor.QueryCmd(), NoArg, id, Some(SensorQuery(sensor)));
      } else {
        HandOver(Reading(sensor, cached));
      }
    }

    method HandOver(reading: Reading)
      modifies this
      ensures St() == Machine.HandOver(old(St()), reading)
    {
      readings := readings + [reading];
    }

    method SensorNotify(sensor: Sensor, on: bool, id: string)
      modifies this
      ensures St() == Machine.SensorNotify(old(St()), sensor, on, id)
    {
      Send(sensor.NotifyCmd(), Str(if on then "true" else "false"), id, Some(SensorArm(sensor)));
    }

    // -------------------------------------------------------------------------
    // Handlers
    // -------------------------------------------------------------------------

    method Log(inv: Invocation)
      modifies this
      ensures St() == Machine.Log(old(St()), inv)
    {
      calls := calls + [inv];
    }

    /** A handler called by stop's drain. */
    method Nested(id: string, h: Handler)
      modifies this
      ensures St() == Machine.Nested(old(St()), id, h)
    {
      Log(Invocation(id, Completed, true));
      match h {
        case SensorArm(sensor) =>
          Arm(sensor);
        case Handshake =>
          SetConnectedState(true);
        case _ =>
      }
    }

    /** Stop's drain: every registered handler, in enumeration order. */
    method Drain()
      modifies this
      ensures St() == Machine.Drain(old(St()))
    {
      var table, order := cbs, cbOrder;
      var i := 0;
      while i < |order|
        invariant 0 <= i <= |order|
        invariant St() == Machine.NestedAll(old(St()), order[..i], table)
      {
        assert order[..i + 1][..i] == order[..i];
        var k := order[i];
        if k in table {
          Nested(k, table[k]);
        }
        i := i + 1;
      }
      assert order[..i] == order;
    }

    method Invoke(id: string, h: Handler, phase: Phase, reply: Reply)
      modifies this
      ensures St() == Machine.Invoke(old(St()), id, h, phase, reply)
    {
      Log(Invocation(id, phase, false));
      match h {
        case Caller =>
        case StopDrain =>
          if phase == Completed {
            Drain();
            Emit("programComplete", None);
            Reset();
          }
        case SensorQuery(sensor) =>
          if phase == Completed {
            Cache(sensor, reply.msg);
          }
        case SensorArm(sensor) =>
          Arm(sensor);
        case Handshake =>
          SetConnectedState(true);
      }
    }

    method Reset()
      modifies this
      ensures St() == Machine.Reset(old(St()))
    {
      IdleQueue();
      ClearTable();
    }

    method ClearTable()
      modifies this
      ensures St() == Machine.ClearTable(old(St()))
    {
      cbs, cbOrder := map[], [];
    }

    method Arm(sensor: Sensor)
      modifies this
      ensures St() == Machine.Arm(old(St()), sensor)
    {
      collideListening, followListening := collideListening || sensor == Collide, followListening || sensor == Follow;
    }

    method Cache(sensor: Sensor, value: Payload)
      modifies this
      ensures St() == Machine.Cache(old(St()), sensor, value)
    {
      sensorState, readings := sensorState[sensor.Name() := value], readings + [Reading(sensor, value)];
    }

    method Callback(r: Reply, phase: Phase)
      modifies this
      ensures St() == Machine.Callback(old(St()), r, phase)
    {
      if r.id in cbs {
        Invoke(r.id, cbs[r.id], phase, r);
        if phase == Completed {
          Unregister(r.id);
        }
      }
    }

    method Unregister(id: string)
      modifies this
      ensures St() == Machine.Unregister(old(St()), id)
    {
      var t := Machine.Unregister(St(), id);
      cbs, cbOrder := t.cbs, t.cbOrder;
    }

    // -------------------------------------------------------------------------
    // Replies
    // -------------------------------------------------------------------------

    method CompleteHead(r: Reply)
      modifies this
      ensures St() == Machine.CompleteHead(old(St()), r)
    {
      Callback(r, Completed);
      Shift();
      if |msgStack| == 0 {
        Emit("programComplete", None);
      }
      SetPhase(Machine.Idle);
      ProcessMsgQueue();
    }

    method Shift()
      modifies this
      ensures St() == Machine.Shift(old(St()))
    {
      msgStack := Machine.Shifted(msgStack);
    }

    method HandleMsg(r: Reply)
      modifies this
      ensures St() == Machine.HandleMsg(old(St()), r)
    {
      ClearResponseTimer();
      if r.status == Notify {
        Emit(r.id, None);
        CacheNotify(r);
        return;
      }
      if |msgStack| > 0 && msgStack[0].id == r.id {
        if r.status == Accepted {
          Callback(r, Started);
          SetPhase(Machine.Running);
        } else if r.status == Complete {
          CompleteHead(r);
        }
      } else {
        Callback(r, Completed);
      }
      if IsFatal(r) {
        LatchError();
        Emit("error", None);
      }
    }

    method ClearResponseTimer()
      modifies this
      ensures St() == Machine.ClearResponseTimer(old(St()))
    {
      responseTimerArmed := false;
    }

    method CacheNotify(r: Reply)
      modifies this
      ensures St() == Machine.CacheNotify(old(St()), r)
    {
      sensorState := sensorState[r.id := r.msg];
    }

    method LatchError()
      modifies this
      ensures St() == Machine.LatchError(old(St()))
    {
      error := true;
    }

    // -------------------------------------------------------------------------
    // Socket and timer events
    // -------------------------------------------------------------------------

    method OnOpen(versionId: string)
      requires socket.Ws?
      modifies this
      ensures St() == Machine.OnOpen(old(St()), versionId)
    {
      MarkOpen();
      Send("version", NoArg, versionId, Some(Handshake));
    }

    method MarkOpen()
      requires socket.Ws?
      modifies this
      ensures St() == Machine.MarkOpen(old(St()))
    {
      socket, connected := Machine.Ws(Machine.Open, socket.live), true;
    }

    method OnClose()
      requires socket.Ws?
      modifies this
      ensures St() == Machine.OnClose(old(St()))
    {
      var live := socket.live;
      MarkClosed();
      if live {
        HandleError(Machine.CloseEvent);
      }
    }

    method MarkClosed()
      requires socket.Ws?
      modifies this
      ensures St() == Machine.MarkClosed(old(St()))
    {
      socket := Machine.Ws(Machine.Closed, socket.live);
    }

    method OnError()
      requires socket.Ws?
      modifies this
      ensures St() == Machine.OnError(old(St()))
    {
      if socket.live {
        HandleError(Machine.OtherFailure);
      }
    }

    method ConnTimeout()
      modifies this
      ensures St() == Machine.ConnTimeout(old(St()))
    {
      connTimeoutArmed, socket := false, if connected then socket else Machine.CloseSocket(socket);
    }

    method ResponseTimeout()
      modifies this
      ensures St() == Machine.ResponseTimeout(old(St()))
    {
      ClearResponseTimer();
      HandleError(Machine.Timeout);
    }

    method Reconnect()
      modifies this
      ensures St() == Machine.Reconnect(old(St()))
    {
      DisarmReconnect();
      Connect("");
    }

    method DisarmReconnect()
      modifies this
      ensures St() == Machine.DisarmReconnect(old(St()))
    {
      reconnectArmed := false;
    }

    method StateChange()
      requires pendingStateEmits > 0
      modifies this
      ensures St() == Machine.StateChange(old(St()))
    {
      ElapseStateChange();
      Emit("readyStateChange", Some(if connected || simulating then "ready" else "notReady"));
      Emit("connectedStateChange", Some(if connected then "connected" else "disconnected"));
    }

    method ElapseStateChange()
      requires pendingStateEmits > 0
      modifies this
      ensures St() == old(St()).(pendingStateEmits := old(pendingStateEmits) - 1)
    {
      pendingStateEmits := pendingStateEmits - 1;
    }
  }
}
