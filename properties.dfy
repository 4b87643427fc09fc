/** What the driver guarantees, proved about the state machine of `Machine` (and so, through
    the contracts of its methods, about the `Mirobot` object). */
module Properties {
  import opened Protocol
  import opened Events
  import opened Callbacks
  import opened Machine

  // ---------------------------------------------------------------------------
  // Events
  // ---------------------------------------------------------------------------

  /** The listener loop calls each listener once, in registration order, and changes
      nothing else. */
  lemma {:induction false} DeliverAllEffect(s: State, ls: seq<nat>, e: Emission)
    ensures DeliverAll(s, ls, e) == s.(deliveries := s.deliveries + Fanout(ls, e))
  {
    if ls != [] {
      DeliverAllEffect(s, ls[..|ls| - 1], e);
    }
  }

  /** `emitEvent` records the emission and calls the event's listeners, in order, once each;
      nothing else changes. */
  lemma EmitEffect(s: State, name: string, payload: Option<string>)
    ensures var e := Emission(name, payload);
            Emit(s, name, payload) ==
            s.(emitted := s.emitted + [e], deliveries := s.deliveries + Fanout(ListenersOf(s.listeners, name), e))
  {
    var e := Emission(name, payload);
    DeliverAllEffect(Announce(s, e), ListenersOf(s.listeners, name), e);
  }

  // ---------------------------------------------------------------------------
  // The part of the state the queue, the table and the latch live in
  // ---------------------------------------------------------------------------

  datatype CoreView = CoreView(msgStack: seq<Command>, robotState: RobotState, cbs: Table, cbOrder: seq<string>,
                               wire: seq<Command>, error: bool, socketsOpened: nat)

  function Core(s: State): CoreView {
    CoreView(s.msgStack, s.robotState, s.cbs, s.cbOrder, s.wire, s.error, s.socketsOpened)
  }

  /** `t` differs from `s` only outside the core, by the handler calls `log` and by no
      emission. */
  ghost predicate Quiet(s: State, t: State, log: seq<Invocation>) {
    Core(t) == Core(s) && t.calls == s.calls + log && t.emitted == s.emitted
  }

  lemma EmitKeepsCore(s: State, name: string, payload: Option<string>)
    ensures Core(Emit(s, name, payload)) == Core(s)
    ensures Emit(s, name, payload).calls == s.calls
    ensures Emit(s, name, payload).emitted == s.emitted + [Emission(name, payload)]
  {
    EmitEffect(s, name, payload);
  }

  // ---------------------------------------------------------------------------
  // Stop's drain
  // ---------------------------------------------------------------------------

  lemma NestedArm(s: State, id: string, h: Handler)
    requires h.SensorArm?
    ensures Quiet(s, Nested(s, id, h), [Invocation(id, Completed, true)])
  {
  }

  lemma NestedHandshake(s: State, id: string, h: Handler)
    requires h == Handshake
    ensures Quiet(s, Nested(s, id, h), [Invocation(id, Completed, true)])
  {
  }

  lemma NestedInert(s: State, id: string, h: Handler)
    requires !h.SensorArm? && h != Handshake
    ensures Quiet(s, Nested(s, id, h), [Invocation(id, Completed, true)])
  {
  }

  /** One nested call of the drain is recorded, and changes neither the core nor the
      emissions. */
  lemma NestedEffect(s: State, id: string, h: Handler)
    ensures Quiet(s, Nested(s, id, h), [Invocation(id, Completed, true)])
  {
    if h.SensorArm? {
      NestedArm(s, id, h);
    } else if h == Handshake {
      NestedHandshake(s, id, h);
    } else {
      NestedInert(s, id, h);
    }
  }

  /** Stop's drain calls every key's handler once with the recursion marker, in order, and
      touches neither the queue, nor the table, nor the wire, nor the latch. */
  lemma {:induction false} NestedAllEffect(s: State, keys: seq<string>, table: Table)
    requires Elems(keys) <= table.Keys
    ensures Quiet(s, NestedAll(s, keys, table), DrainCalls(keys))
  {
    if keys == [] {
      assert DrainCalls(keys) == [];
    } else {
      var init := keys[..|keys| - 1];
      var k := keys[|keys| - 1];
      assert Elems(init) <= Elems(keys) by {
        assert forall i :: 0 <= i < |init| ==> init[i] == keys[i];
      }
      assert k in Elems(keys);
      NestedAllEffect(s, init, table);
      NestedEffect(NestedAll(s, init, table), k, table[k]);
      assert DrainCalls(keys) == DrainCalls(init) + [Invocation(k, Completed, true)];
    }
  }

  /** The drain visits the registered handlers: every one of them once, and no other. */
  lemma DrainCallsDrained(s: State)
    requires IsEnumeration(s.cbOrder, s.cbs.Keys)
    ensures DrainedLog(DrainCalls(s.cbOrder), s.cbs.Keys)
  {
    DrainedLogOf(DrainCalls(s.cbOrder), s.cbOrder, s.cbs.Keys);
  }

  // ---------------------------------------------------------------------------
  // Handler calls
  // ---------------------------------------------------------------------------

  lemma InvokeInert(s: State, id: string, h: Handler, phase: Phase, r: Reply)
    requires h == Caller || (h == StopDrain && phase == Started) || (h.SensorQuery? && phase == Started)
    ensures Quiet(s, Invoke(s, id, h, phase, r), [Invocation(id, phase, false)])
  {
    assert Invoke(s, id, h, phase, r) == Log(s, Invocation(id, phase, false));
  }

  lemma InvokeQuery(s: State, id: string, h: Handler, phase: Phase, r: Reply)
    requires h.SensorQuery? && phase == Completed
    ensures Quiet(s, Invoke(s, id, h, phase, r), [Invocation(id, phase, false)])
  {
  }

  lemma InvokeArm(s: State, id: string, h: Handler, phase: Phase, r: Reply)
    requires h.SensorArm?
    ensures Quiet(s, Invoke(s, id, h, phase, r), [Invocation(id, phase, false)])
  {
  }

  lemma InvokeHandshake(s: State, id: string, h: Handler, phase: Phase, r: Reply)
    requires h == Handshake
    ensures Quiet(s, Invoke(s, id, h, phase, r), [Invocation(id, phase, false)])
  {
  }

  /** A handler call other than stop's handler on completion is recorded once, and changes
      neither the core nor the emissions. */
  lemma InvokePlain(s: State, id: string, h: Handler, phase: Phase, r: Reply)
    requires !(h == StopDrain && phase == Completed)
    ensures Quiet(s, Invoke(s, id, h, phase, r), [Invocation(id, phase, false)])
  {
    if h == Caller || h == StopDrain || (h.SensorQuery? && phase == Started) {
      InvokeInert(s, id, h, phase, r);
    } else if h.SensorQuery? {
      InvokeQuery(s, id, h, phase, r);
    } else if h.SensorArm? {
      InvokeArm(s, id, h, phase, r);
    } else {
      InvokeHandshake(s, id, h, phase, r);
    }
  }

  /** Stop's handler on completion: the drain, `programComplete`, and the queue and the table
      emptied. */
  lemma InvokeStop(s: State, id: string, r: Reply)
    requires IsEnumeration(s.cbOrder, s.cbs.Keys)
    ensures var t := Invoke(s, id, StopDrain, Completed, r);
            Core(t) == Core(s).(msgStack := [], robotState := Idle, cbs := map[], cbOrder := []) &&
            t.calls == s.calls + [Invocation(id, Completed, false)] + DrainCalls(s.cbOrder) &&
            t.emitted == s.emitted + [ProgramComplete]
  {
    var s1 := Log(s, Invocation(id, Completed, false));
    NestedAllEffect(s1, s1.cbOrder, s1.cbs);
    EmitKeepsCore(Drain(s1), "programComplete", None);
    assert Invoke(s, id, StopDrain, Completed, r) == Reset(Emit(Drain(s1), "programComplete", None));
  }

  // ---------------------------------------------------------------------------
  // The callback table
  // ---------------------------------------------------------------------------

  /** Whether the reply's handler is stop's drain. */
  predicate DrainsOn(s: State, r: Reply) {
    r.id in s.cbs && s.cbs[r.id] == StopDrain
  }

  /** The call of the reply's handler, if one is registered. */
  function CallOf(s: State, r: Reply, phase: Phase): seq<Invocation> {
    if r.id in s.cbs then [Invocation(r.id, phase, false)] else []
  }

  /** The table after a completed reply: its handler, if any, removed. */
  function CbsAfter(s: State, id: string): Table {
    if id in s.cbs then s.cbs - {id} else s.cbs
  }

  function CbOrderAfter(s: State, id: string): seq<string> {
    if id in s.cbs then Without(s.cbOrder, id) else s.cbOrder
  }

  /** Removing a handler keeps the enumeration order an enumeration of the table. */
  lemma ForgetEnumeration(s: State, id: string)
    requires IsEnumeration(s.cbOrder, s.cbs.Keys)
    ensures IsEnumeration(CbOrderAfter(s, id), CbsAfter(s, id).Keys)
  {
  }

  /** Registering a handler keeps the enumeration order an enumeration of the table. */
  lemma RegisterEnumeration(s: State, id: string, h: Handler)
    requires IsEnumeration(s.cbOrder, s.cbs.Keys)
    ensures IsEnumeration(Register(s, id, h).cbOrder, Register(s, id, h).cbs.Keys)
  {
    if id !in s.cbs {
      var o := s.cbOrder + [id];
      assert Elems(o) == Elems(s.cbOrder) + {id} by {
        assert forall i :: 0 <= i < |s.cbOrder| ==> o[i] == s.cbOrder[i];
        assert o[|s.cbOrder|] == id;
      }
    }
  }

  lemma CallbackAbsent(s: State, r: Reply, phase: Phase)
    requires r.id !in s.cbs
    ensures Callback(s, r, phase) == s
  {
  }

  lemma CallbackStartedPresent(s: State, r: Reply)
    requires r.id in s.cbs
    ensures Quiet(s, Callback(s, r, Started), [Invocation(r.id, Started, false)])
  {
    InvokePlain(s, r.id, s.cbs[r.id], Started, r);
  }

  /** 'started' for a reply: its handler, if any, is called and kept. */
  lemma CallbackStarted(s: State, r: Reply)
    ensures Quiet(s, Callback(s, r, Started), CallOf(s, r, Started))
  {
    if r.id in s.cbs {
      CallbackStartedPresent(s, r);
    } else {
      CallbackAbsent(s, r, Started);
    }
  }

  lemma CallbackCompletedPresent(s: State, r: Reply)
    requires r.id in s.cbs && !DrainsOn(s, r)
    ensures var t := Callback(s, r, Completed);
            Core(t) == Core(s).(cbs := CbsAfter(s, r.id), cbOrder := CbOrderAfter(s, r.id)) &&
            t.calls == s.calls + CallOf(s, r, Completed) && t.emitted == s.emitted
  {
    InvokePlain(s, r.id, s.cbs[r.id], Completed, r);
  }

  lemma CallbackCompletedAbsent(s: State, r: Reply)
    requires r.id !in s.cbs
    ensures var t := Callback(s, r, Completed);
            Core(t) == Core(s).(cbs := CbsAfter(s, r.id), cbOrder := CbOrderAfter(s, r.id)) &&
            t.calls == s.calls + CallOf(s, r, Completed) && t.emitted == s.emitted
  {
    CallbackAbsent(s, r, Completed);
  }

  /** 'complete' for a reply whose handler is not stop's: the handler, if any, is called
      once and removed. */
  lemma CallbackCompleted(s: State, r: Reply)
    requires !DrainsOn(s, r)
    ensures var t := Callback(s, r, Completed);
            Core(t) == Core(s).(cbs := CbsAfter(s, r.id), cbOrder := CbOrderAfter(s, r.id)) &&
            t.calls == s.calls + CallOf(s, r, Completed) && t.emitted == s.emitted
  {
    if r.id in s.cbs {
      CallbackCompletedPresent(s, r);
    } else {
      CallbackCompletedAbsent(s, r);
    }
  }

  /** 'complete' for the reply to `stop`: the drain, `programComplete`, and the queue and
      the table emptied. */
  lemma CallbackDrains(s: State, r: Reply)
    requires DrainsOn(s, r) && IsEnumeration(s.cbOrder, s.cbs.Keys)
    ensures var t := Callback(s, r, Completed);
            Core(t) == Core(s).(msgStack := [], robotState := Idle, cbs := map[], cbOrder := []) &&
            t.calls == s.calls + [Invocation(r.id, Completed, false)] + DrainCalls(s.cbOrder) &&
            t.emitted == s.emitted + [ProgramComplete]
  {
    var x := Invoke(s, r.id, StopDrain, Completed, r);
    InvokeStop(s, r.id, r);
    assert Callback(s, r, Completed) == Unregister(x, r.id);
    assert x.cbs - {r.id} == map[];
  }

  // ---------------------------------------------------------------------------
  // The error latch
  // ---------------------------------------------------------------------------

  lemma LatchFatal(s: State, r: Reply)
    requires IsFatal(r)
    ensures var t := Latch(s, r);
            t == s.(error := true, emitted := t.emitted, deliveries := t.deliveries) &&
            t.emitted == s.emitted + [ErrorEvent]
  {
    EmitEffect(LatchError(s), "error", None);
  }

  lemma LatchBenign(s: State, r: Reply)
    requires !IsFatal(r)
    ensures Latch(s, r) == s
  {
  }

  /** Only the fatal reply sets `error` and announces `error`. */
  lemma LatchEffect(s: State, r: Reply)
    ensures var t := Latch(s, r);
            t == s.(error := s.error || IsFatal(r), emitted := t.emitted, deliveries := t.deliveries) &&
            t.emitted == s.emitted + (if IsFatal(r) then [ErrorEvent] else [])
  {
    if IsFatal(r) {
      LatchFatal(s, r);
    } else {
      LatchBenign(s, r);
    }
  }

  // ---------------------------------------------------------------------------
  // Dispatch
  // ---------------------------------------------------------------------------

  /** What `send_msg` writes to the socket: the command when on the wire, else nothing. */
  function Sent(s: State, c: Command): seq<Command> {
    if OnWire(s) then [c] else []
  }

  lemma SendMsgSim(s: State, c: Command)
    requires s.simulating && s.hasSim
    ensures var t := SendMsg(s, c);
            Core(t) == Core(s).(wire := s.wire + Sent(s, c)) && OnWire(t) == OnWire(s) && t.calls == s.calls && t.emitted == s.emitted
  {
  }

  lemma SendMsgWire(s: State, c: Command)
    requires !(s.simulating && s.hasSim) && s.connected
    ensures var t := SendMsg(s, c);
            Core(t) == Core(s).(wire := s.wire + Sent(s, c)) && OnWire(t) == OnWire(s) && t.calls == s.calls && t.emitted == s.emitted
  {
  }

  lemma SendMsgNowhere(s: State, c: Command)
    requires !(s.simulating && s.hasSim) && !s.connected
    ensures var t := SendMsg(s, c);
            Core(t) == Core(s).(wire := s.wire + Sent(s, c)) && OnWire(t) == OnWire(s) && t.calls == s.calls && t.emitted == s.emitted
  {
  }

  /** `send_msg` writes the command to the socket exactly when the driver is on the wire,
      and changes nothing else of the core. */
  lemma SendMsgCore(s: State, c: Command)
    ensures var t := SendMsg(s, c);
            Core(t) == Core(s).(wire := s.wire + Sent(s, c)) && OnWire(t) == OnWire(s) && t.calls == s.calls && t.emitted == s.emitted
  {
    if s.simulating && s.hasSim {
      SendMsgSim(s, c);
    } else if s.connected {
      SendMsgWire(s, c);
    } else {
      SendMsgNowhere(s, c);
    }
  }

  /** `process_msg_queue` when idle with something queued: the head is written to the
      socket (when on the wire) and is now being received. */
  lemma ProcessSends(s: State)
    requires s.robotState == Idle && |s.msgStack| > 0
    ensures var t := ProcessMsgQueue(s);
            Core(t) == Core(s).(robotState := Receiving, wire := s.wire + Sent(s, s.msgStack[0])) &&
            OnWire(t) == OnWire(s) && t.calls == s.calls && t.emitted == s.emitted
  {
    SendMsgCore(SetPhase(s, Receiving), s.msgStack[0]);
  }

  /** `process_msg_queue` otherwise does nothing. */
  lemma ProcessWaits(s: State)
    requires !(s.robotState == Idle && |s.msgStack| > 0)
    ensures ProcessMsgQueue(s) == s
  {
  }

  /** The registration step of `send`. */
  function Registered(s: State, id: string, h: Option<Handler>): State {
    if h.Some? then Register(s, id, h.value) else s
  }

  lemma RegisteredSome(s: State, id: string, h: Option<Handler>)
    requires h.Some?
    ensures var x := Registered(s, id, h); x == s.(cbs := x.cbs, cbOrder := x.cbOrder)
  {
  }

  lemma RegisteredNone(s: State, id: string, h: Option<Handler>)
    requires h.None?
    ensures var x := Registered(s, id, h); x == s.(cbs := x.cbs, cbOrder := x.cbOrder)
  {
  }

  /** Registration changes only the table. */
  lemma RegisteredEffect(s: State, id: string, h: Option<Handler>)
    ensures var x := Registered(s, id, h); x == s.(cbs := x.cbs, cbOrder := x.cbOrder)
  {
    if h.Some? {
      RegisteredSome(s, id, h);
    } else {
      RegisteredNone(s, id, h);
    }
  }

  /** `send` of an immediate command: it goes to `send_msg` at once, and the queue is left
      alone. */
  lemma SendImmediate(s: State, cmd: string, arg: Arg, id: string, h: Option<Handler>)
    requires IsImmediate(cmd)
    ensures var t := Send(s, cmd, arg, id, h);
            Core(t) == Core(Registered(s, id, h)).(wire := s.wire + Sent(s, Command(cmd, Stringify(arg), id))) &&
            t.emitted == s.emitted
  {
    RegisteredEffect(s, id, h);
    SendMsgCore(Registered(s, id, h), Command(cmd, Stringify(arg), id));
  }

  /** The steps of `send` before `process_msg_queue`: registration, `programStart` when
      the queue is empty, and the command appended. */
  function Queued(s: State, c: Command, h: Option<Handler>): State {
    var s1 := Registered(s, c.id, h);
    var s2 := if |s1.msgStack| == 0 then Emit(s1, "programStart", None) else s1;
    Enqueue(s2, c)
  }

  lemma QueuedFirst(s: State, c: Command, h: Option<Handler>)
    requires s.msgStack == []
    ensures var q := Queued(s, c, h);
            q == Registered(s, c.id, h).(msgStack := [c], emitted := q.emitted, deliveries := q.deliveries) &&
            q.emitted == s.emitted + [ProgramStart]
  {
    EmitEffect(Registered(s, c.id, h), "programStart", None);
  }

  lemma QueuedMore(s: State, c: Command, h: Option<Handler>)
    requires s.msgStack != []
    ensures Queued(s, c, h) == Registered(s, c.id, h).(msgStack := s.msgStack + [c])
  {
  }

  /** `send` of a queued command when idle: `programStart` is announced (the queue is then
      empty in a valid state), the command is queued and goes out at once. */
  lemma SendQueuedIdle(s: State, cmd: string, arg: Arg, id: string, h: Option<Handler>)
    requires !IsImmediate(cmd) && s.robotState == Idle
    ensures var t := Send(s, cmd, arg, id, h);
            var c := Command(cmd, Stringify(arg), id);
            Core(t) == Core(Registered(s, id, h)).(msgStack := s.msgStack + [c], robotState := Receiving,
                                                   wire := s.wire + Sent(s, (s.msgStack + [c])[0])) &&
            t.emitted == s.emitted + (if s.msgStack == [] then [ProgramStart] else [])
  {
    var c := Command(cmd, Stringify(arg), id);
    var q := Queued(s, c, h);
    RegisteredEffect(s, id, h);
    if s.msgStack == [] {
      QueuedFirst(s, c, h);
    } else {
      QueuedMore(s, c, h);
    }
    ProcessSends(q);
    assert Send(s, cmd, arg, id, h) == ProcessMsgQueue(q);
  }

  /** `send` of a queued command while the head is in flight: the command waits in the
      queue. */
  lemma SendQueuedBusy(s: State, cmd: string, arg: Arg, id: string, h: Option<Handler>)
    requires !IsImmediate(cmd) && s.robotState != Idle
    ensures var t := Send(s, cmd, arg, id, h);
            var c := Command(cmd, Stringify(arg), id);
            Core(t) == Core(Registered(s, id, h)).(msgStack := s.msgStack + [c]) &&
            t.emitted == s.emitted + (if s.msgStack == [] then [ProgramStart] else [])
  {
    var c := Command(cmd, Stringify(arg), id);
    var q := Queued(s, c, h);
    RegisteredEffect(s, id, h);
    if s.msgStack == [] {
      QueuedFirst(s, c, h);
    } else {
      QueuedMore(s, c, h);
    }
    ProcessWaits(q);
    assert Send(s, cmd, arg, id, h) == ProcessMsgQueue(q);
  }

  // ---------------------------------------------------------------------------
  // handle_msg, branch by branch
  // ---------------------------------------------------------------------------

  /** A notification is announced under its id and cached in `sensorState`; nothing else
      changes, apart from the response timer being cleared. */
  lemma NotifyCaches(s: State, r: Reply)
    requires r.status == Notify
    ensures var e := Emission(r.id, None);
            HandleMsg(s, r) ==
            s.(responseTimerArmed := false, sensorState := s.sensorState[r.id := r.msg],
               emitted := s.emitted + [e], deliveries := s.deliveries + Fanout(ListenersOf(s.listeners, r.id), e))
  {
    EmitEffect(ClearResponseTimer(s), r.id, None);
  }

  /** `accepted` for the head: its handler, if any, is called with 'started' and kept, and
      the head is now running; the queue, the wire and the latch are untouched. */
  lemma AcceptedOnHead(s: State, r: Reply)
    requires HeadIs(s, r.id) && r.status == Accepted
    ensures var t := HandleMsg(s, r);
            Core(t) == Core(s).(robotState := Running) &&
            t.calls == s.calls + CallOf(s, r, Started) && t.emitted == s.emitted
  {
    var s1 := ClearResponseTimer(s);
    CallbackStarted(s1, r);
    var y := SetPhase(Callback(s1, r, Started), Running);
    LatchBenign(y, r);
    assert HandleMsg(s, r) == y;
  }

  /** `complete` for the last command of the queue: its handler, if any, is called and
      removed, the queue is empty and idle, `programComplete` is announced, and nothing goes
      out. */
  lemma CompleteLast(s: State, r: Reply)
    requires HeadIs(s, r.id) && r.status == Complete && !DrainsOn(s, r) && |s.msgStack| == 1
    ensures var t := HandleMsg(s, r);
            Core(t) == Core(s).(msgStack := [], robotState := Idle, cbs := CbsAfter(s, r.id),
                                cbOrder := CbOrderAfter(s, r.id)) &&
            t.calls == s.calls + CallOf(s, r, Completed) && t.emitted == s.emitted + [ProgramComplete]
  {
    var s1 := ClearResponseTimer(s);
    CallbackCompleted(s1, r);
    var x2 := Shift(Callback(s1, r, Completed));
    var x3 := Emit(x2, "programComplete", None);
    EmitKeepsCore(x2, "programComplete", None);
    var x4 := SetPhase(x3, Idle);
    ProcessWaits(x4);
    assert CompleteHead(s1, r) == x4;
    LatchBenign(x4, r);
    assert HandleMsg(s, r) == x4;
  }

  /** `complete` for the head with more queued: its handler, if any, is called and removed,
      the head leaves the queue, and the next command is now being received, written to the
      socket when the driver is on the wire (first in, first out). */
  lemma CompleteNext(s: State, r: Reply)
    requires HeadIs(s, r.id) && r.status == Complete && !DrainsOn(s, r) && |s.msgStack| > 1
    ensures var t := HandleMsg(s, r);
            Core(t) == Core(s).(msgStack := s.msgStack[1..], robotState := Receiving, cbs := CbsAfter(s, r.id),
                                cbOrder := CbOrderAfter(s, r.id), wire := s.wire + Sent(t, s.msgStack[1])) &&
            t.calls == s.calls + CallOf(s, r, Completed) && t.emitted == s.emitted
  {
    var s1 := ClearResponseTimer(s);
    CallbackCompleted(s1, r);
    var x2 := Shift(Callback(s1, r, Completed));
    var x4 := SetPhase(x2, Idle);
    ProcessSends(x4);
    var x5 := ProcessMsgQueue(x4);
    assert CompleteHead(s1, r) == x5;
    LatchBenign(x5, r);
    assert HandleMsg(s, r) == x5;
  }

  /** `complete` for the head whose handler is stop's drain: the drain empties the queue and
      the table, and nothing goes out. */
  lemma CompleteDrains(s: State, r: Reply)
    requires IsEnumeration(s.cbOrder, s.cbs.Keys) && HeadIs(s, r.id) && r.status == Complete && DrainsOn(s, r)
    ensures Core(HandleMsg(s, r)) == Core(s).(msgStack := [], robotState := Idle, cbs := map[], cbOrder := [])
  {
    var s1 := ClearResponseTimer(s);
    CallbackDrains(s1, r);
    var x2 := Shift(Callback(s1, r, Completed));
    var x3 := Emit(x2, "programComplete", None);
    EmitKeepsCore(x2, "programComplete", None);
    var x4 := SetPhase(x3, Idle);
    ProcessWaits(x4);
    assert CompleteHead(s1, r) == x4;
    LatchBenign(x4, r);
    assert HandleMsg(s, r) == x4;
  }

  /** Any other reply for the head (an error, an unknown status) calls no handler and leaves
      the queue as it is; only the fatal error latches. */
  lemma HeadOtherStatus(s: State, r: Reply)
    requires HeadIs(s, r.id) && r.status != Accepted && r.status != Complete && r.status != Notify
    ensures var t := HandleMsg(s, r);
            Core(t) == Core(s).(error := s.error || IsFatal(r)) && t.calls == s.calls &&
            t.emitted == s.emitted + (if IsFatal(r) then [ErrorEvent] else [])
  {
    var s1 := ClearResponseTimer(s);
    LatchEffect(s1, r);
    assert HandleMsg(s, r) == Latch(s1, r);
  }

  /** A reply for anything but the head (an immediate command, a stale id), whatever its
      status: its handler, if any, is called with 'complete' and removed, and the queue is
      left as it is. */
  lemma OtherReply(s: State, r: Reply)
    requires !HeadIs(s, r.id) && r.status != Notify && !DrainsOn(s, r)
    ensures var t := HandleMsg(s, r);
            Core(t) == Core(s).(cbs := CbsAfter(s, r.id), cbOrder := CbOrderAfter(s, r.id), error := s.error || IsFatal(r)) &&
            t.calls == s.calls + CallOf(s, r, Completed) &&
            t.emitted == s.emitted + (if IsFatal(r) then [ErrorEvent] else [])
  {
    var s1 := ClearResponseTimer(s);
    CallbackCompleted(s1, r);
    var x := Callback(s1, r, Completed);
    LatchEffect(x, r);
    assert HandleMsg(s, r) == Latch(x, r);
  }

  /** The reply to `stop`, whatever its status (but a notification): its handler drains the
      table, calling every registered handler once with 'complete' and the recursion
      marker, in enumeration order, announces `programComplete`, and empties the queue and
      the table. */
  lemma StopReplyDrains(s: State, r: Reply)
    requires IsEnumeration(s.cbOrder, s.cbs.Keys) && !HeadIs(s, r.id) && r.status != Notify && DrainsOn(s, r)
    ensures var t := HandleMsg(s, r);
            Core(t) == Core(s).(msgStack := [], robotState := Idle, cbs := map[], cbOrder := [],
                                error := s.error || IsFatal(r)) &&
            t.calls == s.calls + [Invocation(r.id, Completed, false)] + DrainCalls(s.cbOrder) &&
            DrainedLog(DrainCalls(s.cbOrder), s.cbs.Keys) &&
            t.emitted == s.emitted + [ProgramComplete] + (if IsFatal(r) then [ErrorEvent] else [])
  {
    var s1 := ClearResponseTimer(s);
    CallbackDrains(s1, r);
    var x := Callback(s1, r, Completed);
    LatchEffect(x, r);
    assert HandleMsg(s, r) == Latch(x, r);
    DrainCallsDrained(s);
  }

  // ---------------------------------------------------------------------------
  // handleError
  // ---------------------------------------------------------------------------

  /** A close event or the response timeout: the socket is closed if open, the queue is
      flushed and idle, the driver is disconnected with the reconnect timer armed, and one
      state change is pending; nothing else changes. */
  lemma HandleErrorFlushes(s: State, f: Failure)
    requires f != OtherFailure
    ensures HandleError(s, f) ==
            s.(socket := CloseIfOpen(s.socket), msgStack := [], robotState := Idle, connected := false,
               connTimeoutArmed := false, pendingStateEmits := s.pendingStateEmits + 1, reconnectArmed := true)
  {
  }

  /** Any other failure only disconnects: the queue and the socket are left as they are. */
  lemma HandleErrorDisconnects(s: State)
    ensures HandleError(s, OtherFailure) ==
            s.(connected := false, connTimeoutArmed := false, pendingStateEmits := s.pendingStateEmits + 1,
               reconnectArmed := true)
  {
  }

  // ---------------------------------------------------------------------------
  // The handshake: `onopen` and the reply to `version`
  // ---------------------------------------------------------------------------

  /** The part of the state `setConnectedState` writes. */
  datatype LinkView = LinkView(connected: bool, hasConnected: bool, connTimeoutArmed: bool,
                               reconnectArmed: bool, pendingStateEmits: nat)

  function Link(s: State): LinkView {
    LinkView(s.connected, s.hasConnected, s.connTimeoutArmed, s.reconnectArmed, s.pendingStateEmits)
  }

  /** The link once the handshake has succeeded: connected, `has_connected` set, both the
      connect timeout and the reconnect timer disarmed, and one more state change pending. */
  function Promoted(l: LinkView): LinkView {
    LinkView(true, true, false, false, l.pendingStateEmits + 1)
  }

  /** The handshake handler, called in any phase, promotes the connection and changes
      nothing but the link and the log of handler calls. */
  lemma HandshakePromotes(s: State, id: string, phase: Phase, r: Reply)
    ensures var t := Invoke(s, id, Handshake, phase, r);
            Link(t) == Promoted(Link(s)) && Core(t) == Core(s) &&
            t.calls == s.calls + [Invocation(id, phase, false)] && t.emitted == s.emitted &&
            Sensors(t) == Sensors(s)
  {
  }

  lemma SendMsgKeepsLink(s: State, c: Command)
    ensures Link(SendMsg(s, c)) == Link(s)
  {
  }

  lemma ProcessKeepsLink(s: State)
    ensures Link(ProcessMsgQueue(s)) == Link(s)
  {
    if s.robotState == Idle && |s.msgStack| > 0 {
      SendMsgKeepsLink(SetPhase(s, Receiving), s.msgStack[0]);
    }
  }

  lemma SendImmediateKeepsLink(s: State, cmd: string, arg: Arg, id: string, h: Option<Handler>)
    requires IsImmediate(cmd)
    ensures Link(Send(s, cmd, arg, id, h)) == Link(s)
  {
    RegisteredEffect(s, id, h);
    SendMsgKeepsLink(Registered(s, id, h), Command(cmd, Stringify(arg), id));
  }

  /** The open event: the socket is open and the driver connected, and `version`, an
      immediate command, is written at once (to the socket unless the simulator takes it)
      with the handshake handler registered; the queue and the rest of the link are left
      for the reply. */
  lemma OnOpenSendsVersion(s: State, v: string)
    requires s.socket.Ws?
    ensures var t := OnOpen(s, v);
            t.socket == Ws(Open, s.socket.live) &&
            t.msgStack == s.msgStack && t.robotState == s.robotState &&
            t.wire == s.wire + (if s.simulating && s.hasSim then [] else [Command("version", NoArg, v)]) &&
            t.cbs == s.cbs[v := Handshake] && t.emitted == s.emitted &&
            Link(t) == Link(s).(connected := true)
  {
    var m := MarkOpen(s);
    var h := Some(Handshake);
    assert IsImmediate("version");
    SendImmediateKeepsLink(m, "version", NoArg, v, h);
    SendImmediate(m, "version", NoArg, v, h);
  }

  lemma CompleteHeadLinkLast(s: State, r: Reply)
    requires |Shift(Callback(s, r, Completed)).msgStack| == 0
    ensures Link(CompleteHead(s, r)) == Link(Callback(s, r, Completed))
  {
    var s2 := Shift(Callback(s, r, Completed));
    EmitEffect(s2, "programComplete", None);
    ProcessKeepsLink(SetPhase(Emit(s2, "programComplete", None), Idle));
  }

  lemma CompleteHeadLinkMore(s: State, r: Reply)
    requires |Shift(Callback(s, r, Completed)).msgStack| != 0
    ensures Link(CompleteHead(s, r)) == Link(Callback(s, r, Completed))
  {
    ProcessKeepsLink(SetPhase(Shift(Callback(s, r, Completed)), Idle));
  }

  /** After the head's handler, the rest of the completion leaves the link alone. */
  lemma CompleteHeadLink(s: State, r: Reply)
    ensures Link(CompleteHead(s, r)) == Link(Callback(s, r, Completed))
  {
    if |Shift(Callback(s, r, Completed)).msgStack| == 0 {
      CompleteHeadLinkLast(s, r);
    } else {
      CompleteHeadLinkMore(s, r);
    }
  }

  lemma HandshakeReplyAccepted(s: State, r: Reply)
    requires r.id in s.cbs && s.cbs[r.id] == Handshake
    requires HeadIs(s, r.id) && r.status == Accepted
    ensures Link(HandleMsg(s, r)) == Promoted(Link(s))
  {
    var s1 := ClearResponseTimer(s);
    HandshakePromotes(s1, r.id, Started, r);
    var y := SetPhase(Callback(s1, r, Started), Running);
    LatchEffect(y, r);
    assert HandleMsg(s, r) == Latch(y, r);
  }

  lemma HandshakeReplyComplete(s: State, r: Reply)
    requires r.id in s.cbs && s.cbs[r.id] == Handshake
    requires HeadIs(s, r.id) && r.status == Complete
    ensures Link(HandleMsg(s, r)) == Promoted(Link(s))
  {
    var s1 := ClearResponseTimer(s);
    HandshakePromotes(s1, r.id, Completed, r);
    CompleteHeadLink(s1, r);
    var x := CompleteHead(s1, r);
    LatchEffect(x, r);
    assert HandleMsg(s, r) == Latch(x, r);
  }

  lemma HandshakeReplyOther(s: State, r: Reply)
    requires r.id in s.cbs && s.cbs[r.id] == Handshake
    requires !HeadIs(s, r.id) && r.status != Notify
    ensures Link(HandleMsg(s, r)) == Promoted(Link(s)) && !HandleMsg(s, r).responseTimerArmed
  {
    var s1 := ClearResponseTimer(s);
    HandshakePromotes(s1, r.id, Completed, r);
    var x := Callback(s1, r, Completed);
    LatchEffect(x, r);
    assert HandleMsg(s, r) == Latch(x, r);
  }

  /** A reply that reaches the handshake handler, whatever its status, promotes the
      connection: 'accepted' or 'complete' for the head, or any reply for an id that is not
      the head. A reply for an id that is not the head also leaves the response timeout
      cleared; a head completion may re-arm it by writing the next command. */
  lemma HandshakeReplyPromotes(s: State, r: Reply)
    requires r.id in s.cbs && s.cbs[r.id] == Handshake && r.status != Notify
    requires HeadIs(s, r.id) ==> r.status == Accepted || r.status == Complete
    ensures Link(HandleMsg(s, r)) == Promoted(Link(s))
    ensures !HeadIs(s, r.id) ==> !HandleMsg(s, r).responseTimerArmed
  {
    if !HeadIs(s, r.id) {
      HandshakeReplyOther(s, r);
    } else if r.status == Accepted {
      HandshakeReplyAccepted(s, r);
    } else {
      HandshakeReplyComplete(s, r);
    }
  }

  /** The open event followed by the reply to its `version` command: the driver is
      connected, `has_connected` is set, neither the connect timeout nor the reconnect timer
      is armed, and exactly one state change is pending beyond those already pending. When
      `version` is not the head of the queue, the response timeout is cleared as well. */
  lemma OnOpenConnects(s: State, v: string, r: Reply)
    requires s.socket.Ws?
    requires r.id == v && r.status != Notify
    requires HeadIs(OnOpen(s, v), v) ==> r.status == Accepted || r.status == Complete
    ensures Link(HandleMsg(OnOpen(s, v), r)) == Promoted(Link(s))
    ensures !HeadIs(OnOpen(s, v), v) ==> !HandleMsg(OnOpen(s, v), r).responseTimerArmed
  {
    OnOpenSendsVersion(s, v);
    HandshakeReplyPromotes(OnOpen(s, v), r);
  }

  // ---------------------------------------------------------------------------
  // Sensors: `collideState`/`followState` and `collideSensorNotify`/`followSensorNotify`
  // ---------------------------------------------------------------------------

  /** The part of the state the sensor wrappers live in. */
  datatype SensorView = SensorView(cache: map<string, Payload>, collideListening: bool, followListening: bool,
                                   readings: seq<Reading>)

  function Sensors(s: State): SensorView {
    SensorView(s.sensorState, s.collideListening, s.followListening, s.readings)
  }

  lemma SendMsgKeepsSensors(s: State, c: Command)
    ensures Sensors(SendMsg(s, c)) == Sensors(s)
  {
  }

  lemma ProcessKeepsSensors(s: State)
    ensures Sensors(ProcessMsgQueue(s)) == Sensors(s)
  {
    if s.robotState == Idle && |s.msgStack| > 0 {
      SendMsgKeepsSensors(SetPhase(s, Receiving), s.msgStack[0]);
    }
  }

  lemma SendImmediateKeepsSensors(s: State, cmd: string, arg: Arg, id: string, h: Option<Handler>)
    requires IsImmediate(cmd)
    ensures Sensors(Send(s, cmd, arg, id, h)) == Sensors(s)
  {
    RegisteredEffect(s, id, h);
    SendMsgKeepsSensors(Registered(s, id, h), Command(cmd, Stringify(arg), id));
  }

  lemma SendQueuedKeepsSensors(s: State, cmd: string, arg: Arg, id: string, h: Option<Handler>)
    requires !IsImmediate(cmd)
    ensures Sensors(Send(s, cmd, arg, id, h)) == Sensors(s)
  {
    var c := Command(cmd, Stringify(arg), id);
    var q := Queued(s, c, h);
    RegisteredEffect(s, id, h);
    if s.msgStack == [] {
      QueuedFirst(s, c, h);
    } else {
      QueuedMore(s, c, h);
    }
    ProcessKeepsSensors(q);
    assert Send(s, cmd, arg, id, h) == ProcessMsgQueue(q);
  }

  /** `send` leaves the cache, the listening flags and the values handed over alone. */
  lemma SendKeepsSensors(s: State, cmd: string, arg: Arg, id: string, h: Option<Handler>)
    ensures Sensors(Send(s, cmd, arg, id, h)) == Sensors(s)
  {
    if IsImmediate(cmd) {
      SendImmediateKeepsSensors(s, cmd, arg, id, h);
    } else {
      SendQueuedKeepsSensors(s, cmd, arg, id, h);
    }
  }

  lemma SensorStatePolls(s: State, sensor: Sensor, id: string)
    requires Polls(s, sensor)
    ensures var t := SensorState(s, sensor, id);
            t.msgStack == s.msgStack + [Command(sensor.QueryCmd(), NoArg, id)] &&
            t.cbs == s.cbs[id := SensorQuery(sensor)] && Sensors(t) == Sensors(s)
  {
    var h := Some(SensorQuery(sensor));
    assert !IsImmediate(sensor.QueryCmd());
    SendKeepsSensors(s, sensor.QueryCmd(), NoArg, id, h);
    if s.robotState == Idle {
      SendQueuedIdle(s, sensor.QueryCmd(), NoArg, id, h);
    } else {
      SendQueuedBusy(s, sensor.QueryCmd(), NoArg, id, h);
    }
  }

  lemma SensorStateCached(s: State, sensor: Sensor, id: string)
    requires !Polls(s, sensor)
    ensures var t := SensorState(s, sensor, id);
            t == s.(readings := s.readings + [Reading(sensor, Lookup(s.sensorState, sensor.Name()))]) &&
            Lookup(s.sensorState, sensor.Name()) != Null
  {
  }

  /** `collideState`/`followState` poll the robot exactly when no value is cached or the
      sensor is not listening: then one query command is queued with the query wrapper as
      its handler, and nothing is handed over yet. Otherwise nothing is sent or registered
      and the cached value is handed over at once. */
  lemma SensorStateDecides(s: State, sensor: Sensor, id: string)
    ensures var t := SensorState(s, sensor, id);
            (Polls(s, sensor) ==>
               t.msgStack == s.msgStack + [Command(sensor.QueryCmd(), NoArg, id)] &&
               t.cbs == s.cbs[id := SensorQuery(sensor)] && Sensors(t) == Sensors(s)) &&
            (!Polls(s, sensor) ==>
               t == s.(readings := s.readings + [Reading(sensor, Lookup(s.sensorState, sensor.Name()))]))
  {
    if Polls(s, sensor) {
      SensorStatePolls(s, sensor, id);
    } else {
      SensorStateCached(s, sensor, id);
    }
  }

  /** The query wrapper: 'complete' caches the reply's value under the sensor and hands
      exactly that value over; 'started' does nothing but be recorded. */
  lemma QueryWrapper(s: State, id: string, sensor: Sensor, phase: Phase, r: Reply)
    ensures var t := Invoke(s, id, SensorQuery(sensor), phase, r);
            var logged := s.(calls := s.calls + [Invocation(id, phase, false)]);
            (phase == Completed ==>
               t == logged.(sensorState := s.sensorState[sensor.Name() := r.msg],
                            readings := s.readings + [Reading(sensor, r.msg)])) &&
            (phase == Started ==> t == logged)
  {
  }

  /** The arming wrapper, whatever its arguments: the sensor listens from now on, the
      other sensor's flag, the cache and the values handed over are unchanged. */
  lemma ArmWrapper(s: State, id: string, sensor: Sensor, phase: Phase, r: Reply)
    ensures var t := Invoke(s, id, SensorArm(sensor), phase, r);
            Listening(t, sensor) &&
            (forall o: Sensor :: o != sensor ==> Listening(t, o) == Listening(s, o)) &&
            t.sensorState == s.sensorState && t.readings == s.readings && Core(t) == Core(s)
  {
  }

  /** `collideSensorNotify`/`followSensorNotify`: the notify switch is queued with the
      arming wrapper as its handler; the sensor fields are not touched yet. */
  lemma SensorNotifyQueues(s: State, sensor: Sensor, on: bool, id: string)
    ensures var t := SensorNotify(s, sensor, on, id);
            t.msgStack == s.msgStack + [Command(sensor.NotifyCmd(), Str(if on then "true" else "false"), id)] &&
            t.cbs == s.cbs[id := SensorArm(sensor)] && Sensors(t) == Sensors(s)
  {
    var h := Some(SensorArm(sensor));
    var arg := Str(if on then "true" else "false");
    assert !IsImmediate(sensor.NotifyCmd());
    SendKeepsSensors(s, sensor.NotifyCmd(), arg, id, h);
    if s.robotState == Idle {
      SendQueuedIdle(s, sensor.NotifyCmd(), arg, id, h);
    } else {
      SendQueuedBusy(s, sensor.NotifyCmd(), arg, id, h);
    }
  }

  lemma ReplyArmsAccepted(s: State, r: Reply, sensor: Sensor)
    requires r.id in s.cbs && s.cbs[r.id] == SensorArm(sensor)
    requires HeadIs(s, r.id) && r.status == Accepted
    ensures Listening(HandleMsg(s, r), sensor)
  {
    var s1 := ClearResponseTimer(s);
    ArmWrapper(s1, r.id, sensor, Started, r);
    assert HandleMsg(s, r) == SetPhase(Callback(s1, r, Started), Running);
  }

  lemma CompleteHeadSensorsLast(s: State, r: Reply)
    requires |Shift(Callback(s, r, Completed)).msgStack| == 0
    ensures Sensors(CompleteHead(s, r)) == Sensors(Callback(s, r, Completed))
  {
    var s2 := Shift(Callback(s, r, Completed));
    EmitEffect(s2, "programComplete", None);
    ProcessKeepsSensors(SetPhase(Emit(s2, "programComplete", None), Idle));
  }

  lemma CompleteHeadSensorsMore(s: State, r: Reply)
    requires |Shift(Callback(s, r, Completed)).msgStack| != 0
    ensures Sensors(CompleteHead(s, r)) == Sensors(Callback(s, r, Completed))
  {
    ProcessKeepsSensors(SetPhase(Shift(Callback(s, r, Completed)), Idle));
  }

  /** After the head's handler, the rest of the completion leaves the sensor fields alone. */
  lemma CompleteHeadSensors(s: State, r: Reply)
    ensures Sensors(CompleteHead(s, r)) == Sensors(Callback(s, r, Completed))
  {
    if |Shift(Callback(s, r, Completed)).msgStack| == 0 {
      CompleteHeadSensorsLast(s, r);
    } else {
      CompleteHeadSensorsMore(s, r);
    }
  }

  lemma ReplyArmsComplete(s: State, r: Reply, sensor: Sensor)
    requires r.id in s.cbs && s.cbs[r.id] == SensorArm(sensor)
    requires HeadIs(s, r.id) && r.status == Complete
    ensures Listening(HandleMsg(s, r), sensor)
  {
    var s1 := ClearResponseTimer(s);
    ArmWrapper(s1, r.id, sensor, Completed, r);
    CompleteHeadSensors(s1, r);
    assert HandleMsg(s, r) == CompleteHead(s1, r);
  }

  lemma ReplyArmsOther(s: State, r: Reply, sensor: Sensor)
    requires r.id in s.cbs && s.cbs[r.id] == SensorArm(sensor)
    requires !HeadIs(s, r.id) && r.status != Notify
    ensures Listening(HandleMsg(s, r), sensor)
  {
    var s1 := ClearResponseTimer(s);
    ArmWrapper(s1, r.id, sensor, Completed, r);
    var s2 := Callback(s1, r, Completed);
    LatchEffect(s2, r);
    assert HandleMsg(s, r) == Latch(s2, r);
  }

  /** A reply that reaches the arming wrapper, whatever its status, sets the sensor
      listening: 'accepted' or 'complete' for the head, or any reply for an id that is not
      the head. */
  lemma ReplyArms(s: State, r: Reply, sensor: Sensor)
    requires r.id in s.cbs && s.cbs[r.id] == SensorArm(sensor) && r.status != Notify
    requires HeadIs(s, r.id) ==> r.status == Accepted || r.status == Complete
    ensures Listening(HandleMsg(s, r), sensor)
  {
    if !HeadIs(s, r.id) {
      ReplyArmsOther(s, r, sensor);
    } else if r.status == Accepted {
      ReplyArmsAccepted(s, r, sensor);
    } else {
      ReplyArmsComplete(s, r, sensor);
    }
  }

  /** Once a sensor is armed and a notification has brought a value, `collideState` /
      `followState` answer from the cache: nothing is sent, nothing is registered, and the
      notified value is handed over. */
  lemma ArmedSensorAnswersFromCache(s: State, sensor: Sensor, on: bool, id: string, r: Reply, v: Payload, qid: string)
    requires r.id == id && r.status != Notify
    requires HeadIs(SensorNotify(s, sensor, on, id), id) ==> r.status == Accepted || r.status == Complete
    requires v != Null
    ensures var t := HandleMsg(HandleMsg(SensorNotify(s, sensor, on, id), r), Reply(sensor.Name(), Notify, v));
            !Polls(t, sensor) && SensorState(t, sensor, qid) == t.(readings := t.readings + [Reading(sensor, v)])
  {
    var s1 := SensorNotify(s, sensor, on, id);
    SensorNotifyQueues(s, sensor, on, id);
    ReplyArms(s1, r, sensor);
    var s2 := HandleMsg(s1, r);
    NotifyCaches(s2, Reply(sensor.Name(), Notify, v));
    var t := HandleMsg(s2, Reply(sensor.Name(), Notify, v));
    assert Lookup(t.sensorState, sensor.Name()) == v;
    SensorStateCached(t, sensor, qid);
  }

  lemma QueryAnsweredHead(s: State, r: Reply, sensor: Sensor)
    requires r.id in s.cbs && s.cbs[r.id] == SensorQuery(sensor)
    requires HeadIs(s, r.id) && r.status == Complete
    ensures var t := HandleMsg(s, r);
            t.sensorState == s.sensorState[sensor.Name() := r.msg] && t.readings == s.readings + [Reading(sensor, r.msg)]
  {
    var s1 := ClearResponseTimer(s);
    QueryWrapper(s1, r.id, sensor, Completed, r);
    CompleteHeadSensors(s1, r);
    assert HandleMsg(s, r) == CompleteHead(s1, r);
  }

  lemma QueryAnsweredOther(s: State, r: Reply, sensor: Sensor)
    requires r.id in s.cbs && s.cbs[r.id] == SensorQuery(sensor)
    requires !HeadIs(s, r.id) && r.status == Complete
    ensures var t := HandleMsg(s, r);
            t.sensorState == s.sensorState[sensor.Name() := r.msg] && t.readings == s.readings + [Reading(sensor, r.msg)]
  {
    var s1 := ClearResponseTimer(s);
    QueryWrapper(s1, r.id, sensor, Completed, r);
    assert HandleMsg(s, r) == Callback(s1, r, Completed);
  }

  /** The `complete` reply to a poll, for the head or not, caches its value under the
      sensor and hands exactly that value over. */
  lemma QueryAnswered(s: State, r: Reply, sensor: Sensor)
    requires r.id in s.cbs && s.cbs[r.id] == SensorQuery(sensor) && r.status == Complete
    ensures var t := HandleMsg(s, r);
            t.sensorState == s.sensorState[sensor.Name() := r.msg] && t.readings == s.readings + [Reading(sensor, r.msg)]
  {
    if HeadIs(s, r.id) {
      QueryAnsweredHead(s, r, sensor);
    } else {
      QueryAnsweredOther(s, r, sensor);
    }
  }

  // ---------------------------------------------------------------------------
  // The simulator
  // ---------------------------------------------------------------------------

  /** After `setSimulator(sim)`, a command goes to the simulator exactly when `sim` is
      truthy and the driver is simulating; otherwise it goes to the socket when connected,
      so removing the simulator returns the driver to the socket. */
  lemma SimulatorRoute(s: State, present: bool, c: Command)
    ensures var t := SendMsg(SetSimulator(s, present), c);
            t.simOutbox == s.simOutbox + (if present && s.simulating then [c] else []) &&
            t.wire == s.wire + (if !(present && s.simulating) && s.connected then [c] else [])
  {
  }
}
