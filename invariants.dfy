/** The invariants of the driver over whole runs: the queue stays valid and first in,
    first out against the commands queued so far, at most one queued command is in flight,
    and the error latch holds until `disconnect`. */
module Invariants {
  import opened Protocol
  import opened Events
  import opened Callbacks
  import opened Machine
  import opened Properties

  // ---------------------------------------------------------------------------
  // Subsequences
  // ---------------------------------------------------------------------------

  predicate Sub(a: seq<Command>, b: seq<Command>)
    decreases |b|
  {
    if a == [] then true
    else if b == [] then false
    else if a[|a| - 1] == b[|b| - 1] then Sub(a[..|a| - 1], b[..|b| - 1])
    else Sub(a, b[..|b| - 1])
  }

  lemma {:induction false} SubSnoc(a: seq<Command>, b: seq<Command>, x: Command)
    requires Sub(a, b)
    ensures Sub(a, b + [x])
    decreases |b|, 1
  {
    assert (b + [x])[..|b|] == b;
    if a != [] && a[|a| - 1] == x {
      SubDropLast(a, b);
    }
  }

  lemma {:induction false} SubDropLast(a: seq<Command>, b: seq<Command>)
    requires a != [] && Sub(a, b)
    ensures Sub(a[..|a| - 1], b)
    decreases |b|, 0
  {
    var b' := b[..|b| - 1];
    if a[|a| - 1] == b[|b| - 1] {
      SubSnoc(a[..|a| - 1], b', b[|b| - 1]);
      assert b' + [b[|b| - 1]] == b;
    } else {
      SubDropLast(a, b');
      SubSnoc(a[..|a| - 1], b', b[|b| - 1]);
      assert b' + [b[|b| - 1]] == b;
    }
  }

  /** One more command queued, and either sent (`sent == [x]`) or not (`sent == []`). */
  lemma SubExtend(a: seq<Command>, b: seq<Command>, x: Command, sent: seq<Command>)
    requires Sub(a, b) && (sent == [] || sent == [x])
    ensures Sub(a + sent, b + [x])
  {
    if sent == [] {
      assert a + sent == a;
      SubSnoc(a, b, x);
    } else {
      assert (a + sent)[..|a|] == a && (b + [x])[..|b|] == b;
    }
  }

  /** A subsequence of a prefix is a subsequence of every longer prefix. */
  lemma {:induction false} SubPrefix(a: seq<Command>, b: seq<Command>, i: nat, j: nat)
    requires i <= j <= |b| && Sub(a, b[..i])
    ensures Sub(a, b[..j])
    decreases j - i
  {
    if i < j {
      SubSnoc(a, b[..i], b[i]);
      PrefixSnoc(b, i);
      SubPrefix(a, b, i + 1, j);
    }
  }

  lemma PrefixSnoc<T>(b: seq<T>, i: nat)
    requires i < |b|
    ensures b[..i + 1] == b[..i] + [b[i]]
  {
  }

  lemma PrefixAll<T>(b: seq<T>)
    ensures b[..|b|] == b
  {
  }

  lemma Assoc<T>(a: seq<T>, b: seq<T>, c: seq<T>)
    ensures a + (b + c) == a + b + c
  {
  }

  // ---------------------------------------------------------------------------
  // The queued plane of the wire
  // ---------------------------------------------------------------------------

  /** The part of a command that goes through the queue: nothing for an immediate command. */
  function Plane(c: Command): seq<Command> {
    if IsImmediate(c.cmd) then [] else [c]
  }

  /** The commands written to the socket that went through the queue, in order. */
  function QW(w: seq<Command>): (r: seq<Command>)
    ensures forall i :: 0 <= i < |r| ==> !IsImmediate(r[i].cmd)
  {
    if w == [] then [] else QW(w[..|w| - 1]) + Plane(w[|w| - 1])
  }

  lemma QWSnoc(w: seq<Command>, c: Command)
    ensures QW(w + [c]) == QW(w) + Plane(c)
  {
    assert (w + [c])[..|w|] == w;
  }

  /** What `send_msg` adds to the queued plane of the wire. */
  lemma QWSent(s: State, c: Command)
    ensures QW(s.wire + Sent(s, c)) == QW(s.wire) + (if IsImmediate(c.cmd) then [] else Sent(s, c))
  {
    if OnWire(s) {
      QWSnoc(s.wire, c);
    } else {
      assert s.wire + [] == s.wire;
    }
  }

  // ---------------------------------------------------------------------------
  // The invariant
  // ---------------------------------------------------------------------------

  /** How many of the commands queued so far (`h`) have been dispatched: all but the
      waiting ones behind the head. */
  function Launched(s: State, h: seq<Command>): int {
    |h| - |s.msgStack| + (if s.msgStack == [] then 0 else 1)
  }

  /** Given that `h` lists the commands queued so far, in order: the state is valid, the
      queue is what is left of `h` (first in, first out), and the queued commands on the
      socket are, in order, among those dispatched, so none waiting behind the head has
      gone out. */
  ghost predicate Fifo(s: State, h: seq<Command>) {
    Valid(s) && |s.msgStack| <= |h| && s.msgStack == h[|h| - |s.msgStack|..] &&
    Sub(QW(s.wire), h[..Launched(s, h)])
  }

  /** Between `s` and `t` the latch held: latched in error stays latched, with no new socket. */
  ghost predicate Latched(s: State, t: State) {
    s.error ==> t.error && t.socketsOpened == s.socketsOpened
  }

  /** `t` satisfies the invariant for the same history as `s`, and the latch held. */
  ghost predicate Keeps(s: State, t: State, h: seq<Command>) {
    Fifo(t, h) && Latched(s, t)
  }

  /** The queue and whether it is idle unchanged, the table still enumerated, and nothing
      new on the queued plane of the wire. */
  lemma FifoKept(s: State, t: State, h: seq<Command>)
    requires Fifo(s, h) && t.msgStack == s.msgStack && (t.robotState == Idle) == (s.robotState == Idle)
    requires QW(t.wire) == QW(s.wire) && IsEnumeration(t.cbOrder, t.cbs.Keys)
    ensures Fifo(t, h)
  {
    assert Launched(t, h) == Launched(s, h);
    assert Valid(t) by {
      assert forall i :: 0 <= i < |t.msgStack| ==> t.msgStack[i] == s.msgStack[i];
    }
  }

  /** The queue flushed and idle, the table still enumerated, and nothing new on the wire. */
  lemma FifoFlushed(s: State, t: State, h: seq<Command>)
    requires Fifo(s, h) && t.msgStack == [] && t.robotState == Idle
    requires t.wire == s.wire && IsEnumeration(t.cbOrder, t.cbs.Keys)
    ensures Fifo(t, h)
  {
    SubPrefix(QW(s.wire), h, Launched(s, h), |h|);
  }

  lemma RegisteredEnumeration(s: State, id: string, hd: Option<Handler>)
    requires IsEnumeration(s.cbOrder, s.cbs.Keys)
    ensures var x := Registered(s, id, hd); IsEnumeration(x.cbOrder, x.cbs.Keys)
  {
    if hd.Some? {
      RegisterEnumeration(s, id, hd.value);
    }
  }

  // ---------------------------------------------------------------------------
  // send
  // ---------------------------------------------------------------------------

  /** The commands `send(cmd, arg)` queues: the stringified command, unless immediate. */
  function QueuedPart(cmd: string, arg: Arg, id: string): seq<Command> {
    Plane(Command(cmd, Stringify(arg), id))
  }

  lemma FifoSendImmediate(s: State, h: seq<Command>, cmd: string, arg: Arg, id: string, hd: Option<Handler>)
    requires Fifo(s, h) && IsImmediate(cmd)
    ensures var t := Send(s, cmd, arg, id, hd);
            Fifo(t, h + QueuedPart(cmd, arg, id)) && t.error == s.error && t.socketsOpened == s.socketsOpened
  {
    var t := Send(s, cmd, arg, id, hd);
    SendImmediate(s, cmd, arg, id, hd);
    RegisteredEffect(s, id, hd);
    RegisteredEnumeration(s, id, hd);
    QWSent(s, Command(cmd, Stringify(arg), id));
    assert h + QueuedPart(cmd, arg, id) == h;
    FifoKept(s, t, h);
  }

  lemma FifoSendIdle(s: State, h: seq<Command>, cmd: string, arg: Arg, id: string, hd: Option<Handler>)
    requires Fifo(s, h) && !IsImmediate(cmd) && s.robotState == Idle
    ensures var t := Send(s, cmd, arg, id, hd);
            Fifo(t, h + QueuedPart(cmd, arg, id)) && t.error == s.error && t.socketsOpened == s.socketsOpened
  {
    var t := Send(s, cmd, arg, id, hd);
    var c := Command(cmd, Stringify(arg), id);
    SendQueuedIdle(s, cmd, arg, id, hd);
    RegisteredEffect(s, id, hd);
    RegisteredEnumeration(s, id, hd);
    QWSent(s, c);
    assert s.msgStack == [] && t.msgStack == [c];
    var h' := h + [c];
    assert h' == h + QueuedPart(cmd, arg, id);
    assert h[..Launched(s, h)] == h;
    SubExtend(QW(s.wire), h, c, Sent(s, c));
    assert h'[..Launched(t, h')] == h';
  }

  lemma FifoSendBusy(s: State, h: seq<Command>, cmd: string, arg: Arg, id: string, hd: Option<Handler>)
    requires Fifo(s, h) && !IsImmediate(cmd) && s.robotState != Idle
    ensures var t := Send(s, cmd, arg, id, hd);
            Fifo(t, h + QueuedPart(cmd, arg, id)) && t.error == s.error && t.socketsOpened == s.socketsOpened
  {
    var t := Send(s, cmd, arg, id, hd);
    var c := Command(cmd, Stringify(arg), id);
    SendQueuedBusy(s, cmd, arg, id, hd);
    RegisteredEffect(s, id, hd);
    RegisteredEnumeration(s, id, hd);
    var h' := h + [c];
    assert h' == h + QueuedPart(cmd, arg, id);
    assert t.msgStack == s.msgStack + [c];
    assert t.msgStack == h'[|h'| - |t.msgStack|..];
    assert Launched(t, h') == Launched(s, h) <= |h|;
    assert h'[..Launched(t, h')] == h[..Launched(s, h)];
  }

  /** `send` keeps the invariant, with the command it queues (if any) appended to the
      history, and touches neither the latch nor the socket count. */
  lemma FifoSend(s: State, h: seq<Command>, cmd: string, arg: Arg, id: string, hd: Option<Handler>)
    requires Fifo(s, h)
    ensures var t := Send(s, cmd, arg, id, hd);
            Fifo(t, h + QueuedPart(cmd, arg, id)) && t.error == s.error && t.socketsOpened == s.socketsOpened
  {
    if IsImmediate(cmd) {
      FifoSendImmediate(s, h, cmd, arg, id, hd);
    } else if s.robotState == Idle {
      FifoSendIdle(s, h, cmd, arg, id, hd);
    } else {
      FifoSendBusy(s, h, cmd, arg, id, hd);
    }
  }

  // ---------------------------------------------------------------------------
  // handle_msg
  // ---------------------------------------------------------------------------

  lemma FifoNotify(s: State, h: seq<Command>, r: Reply)
    requires Fifo(s, h) && r.status == Notify
    ensures Keeps(s, HandleMsg(s, r), h)
  {
    NotifyCaches(s, r);
    FifoKept(s, HandleMsg(s, r), h);
  }

  lemma FifoAccepted(s: State, h: seq<Command>, r: Reply)
    requires Fifo(s, h) && HeadIs(s, r.id) && r.status == Accepted
    ensures Keeps(s, HandleMsg(s, r), h)
  {
    AcceptedOnHead(s, r);
    FifoKept(s, HandleMsg(s, r), h);
  }

  lemma FifoCompleteLast(s: State, h: seq<Command>, r: Reply)
    requires Fifo(s, h) && HeadIs(s, r.id) && r.status == Complete && !DrainsOn(s, r) && |s.msgStack| == 1
    ensures Keeps(s, HandleMsg(s, r), h)
  {
    var t := HandleMsg(s, r);
    CompleteLast(s, r);
    ForgetEnumeration(s, r.id);
    assert Launched(s, h) == |h| == Launched(t, h);
  }

  lemma FifoCompleteNext(s: State, h: seq<Command>, r: Reply)
    requires Fifo(s, h) && HeadIs(s, r.id) && r.status == Complete && !DrainsOn(s, r) && |s.msgStack| > 1
    ensures Keeps(s, HandleMsg(s, r), h)
  {
    var t := HandleMsg(s, r);
    var q := s.msgStack;
    CompleteNext(s, r);
    ForgetEnumeration(s, r.id);
    var w := s.wire + Sent(t, q[1]);
    assert t.wire == w;
    assert !IsImmediate(q[1].cmd);
    assert QW(w) == QW(s.wire) + Sent(t, q[1]) by {
      if OnWire(t) { QWSnoc(s.wire, q[1]); } else { assert w == s.wire; }
    }
    var l := Launched(s, h);
    assert l == |h| - |q| + 1 && Launched(t, h) == l + 1;
    assert h[l] == q[1];
    PrefixSnoc(h, l);
    SubExtend(QW(s.wire), h[..l], q[1], Sent(t, q[1]));
    assert t.msgStack == q[1..] == h[|h| - |t.msgStack|..];
  }

  lemma FifoCompleteDrains(s: State, h: seq<Command>, r: Reply)
    requires Fifo(s, h) && HeadIs(s, r.id) && r.status == Complete && DrainsOn(s, r)
    ensures Keeps(s, HandleMsg(s, r), h)
  {
    CompleteDrains(s, r);
    FifoFlushed(s, HandleMsg(s, r), h);
  }

  lemma FifoHeadOther(s: State, h: seq<Command>, r: Reply)
    requires Fifo(s, h) && HeadIs(s, r.id) && r.status != Accepted && r.status != Complete && r.status != Notify
    ensures Keeps(s, HandleMsg(s, r), h)
  {
    HeadOtherStatus(s, r);
    FifoKept(s, HandleMsg(s, r), h);
  }

  lemma FifoOtherReply(s: State, h: seq<Command>, r: Reply)
    requires Fifo(s, h) && !HeadIs(s, r.id) && r.status != Notify && !DrainsOn(s, r)
    ensures Keeps(s, HandleMsg(s, r), h)
  {
    OtherReply(s, r);
    ForgetEnumeration(s, r.id);
    FifoKept(s, HandleMsg(s, r), h);
  }

  lemma FifoStopReply(s: State, h: seq<Command>, r: Reply)
    requires Fifo(s, h) && !HeadIs(s, r.id) && r.status != Notify && DrainsOn(s, r)
    ensures Keeps(s, HandleMsg(s, r), h)
  {
    StopReplyDrains(s, r);
    FifoFlushed(s, HandleMsg(s, r), h);
  }

  lemma FifoComplete(s: State, h: seq<Command>, r: Reply)
    requires Fifo(s, h) && HeadIs(s, r.id) && r.status == Complete
    ensures Keeps(s, HandleMsg(s, r), h)
  {
    if DrainsOn(s, r) {
      FifoCompleteDrains(s, h, r);
    } else if |s.msgStack| == 1 {
      FifoCompleteLast(s, h, r);
    } else {
      FifoCompleteNext(s, h, r);
    }
  }

  /** Every reply keeps the invariant for the same history and never unlatches an error
      or opens a socket. */
  lemma FifoReply(s: State, h: seq<Command>, r: Reply)
    requires Fifo(s, h)
    ensures Keeps(s, HandleMsg(s, r), h)
  {
    if r.status == Notify {
      FifoNotify(s, h, r);
    } else if !HeadIs(s, r.id) {
      if DrainsOn(s, r) {
        FifoStopReply(s, h, r);
      } else {
        FifoOtherReply(s, h, r);
      }
    } else if r.status == Accepted {
      FifoAccepted(s, h, r);
    } else if r.status == Complete {
      FifoComplete(s, h, r);
    } else {
      FifoHeadOther(s, h, r);
    }
  }

  // ---------------------------------------------------------------------------
  // handleError
  // ---------------------------------------------------------------------------

  lemma FifoError(s: State, h: seq<Command>, f: Failure)
    requires Fifo(s, h)
    ensures Keeps(s, HandleError(s, f), h)
  {
    if f == OtherFailure {
      HandleErrorDisconnects(s);
      FifoKept(s, HandleError(s, f), h);
    } else {
      HandleErrorFlushes(s, f);
      FifoFlushed(s, HandleError(s, f), h);
    }
  }

  // ---------------------------------------------------------------------------
  // Connection and timer events
  // ---------------------------------------------------------------------------

  /** `connect` while connected or latched in error only remembers a given url: no socket
      is created and no timer armed. */
  lemma ConnectRefused(s: State, u: string)
    requires s.error || s.connected
    ensures Connect(s, u) == s.(url := if u != "" then u else s.url)
  {
  }

  /** `connect` with no url given and none known does nothing. */
  lemma ConnectWithoutUrl(s: State)
    requires s.url == ""
    ensures Connect(s, "") == s
  {
  }

  /** `connect` when neither connected nor latched, with a url: one new socket, connecting,
      with the connect timeout armed. */
  lemma ConnectOpensWithUrl(s: State, u: string)
    requires !s.error && !s.connected && u != ""
    ensures Connect(s, u) ==
            s.(url := u, hasConnected := false, socket := Ws(Connecting, true),
               socketsOpened := s.socketsOpened + 1, connTimeoutArmed := true)
  {
  }

  lemma ConnectOpensKnownUrl(s: State)
    requires !s.error && !s.connected && s.url != ""
    ensures Connect(s, "") ==
            s.(hasConnected := false, socket := Ws(Connecting, true),
               socketsOpened := s.socketsOpened + 1, connTimeoutArmed := true)
  {
  }

  lemma ConnectOpens(s: State, u: string)
    requires !s.error && !s.connected && (u != "" || s.url != "")
    ensures Connect(s, u) ==
            s.(url := if u != "" then u else s.url, hasConnected := false, socket := Ws(Connecting, true),
               socketsOpened := s.socketsOpened + 1, connTimeoutArmed := true)
  {
    if u != "" {
      ConnectOpensWithUrl(s, u);
    } else {
      ConnectOpensKnownUrl(s);
    }
  }

  lemma FifoConnectRefused(s: State, h: seq<Command>, u: string)
    requires Fifo(s, h) && (s.error || s.connected)
    ensures Keeps(s, Connect(s, u), h)
  {
    ConnectRefused(s, u);
    FifoKept(s, Connect(s, u), h);
  }

  lemma FifoConnectWithoutUrl(s: State, h: seq<Command>, u: string)
    requires Fifo(s, h) && u == "" && s.url == ""
    ensures Keeps(s, Connect(s, u), h)
  {
    ConnectWithoutUrl(s);
  }

  lemma FifoConnectOpens(s: State, h: seq<Command>, u: string)
    requires Fifo(s, h) && !s.error && !s.connected && (u != "" || s.url != "")
    ensures Keeps(s, Connect(s, u), h)
  {
    ConnectOpens(s, u);
    FifoKept(s, Connect(s, u), h);
  }

  lemma FifoConnect(s: State, h: seq<Command>, u: string)
    requires Fifo(s, h)
    ensures Keeps(s, Connect(s, u), h)
  {
    if s.error || s.connected {
      FifoConnectRefused(s, h, u);
    } else if u == "" && s.url == "" {
      FifoConnectWithoutUrl(s, h, u);
    } else {
      FifoConnectOpens(s, h, u);
    }
  }

  lemma FifoReconnect(s: State, h: seq<Command>)
    requires Fifo(s, h)
    ensures Keeps(s, Reconnect(s), h)
  {
    var s1 := DisarmReconnect(s);
    FifoKept(s, s1, h);
    FifoConnect(s1, h, "");
  }

  lemma FifoDisconnect(s: State, h: seq<Command>)
    requires Fifo(s, h)
    ensures Fifo(Disconnect(s), h)
  {
    FifoKept(s, Disconnect(s), h);
  }

  lemma FifoOpen(s: State, h: seq<Command>, v: string)
    requires Fifo(s, h) && s.socket.Ws?
    ensures Keeps(s, OnOpen(s, v), h)
  {
    var s1 := MarkOpen(s);
    FifoKept(s, s1, h);
    FifoSend(s1, h, "version", NoArg, v, Some(Handshake));
    assert h + QueuedPart("version", NoArg, v) == h;
  }

  lemma FifoCloseLive(s: State, h: seq<Command>)
    requires Fifo(s, h) && s.socket.Ws? && s.socket.live
    ensures Keeps(s, OnClose(s), h)
  {
    var s1 := MarkClosed(s);
    FifoKept(s, s1, h);
    FifoError(s1, h, CloseEvent);
  }

  lemma FifoCloseDetached(s: State, h: seq<Command>)
    requires Fifo(s, h) && s.socket.Ws? && !s.socket.live
    ensures Keeps(s, OnClose(s), h)
  {
    FifoKept(s, OnClose(s), h);
  }

  lemma FifoErrorLive(s: State, h: seq<Command>)
    requires Fifo(s, h) && s.socket.Ws? && s.socket.live
    ensures Keeps(s, OnError(s), h)
  {
    FifoError(s, h, OtherFailure);
  }

  lemma FifoErrorDetached(s: State, h: seq<Command>)
    requires Fifo(s, h) && s.socket.Ws? && !s.socket.live
    ensures Keeps(s, OnError(s), h)
  {
  }

  lemma FifoConnTimeout(s: State, h: seq<Command>)
    requires Fifo(s, h)
    ensures Keeps(s, ConnTimeout(s), h)
  {
    FifoKept(s, ConnTimeout(s), h);
  }

  lemma FifoResponseTimeout(s: State, h: seq<Command>)
    requires Fifo(s, h)
    ensures Keeps(s, ResponseTimeout(s), h)
  {
    var s1 := ClearResponseTimer(s);
    FifoKept(s, s1, h);
    FifoError(s1, h, Timeout);
  }

  lemma FifoStateChange(s: State, h: seq<Command>)
    requires Fifo(s, h) && s.pendingStateEmits > 0
    ensures Keeps(s, StateChange(s), h)
  {
    var s1 := s.(pendingStateEmits := s.pendingStateEmits - 1);
    var s2 := Emit(s1, "readyStateChange", Some(ReadyText(s1)));
    EmitKeepsCore(s1, "readyStateChange", Some(ReadyText(s1)));
    EmitKeepsCore(s2, "connectedStateChange", Some(ConnectedText(s2)));
    FifoKept(s, StateChange(s), h);
  }

  lemma FifoSimulating(s: State, h: seq<Command>, on: bool)
    requires Fifo(s, h)
    ensures Keeps(s, SetSimulating(s, on), h)
  {
    var s1 := SetSimulatingFlag(s, on);
    EmitKeepsCore(s1, "readyStateChange", Some(ReadyText(s1)));
    FifoKept(s, SetSimulating(s, on), h);
  }

  // ---------------------------------------------------------------------------
  // One step
  // ---------------------------------------------------------------------------

  /** The commands an action queues: those of `send`, `turn`, a polling sensor query and a
      notification switch, unless immediate; nothing for any other action. */
  function Enqueued(s: State, a: Action): seq<Command> {
    match a
    case UserSend(cmd, arg, id, _) => QueuedPart(cmd, arg, id)
    case UserTurn(d, angle, id, _) => var n := NormalizeTurn(d, angle); QueuedPart(n.0, Num(n.1), id)
    case UserSensorState(sensor, id) => if Polls(s, sensor) then QueuedPart(sensor.QueryCmd(), NoArg, id) else []
    case UserSensorNotify(sensor, on, id) => QueuedPart(sensor.NotifyCmd(), Str(if on then "true" else "false"), id)
    case _ => []
  }

  /** After one action the invariant holds for the history extended by what the action
      queued, and unless the action is `disconnect` the latch held. */
  ghost predicate StepKeeps(s: State, a: Action, h: seq<Command>) {
    Fifo(Step(s, a), h + Enqueued(s, a)) && (!a.UserDisconnect? ==> Latched(s, Step(s, a)))
  }

  /** An action that queues nothing and whose effect keeps the invariant and the latch. */
  lemma StepVia(s: State, h: seq<Command>, a: Action, t: State)
    requires Enqueued(s, a) == [] && Step(s, a) == t && Keeps(s, t, h)
    ensures StepKeeps(s, a, h)
  {
    assert h + Enqueued(s, a) == h;
  }

  lemma StepSend(s: State, h: seq<Command>, a: Action)
    requires Fifo(s, h) && a.UserSend?
    ensures StepKeeps(s, a, h)
  {
    FifoSend(s, h, a.cmd, a.arg, a.id, a.handler);
  }

  lemma StepTurn(s: State, h: seq<Command>, a: Action)
    requires Fifo(s, h) && a.UserTurn?
    ensures StepKeeps(s, a, h)
  {
    var n := NormalizeTurn(a.direction, a.angle);
    FifoSend(s, h, n.0, Num(n.1), a.id, a.handler);
  }

  lemma StepStop(s: State, h: seq<Command>, a: Action)
    requires Fifo(s, h) && a.UserStop?
    ensures StepKeeps(s, a, h)
  {
    FifoSend(s, h, "stop", NoArg, a.id, Some(StopDrain));
    assert QueuedPart("stop", NoArg, a.id) == [];
  }

  lemma StepSensorPoll(s: State, h: seq<Command>, a: Action)
    requires Fifo(s, h) && a.UserSensorState? && Polls(s, a.sensor)
    ensures StepKeeps(s, a, h)
  {
    FifoSend(s, h, a.sensor.QueryCmd(), NoArg, a.id, Some(SensorQuery(a.sensor)));
  }

  lemma StepSensorCached(s: State, h: seq<Command>, a: Action)
    requires Fifo(s, h) && a.UserSensorState? && !Polls(s, a.sensor)
    ensures StepKeeps(s, a, h)
  {
    var t := HandOver(s, Reading(a.sensor, Lookup(s.sensorState, a.sensor.Name())));
    FifoKept(s, t, h);
    StepVia(s, h, a, t);
  }

  lemma StepSensorNotify(s: State, h: seq<Command>, a: Action)
    requires Fifo(s, h) && a.UserSensorNotify?
    ensures StepKeeps(s, a, h)
  {
    FifoSend(s, h, a.sensor.NotifyCmd(), Str(if a.on then "true" else "false"), a.id, Some(SensorArm(a.sensor)));
  }

  lemma StepConnect(s: State, h: seq<Command>, a: Action)
    requires Fifo(s, h) && a.UserConnect?
    ensures StepKeeps(s, a, h)
  {
    FifoConnect(s, h, a.url);
    StepVia(s, h, a, Connect(s, a.url));
  }

  lemma StepDisconnect(s: State, h: seq<Command>, a: Action)
    requires Fifo(s, h) && a.UserDisconnect?
    ensures StepKeeps(s, a, h)
  {
    FifoDisconnect(s, h);
    assert h + Enqueued(s, a) == h;
  }

  lemma StepSetSimulator(s: State, h: seq<Command>, a: Action)
    requires Fifo(s, h) && a.UserSetSimulator?
    ensures StepKeeps(s, a, h)
  {
    FifoKept(s, SetSimulator(s, a.present), h);
    StepVia(s, h, a, SetSimulator(s, a.present));
  }

  lemma StepSetSimulating(s: State, h: seq<Command>, a: Action)
    requires Fifo(s, h) && a.UserSetSimulating?
    ensures StepKeeps(s, a, h)
  {
    FifoSimulating(s, h, a.on);
    StepVia(s, h, a, SetSimulating(s, a.on));
  }

  lemma StepListen(s: State, h: seq<Command>, a: Action)
    requires Fifo(s, h) && a.UserListen?
    ensures StepKeeps(s, a, h)
  {
    var t := AddEventListener(s, a.name, a.listener);
    FifoKept(s, t, h);
    StepVia(s, h, a, t);
  }

  lemma StepReceived(s: State, h: seq<Command>, a: Action)
    requires Fifo(s, h) && a.Received?
    ensures StepKeeps(s, a, h)
  {
    FifoReply(s, h, a.reply);
    StepVia(s, h, a, HandleMsg(s, a.reply));
  }

  /** An event that cannot happen in this state changes nothing. */
  lemma StepIgnored(s: State, h: seq<Command>, a: Action)
    requires Fifo(s, h) && Enqueued(s, a) == [] && Step(s, a) == s
    ensures StepKeeps(s, a, h)
  {
    StepVia(s, h, a, s);
  }

  lemma StepOpenedLive(s: State, h: seq<Command>, a: Action)
    requires Fifo(s, h) && a.SocketOpened? && s.socket.Ws? && s.socket.phase == Connecting
    ensures StepKeeps(s, a, h)
  {
    FifoOpen(s, h, a.versionId);
    StepVia(s, h, a, OnOpen(s, a.versionId));
  }

  lemma StepOpened(s: State, h: seq<Command>, a: Action)
    requires Fifo(s, h) && a.SocketOpened?
    ensures StepKeeps(s, a, h)
  {
    if s.socket.Ws? && s.socket.phase == Connecting {
      StepOpenedLive(s, h, a);
    } else {
      StepIgnored(s, h, a);
    }
  }

  lemma StepClosedLive(s: State, h: seq<Command>, a: Action)
    requires Fifo(s, h) && a.SocketClosed? && s.socket.Ws? && s.socket.phase != Closed && s.socket.live
    ensures StepKeeps(s, a, h)
  {
    FifoCloseLive(s, h);
    StepVia(s, h, a, OnClose(s));
  }

  lemma StepClosedDetached(s: State, h: seq<Command>, a: Action)
    requires Fifo(s, h) && a.SocketClosed? && s.socket.Ws? && s.socket.phase != Closed && !s.socket.live
    ensures StepKeeps(s, a, h)
  {
    FifoCloseDetached(s, h);
    StepVia(s, h, a, OnClose(s));
  }

  lemma StepClosed(s: State, h: seq<Command>, a: Action)
    requires Fifo(s, h) && a.SocketClosed?
    ensures StepKeeps(s, a, h)
  {
    if !s.socket.Ws? || s.socket.phase == Closed {
      StepIgnored(s, h, a);
    } else if s.socket.live {
      StepClosedLive(s, h, a);
    } else {
      StepClosedDetached(s, h, a);
    }
  }

  lemma StepErroredLive(s: State, h: seq<Command>, a: Action)
    requires Fifo(s, h) && a.SocketErrored? && s.socket.Ws? && s.socket.live
    ensures StepKeeps(s, a, h)
  {
    FifoErrorLive(s, h);
    StepVia(s, h, a, OnError(s));
  }

  lemma StepErrored(s: State, h: seq<Command>, a: Action)
    requires Fifo(s, h) && a.SocketErrored?
    ensures StepKeeps(s, a, h)
  {
    if s.socket.Ws? && s.socket.live {
      StepErroredLive(s, h, a);
    } else {
      StepIgnored(s, h, a);
    }
  }

  lemma StepConnTimeoutArmed(s: State, h: seq<Command>, a: Action)
    requires Fifo(s, h) && a.ConnTimeoutFired? && s.connTimeoutArmed
    ensures StepKeeps(s, a, h)
  {
    FifoConnTimeout(s, h);
    StepVia(s, h, a, ConnTimeout(s));
  }

  lemma StepConnTimeout(s: State, h: seq<Command>, a: Action)
    requires Fifo(s, h) && a.ConnTimeoutFired?
    ensures StepKeeps(s, a, h)
  {
    if s.connTimeoutArmed {
      StepConnTimeoutArmed(s, h, a);
    } else {
      StepIgnored(s, h, a);
    }
  }

  lemma StepResponseTimeoutArmed(s: State, h: seq<Command>, a: Action)
    requires Fifo(s, h) && a.ResponseTimeoutFired? && s.responseTimerArmed
    ensures StepKeeps(s, a, h)
  {
    FifoResponseTimeout(s, h);
    StepVia(s, h, a, ResponseTimeout(s));
  }

  lemma StepResponseTimeout(s: State, h: seq<Command>, a: Action)
    requires Fifo(s, h) && a.ResponseTimeoutFired?
    ensures StepKeeps(s, a, h)
  {
    if s.responseTimerArmed {
      StepResponseTimeoutArmed(s, h, a);
    } else {
      StepIgnored(s, h, a);
    }
  }

  lemma StepReconnectArmed(s: State, h: seq<Command>, a: Action)
    requires Fifo(s, h) && a.ReconnectFired? && s.reconnectArmed
    ensures StepKeeps(s, a, h)
  {
    FifoReconnect(s, h);
    StepVia(s, h, a, Reconnect(s));
  }

  lemma StepReconnect(s: State, h: seq<Command>, a: Action)
    requires Fifo(s, h) && a.ReconnectFired?
    ensures StepKeeps(s, a, h)
  {
    if s.reconnectArmed {
      StepReconnectArmed(s, h, a);
    } else {
      StepIgnored(s, h, a);
    }
  }

  lemma StepStateChangePending(s: State, h: seq<Command>, a: Action)
    requires Fifo(s, h) && a.StateChangeFired? && s.pendingStateEmits > 0
    ensures StepKeeps(s, a, h)
  {
    FifoStateChange(s, h);
    StepVia(s, h, a, StateChange(s));
  }

  lemma StepStateChange(s: State, h: seq<Command>, a: Action)
    requires Fifo(s, h) && a.StateChangeFired?
    ensures StepKeeps(s, a, h)
  {
    if s.pendingStateEmits > 0 {
      StepStateChangePending(s, h, a);
    } else {
      StepIgnored(s, h, a);
    }
  }

  /** Every action keeps the invariant, extending the history by what it queues, and every
      action but `disconnect` keeps the latch. */
  lemma FifoStep(s: State, h: seq<Command>, a: Action)
    requires Fifo(s, h)
    ensures StepKeeps(s, a, h)
  {
    match a
    case UserSend(_, _, _, _) => StepSend(s, h, a);
    case UserTurn(_, _, _, _) => StepTurn(s, h, a);
    case UserStop(_) => StepStop(s, h, a);
    case UserSensorState(sensor, _) =>
      if Polls(s, sensor) {
        StepSensorPoll(s, h, a);
      } else {
        StepSensorCached(s, h, a);
      }
    case UserSensorNotify(_, _, _) => StepSensorNotify(s, h, a);
    case UserConnect(_) => StepConnect(s, h, a);
    case UserDisconnect => StepDisconnect(s, h, a);
    case UserSetSimulator(_) => StepSetSimulator(s, h, a);
    case UserSetSimulating(_) => StepSetSimulating(s, h, a);
    case UserListen(_, _) => StepListen(s, h, a);
    case Received(_) => StepReceived(s, h, a);
    case SocketOpened(_) => StepOpened(s, h, a);
    case SocketClosed => StepClosed(s, h, a);
    case SocketErrored => StepErrored(s, h, a);
    case ConnTimeoutFired => StepConnTimeout(s, h, a);
    case ResponseTimeoutFired => StepResponseTimeout(s, h, a);
    case ReconnectFired => StepReconnect(s, h, a);
    case StateChangeFired => StepStateChange(s, h, a);
  }

  // ---------------------------------------------------------------------------
  // Runs
  // ---------------------------------------------------------------------------

  /** The commands queued over a run from `s`, in order. */
  function History(s: State, actions: seq<Action>): seq<Command> {
    if actions == [] then []
    else
      var n := |actions| - 1;
      History(s, actions[..n]) + Enqueued(Run(s, actions[..n]), actions[n])
  }

  /** A new driver, with or without a url, satisfies the invariant with nothing queued. */
  lemma FifoInit(u: string)
    ensures Fifo(Init(u), [])
  {
    var s := Init(u);
    assert s.msgStack == [] && s.wire == [] && s.cbs == map[] && s.cbOrder == [];
    assert Elems([]) == {};
  }

  /** One more action at the end of a run keeps the invariant. */
  lemma FifoRunSnoc(s: State, h: seq<Command>, actions: seq<Action>)
    requires actions != []
    requires Fifo(Run(s, actions[..|actions| - 1]), h + History(s, actions[..|actions| - 1]))
    ensures Fifo(Run(s, actions), h + History(s, actions))
  {
    var n := |actions| - 1;
    var x := Run(s, actions[..n]);
    FifoStep(x, h + History(s, actions[..n]), actions[n]);
    assert Run(s, actions) == Step(x, actions[n]);
    assert History(s, actions) == History(s, actions[..n]) + Enqueued(x, actions[n]);
    Assoc(h, History(s, actions[..n]), Enqueued(x, actions[n]));
  }

  /** The invariant is kept along any run, for the history of what the run queued. */
  lemma {:induction false} FifoRun(s: State, h: seq<Command>, actions: seq<Action>)
    requires Fifo(s, h)
    ensures Fifo(Run(s, actions), h + History(s, actions))
  {
    if actions == [] {
      assert h + [] == h;
    } else {
      FifoRun(s, h, actions[..|actions| - 1]);
      FifoRunSnoc(s, h, actions);
    }
  }

  /** Whatever happens to a new driver, the invariant holds for the commands queued so
      far. */
  lemma Reachable(u: string, actions: seq<Action>)
    ensures Fifo(Run(Init(u), actions), History(Init(u), actions))
  {
    FifoInit(u);
    FifoRun(Init(u), [], actions);
    assert [] + History(Init(u), actions) == History(Init(u), actions);
  }

  /** What the invariant says: the state is valid; the queue is the tail of the commands
      queued so far, in the order they were queued; and the queued commands written to the
      socket were written in that order, each at most as often as queued, and none before
      every command queued ahead of it had been dispatched. */
  lemma FifoMeans(t: State, h: seq<Command>)
    requires Fifo(t, h)
    ensures Valid(t)
    ensures |t.msgStack| <= |h| && t.msgStack == h[|h| - |t.msgStack|..]
    ensures Sub(QW(t.wire), h[..Launched(t, h)])
    ensures Sub(QW(t.wire), h)
  {
    SubPrefix(QW(t.wire), h, Launched(t, h), |h|);
    PrefixAll(h);
  }

  /** Latched in error, the driver stays latched and opens no socket through any run
      that does not call `disconnect`. */
  lemma {:induction false} LatchRun(s: State, h: seq<Command>, actions: seq<Action>)
    requires Fifo(s, h)
    requires forall i :: 0 <= i < |actions| ==> !actions[i].UserDisconnect?
    ensures Latched(s, Run(s, actions))
  {
    if actions != [] {
      var n := |actions| - 1;
      var init := actions[..n];
      LatchRun(s, h, init);
      FifoRun(s, h, init);
      FifoStep(Run(s, init), h + History(s, init), actions[n]);
    }
  }

  /** From a new driver: once latched in error, only `disconnect` clears the latch, and
      until then no connection attempt creates a socket. */
  lemma ErrorLatch(u: string, before: seq<Action>, after: seq<Action>)
    requires Run(Init(u), before).error
    requires forall i :: 0 <= i < |after| ==> !after[i].UserDisconnect?
    ensures Run(Run(Init(u), before), after).error
    ensures Run(Run(Init(u), before), after).socketsOpened == Run(Init(u), before).socketsOpened
  {
    FifoInit(u);
    FifoRun(Init(u), [], before);
    LatchRun(Run(Init(u), before), [] + History(Init(u), before), after);
  }

  /** `disconnect` clears the latch. */
  lemma DisconnectUnlatches(s: State)
    ensures !Disconnect(s).error && !Disconnect(s).connected
  {
  }

  // ---------------------------------------------------------------------------
  // handleError leaves the dispatch phase behind
  // ---------------------------------------------------------------------------

  /** As written, a close event or the response timeout while a command is in flight
      empties the queue but leaves the phase `receiving` or `running`: the state is no
      longer valid, and once the connection is back a newly queued command is announced
      with `programStart` and queued, but not written to the socket. */
  lemma HandleErrorAsWrittenStalls(s: State, f: Failure, cmd: string, arg: Arg, id: string, hd: Option<Handler>)
    requires s.robotState != Idle && f != OtherFailure && !IsImmediate(cmd)
    ensures var t := HandleErrorAsWritten(s, f);
            !Valid(t) && t.msgStack == [] && t.robotState == s.robotState
    ensures var u := SetConnectedState(HandleErrorAsWritten(s, f), true);
            var v := Send(u, cmd, arg, id, hd);
            u.connected && v.wire == u.wire && v.msgStack == [Command(cmd, Stringify(arg), id)] &&
            v.emitted == u.emitted + [ProgramStart]
  {
    var u := SetConnectedState(HandleErrorAsWritten(s, f), true);
    SendQueuedBusy(u, cmd, arg, id, hd);
    RegisteredEffect(u, id, hd);
  }

  /** With the phase reset, the same sequence writes the new command to the socket as soon
      as the connection is back. */
  lemma HandleErrorResumes(s: State, f: Failure, cmd: string, arg: Arg, id: string, hd: Option<Handler>)
    requires f != OtherFailure && !IsImmediate(cmd) && !(s.simulating && s.hasSim)
    ensures var t := HandleError(s, f);
            t.msgStack == [] && t.robotState == Idle && (Valid(s) ==> Valid(t))
    ensures var u := SetConnectedState(HandleError(s, f), true);
            var v := Send(u, cmd, arg, id, hd);
            var c := Command(cmd, Stringify(arg), id);
            u.connected && v.wire == u.wire + [c] && v.msgStack == [c] && v.robotState == Receiving &&
            v.emitted == u.emitted + [ProgramStart]
  {
    var u := SetConnectedState(HandleError(s, f), true);
    SendQueuedIdle(u, cmd, arg, id, hd);
    RegisteredEffect(u, id, hd);
  }
}
