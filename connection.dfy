/**
 * The runtime object `createRuntime` builds for one account: the mutable
 * `state` record as the fields of a class, its sockets as objects, and each
 * handler as a method proved to change the fields exactly as the matching
 * step function of `RuntimeSpec` says.
 *
 * Timers are armed/disarmed flags; a method such as `ReconnectFires` is the
 * timer's callback, run by the environment while the flag is set. A send or
 * ping that throws, the random draw of the jitter and `Date.now()` are
 * parameters.
 */
module Connection {
  import opened Common
  import opened Accounts
  import opened Classifier
  import opened OutboundQueue
  import opened RuntimeSpec
  import Backoff

  /** A WebSocket the runtime opened, and the `disconnected` flag its `disconnectOnce` closes over. */
  class Socket {
    /** The socket's ready state is `OPEN`. */
    var open: bool
    var disconnected: bool

    constructor ()
      ensures !open && !disconnected
    {
      open := false;
      disconnected := false;
    }
  }

  class Runtime {
    /** The account the handlers closed over when the runtime was created. */
    const captured: Descriptor
    /** `runtime.account`, which `ensureRuntime` overwrites. */
    var account: Descriptor

    var running: bool
    var stopped: bool
    var ws: Socket?
    var counter: nat
    var droppedCount: nat
    var sendQueue: seq<string>
    var reconnectArmed: bool
    var heartbeatArmed: bool
    var idleArmed: bool
    var pingArmed: bool
    var reconnectAttempt: nat
    var lastStartAt: Option<int>
    var lastStopAt: Option<int>
    var lastError: Option<string>
    var lastInboundAt: Option<int>
    var lastOutboundAt: Option<int>
    var lastConnectedAt: Option<int>

    /** The runtime's state as a value. */
    function Model(): State
      reads this, ws
    {
      State(running, stopped, ws != null && ws.open, counter, droppedCount, sendQueue,
            reconnectArmed, heartbeatArmed, idleArmed, pingArmed, reconnectAttempt,
            lastStartAt, lastStopAt, lastError, lastInboundAt, lastOutboundAt, lastConnectedAt)
    }

    ghost predicate Valid()
      reads this, ws
    {
      Invariant(Model(), captured)
    }

    /** `createRuntime(api, account)` */
    constructor (a: Descriptor)
      requires a.maxQueueSize >= 0
      ensures captured == a && account == a && ws == null
      ensures Model() == Initial() && Valid()
    {
      captured := a;
      account := a;
      running := false;
      stopped := false;
      ws := null;
      counter := 0;
      droppedCount := 0;
      sendQueue := [];
      reconnectArmed := false;
      heartbeatArmed := false;
      idleArmed := false;
      pingArmed := false;
      reconnectAttempt := 0;
      lastStartAt := None;
      lastStopAt := None;
      lastError := None;
      lastInboundAt := None;
      lastOutboundAt := None;
      lastConnectedAt := None;
    }

    method CleanupIntervals()
      modifies this
      ensures Model() == RuntimeSpec.CleanupIntervals(old(Model()))
      ensures old(Valid()) ==> Valid()
      ensures ws == old(ws) && account == old(account)
    {
      heartbeatArmed, idleArmed, pingArmed := false, false, false;
    }

    method PushQueue(msg: string)
      modifies this
      ensures Model() == RuntimeSpec.PushQueue(old(Model()), captured, msg)
      ensures old(Valid()) ==> Valid()
      ensures ws == old(ws) && account == old(account)
    {
      sendQueue := sendQueue + [msg];
      if |sendQueue| > captured.maxQueueSize {
        sendQueue := sendQueue[1..];
        droppedCount := droppedCount + 1;
      }
    }

    /**
     * `flushQueue()`: while the queue is not empty, shift its head and send
     * it; the first send that throws records the error, re-pushes the frame
     * and ends the drain. Returns the frames that went out.
     */
    method FlushQueue(o: FlushOutcome, now: int) returns (sent: seq<string>)
      modifies this
      ensures Model() == RuntimeSpec.Flush(old(Model()), captured, o, now)
      ensures old(Valid()) ==> Valid()
      ensures sent == if old(Model()).wsOpen then FlushSent(old(sendQueue), o) else []
      ensures ws == old(ws) && account == old(account)
    {
      if ws == null || !ws.open {
        return [];
      }
      var rest;
      sent, rest := Drain(sendQueue, o);
      FlushSplit(sendQueue, sent, rest, o, captured.maxQueueSize);
      Settle(sent, rest, o, now);
    }

    /** The fields a drain that sent `sent` and stopped at `rest` leaves behind. */
    method Settle(sent: seq<string>, rest: seq<string>, o: FlushOutcome, now: int)
      requires rest != [] ==> o.FailsAt?
      modifies this
      ensures sendQueue == (if rest == [] then [] else Push(rest[1..], rest[0], captured.maxQueueSize))
      ensures droppedCount == old(droppedCount) + (if rest == [] then 0 else Dropped(rest[1..], captured.maxQueueSize))
      ensures lastOutboundAt == if sent != [] then Some(now) else old(lastOutboundAt)
      ensures lastError == if rest != [] then Some(o.error) else old(lastError)
      ensures unchanged(this`running, this`stopped, this`ws, this`counter, this`reconnectArmed,
                        this`heartbeatArmed, this`idleArmed, this`pingArmed, this`reconnectAttempt,
                        this`lastStartAt, this`lastStopAt, this`lastInboundAt, this`lastConnectedAt,
                        this`account)
    {
      if sent != [] {
        lastOutboundAt := Some(now);
      }
      if rest != [] {
        // the `catch`: record the error and push the shifted frame back
        sendQueue, droppedCount, lastError :=
          Push(rest[1..], rest[0], captured.maxQueueSize),
          droppedCount + Dropped(rest[1..], captured.maxQueueSize),
          Some(o.error);
      } else {
        sendQueue := [];
      }
    }

    /** `runtime.send(payload)`, for the serialised payload `msg`. */
    method Send(msg: string, o: SendOutcome, now: int)
      modifies this
      ensures Model() == RuntimeSpec.Send(old(Model()), captured, msg, o, now)
      ensures old(Valid()) ==> Valid()
      ensures ws == old(ws) && account == old(account)
    {
      if ws != null && ws.open {
        if o.Delivered? {
          lastOutboundAt := Some(now);
          return;
        }
        lastError := Some(o.error);
      }
      PushQueue(msg);
    }

    /** `scheduleReconnect(why)`; the delay of the armed timer is returned. */
    method ScheduleReconnect(draw: real) returns (delay: Option<real>)
      requires 0.0 <= draw < 1.0
      modifies this
      ensures Model() == RuntimeSpec.ScheduleReconnect(old(Model()))
      ensures old(Valid()) ==> Valid()
      ensures delay == if old(stopped) || old(reconnectArmed) then None
                       else Some(ReconnectDelay(old(Model()), captured, draw))
      ensures ws == old(ws) && account == old(account)
    {
      if stopped {
        return None;
      }
      if reconnectArmed {
        return None;
      }
      reconnectAttempt := reconnectAttempt + 1;
      delay := Some(Backoff.ComputeBackoff(captured, reconnectAttempt, draw));
      reconnectArmed := true;
    }

    /** `onDisconnected(meta)`; the delay of a reconnect timer it arms is returned. */
    method OnDisconnected(m: Meta, draw: real, now: int) returns (delay: Option<real>)
      requires 0.0 <= draw < 1.0
      modifies this
      ensures Model() == RuntimeSpec.OnDisconnected(old(Model()), m, now)
      ensures old(Valid()) ==> Valid()
      ensures delay.Some? <==> !old(stopped) && Classify(m).recoverable && !old(reconnectArmed)
      ensures ws == old(ws) && account == old(account)
    {
      var info := Classify(m);
      MarkStopped(DisconnectError(info, m), now);
      CleanupIntervals();
      delay := None;
      if !stopped && info.recoverable {
        delay := ScheduleReconnect(draw);
      }
    }

    /** Not running since `now`, for the reason `error`. */
    method MarkStopped(error: string, now: int)
      modifies this
      ensures !running && lastStopAt == Some(now) && lastError == Some(error)
      ensures unchanged(this`stopped, this`ws, this`counter, this`droppedCount, this`sendQueue,
                        this`reconnectArmed, this`heartbeatArmed, this`idleArmed, this`pingArmed,
                        this`reconnectAttempt, this`lastStartAt, this`lastInboundAt, this`lastOutboundAt,
                        this`lastConnectedAt, this`account)
    {
      running, lastStopAt, lastError := false, Some(now), Some(error);
    }

    /** The `disconnectOnce` of socket `s`. */
    method DisconnectOnce(s: Socket, m: Meta, draw: real, now: int) returns (delay: Option<real>)
      requires 0.0 <= draw < 1.0
      modifies this, s
      ensures Model() == RuntimeSpec.DisconnectOnce(old(Model()), old(s.disconnected), m, now)
      ensures old(Valid()) ==> Valid()
      ensures s.disconnected && s.open == old(s.open)
      ensures ws == old(ws) && account == old(account)
    {
      delay := None;
      if s.disconnected {
        return;
      }
      s.disconnected := true;
      delay := OnDisconnected(m, draw, now);
    }

    /** The `close` event of socket `s`, with its code and reason text. */
    method OnClose(s: Socket, code: int, reason: string, draw: real, now: int) returns (delay: Option<real>)
      requires 0.0 <= draw < 1.0
      modifies this, s
      ensures Model() == RuntimeSpec.OnClose(old(Model()), s == old(ws), old(s.disconnected), code, reason, now)
      ensures old(Valid()) ==> Valid()
      ensures s.disconnected && !s.open
      ensures ws == old(ws) && account == old(account)
    {
      s.open := false;
      delay := DisconnectOnce(s, Meta(code, reason, ""), draw, now);
    }

    /** The `error` event of socket `s`, with the error's text. */
    method OnError(s: Socket, message: string, draw: real, now: int) returns (delay: Option<real>)
      requires 0.0 <= draw < 1.0
      modifies this, s
      ensures Model() == RuntimeSpec.OnError(old(Model()), s == old(ws), old(s.disconnected), message, now)
      ensures old(Valid()) ==> Valid()
      ensures s.disconnected && !s.open
      ensures ws == old(ws) && account == old(account)
    {
      s.open := false;
      delay := DisconnectOnce(s, Meta(0, "", message), draw, now);
    }

    /** The `open` event of socket `s`. */
    method OnOpen(s: Socket, flush: FlushOutcome, notice: string, noticeSend: SendOutcome, now: int)
      modifies this, s
      ensures Model() == RuntimeSpec.OnOpen(old(Model()), captured, s == old(ws), flush, notice, noticeSend, now)
      ensures old(Valid()) ==> Valid()
      ensures s.open && s.disconnected == old(s.disconnected)
      ensures ws == old(ws) && account == old(account)
    {
      MarkConnected(s, now);
      var _ := FlushQueue(flush, now);
      Send(notice, noticeSend, now);
      CleanupIntervals();
      StartIntervals();
    }

    /** The `open` handler's updates before it drains the queue. */
    method MarkConnected(s: Socket, now: int)
      modifies this, s
      ensures Model() == Connected(old(Model()), s == old(ws), now)
      ensures ws == old(ws) && account == old(account) && s.open && s.disconnected == old(s.disconnected)
    {
      s.open := true;
      ResetOnConnect(now);
    }

    /** Running from `now` on, with the activity stamps, the last error and the attempt count reset. */
    method ResetOnConnect(now: int)
      modifies this
      ensures running && lastError == None && reconnectAttempt == 0
      ensures lastStartAt == lastConnectedAt == lastInboundAt == lastOutboundAt == Some(now)
      ensures unchanged(this`stopped, this`ws, this`counter, this`droppedCount, this`sendQueue,
                        this`reconnectArmed, this`heartbeatArmed, this`idleArmed, this`pingArmed,
                        this`lastStopAt, this`account)
    {
      running, lastStartAt, lastConnectedAt, lastInboundAt, lastOutboundAt, lastError, reconnectAttempt :=
        true, Some(now), Some(now), Some(now), Some(now), None, 0;
    }

    /** The heartbeat, ping and idle intervals the `open` handler sets up. */
    method StartIntervals()
      modifies this
      ensures Model() == ArmIntervals(old(Model()))
      ensures ws == old(ws) && account == old(account)
    {
      heartbeatArmed, pingArmed, idleArmed := true, true, true;
    }

    /** A `message` or `pong` event. */
    method OnInbound(now: int)
      modifies this
      ensures Model() == RuntimeSpec.OnInbound(old(Model()), now)
      ensures old(Valid()) ==> Valid()
      ensures ws == old(ws) && account == old(account)
    {
      lastInboundAt := Some(now);
    }

    /** The ping interval's callback; a failed ping closes the socket. */
    method OnPingTick(o: SendOutcome, now: int)
      modifies this, ws
      ensures Model() == RuntimeSpec.OnPingTick(old(Model()), o, now)
      ensures old(Valid()) ==> Valid()
      ensures ws == old(ws) && account == old(account)
    {
      if ws == null || !ws.open {
        return;
      }
      if o.Delivered? {
        lastOutboundAt := Some(now);
      } else {
        lastError := Some(o.error);
        ws.open := false;
      }
    }

    /** `onIdleCheck()`, the idle interval's callback. */
    method OnIdleCheck(now: int)
      modifies ws
      ensures Model() == RuntimeSpec.OnIdleCheck(old(Model()), captured, now)
      ensures old(Valid()) ==> Valid()
    {
      if ws == null || !ws.open {
        return;
      }
      var lastActivity := Max(Max(OrZero(lastInboundAt), OrZero(lastOutboundAt)), OrZero(lastConnectedAt));
      if lastActivity == 0 {
        return;
      }
      if now - lastActivity < captured.idleTimeoutMs {
        return;
      }
      ws.open := false;
    }

    /** `openSocket()`: the new socket, or `null` once stopped. */
    method OpenSocket() returns (s: Socket?)
      modifies this
      ensures Model() == RuntimeSpec.OpenSocket(old(Model()))
      ensures old(Valid()) ==> Valid()
      ensures old(stopped) ==> s == null && ws == old(ws)
      ensures !old(stopped) ==> s != null && fresh(s) && ws == s && !s.disconnected
      ensures account == old(account)
    {
      if stopped {
        return null;
      }
      s := new Socket();
      ws := s;
    }

    /** `runtime.start()` */
    method Start() returns (s: Socket?)
      modifies this
      ensures Model() == RuntimeSpec.Start(old(Model()))
      ensures old(Valid()) ==> Valid()
      ensures s != null && fresh(s) && ws == s && !s.disconnected
      ensures account == old(account)
    {
      stopped := false;
      s := OpenSocket();
    }

    /** The reconnect timer's callback. */
    method ReconnectFires() returns (s: Socket?)
      requires reconnectArmed
      modifies this
      ensures Model() == RuntimeSpec.ReconnectFires(old(Model()))
      ensures old(Valid()) ==> Valid()
      ensures !old(stopped) ==> s != null && fresh(s) && ws == s && !s.disconnected
      ensures account == old(account)
    {
      reconnectArmed := false;
      s := OpenSocket();
    }

    /** `runtime.close()` */
    method Close(now: int)
      modifies this, ws
      ensures Model() == RuntimeSpec.Close(old(Model()), now)
      ensures old(Valid()) ==> Valid()
      ensures ws == old(ws) && account == old(account)
    {
      stopped := true;
      reconnectArmed := false;
      CleanupIntervals();
      Shutdown(now);
    }

    /** The end of `runtime.close()`: the socket closes and the runtime stops running. */
    method Shutdown(now: int)
      modifies this, ws
      ensures Model() == old(Model()).(wsOpen := false, running := false, lastStopAt := Some(now))
      ensures ws == old(ws) && account == old(account)
    {
      if ws != null {
        ws.open := false;
      }
      running, lastStopAt := false, Some(now);
    }

    /** `runtime.nextSeq()` */
    method NextSeq() returns (n: nat)
      modifies this
      ensures n == old(counter) + 1 && n == counter
      ensures Model() == RuntimeSpec.NextSeq(old(Model()))
      ensures old(Valid()) ==> Valid()
      ensures ws == old(ws) && account == old(account)
    {
      counter := counter + 1;
      n := counter;
    }

    /** `ensureRuntime` overwriting the `account` property of an existing runtime; its state is untouched. */
    method Reconfigure(a: Descriptor)
      modifies this
      ensures account == a && ws == old(ws) && Model() == old(Model())
      ensures old(Valid()) ==> Valid()
    {
      account := a;
    }
  }

  /**
   * `start()` has no guard against a pending reconnect: a recoverable
   * disconnect arms the reconnect timer, a `start()` in that window (as
   * `withAccountRuntime` does for a runtime that is neither running nor
   * stopped) opens one socket, and the timer then opens a second, while the
   * first is neither closed nor disconnected and keeps its handlers attached.
   */
  method StartDuringBackoff(a: Descriptor, draw: real, now: int) returns (first: Socket?, second: Socket?)
    requires a.maxQueueSize >= 0 && 0.0 <= draw < 1.0
    ensures first != null && second != null && first != second
    ensures !first.disconnected && !second.disconnected
  {
    var rt := new Runtime(a);
    var s0 := rt.Start();
    CodeScenarios();
    var _ := rt.OnClose(s0, AbnormalClosure, "", draw, now);
    assert !rt.running && !rt.stopped && rt.reconnectArmed;
    first := rt.Start();
    second := rt.ReconnectFires();
  }

  /**
   * A second `start()` before the first socket opens (the window in which
   * `withAccountRuntime` sees a runtime neither running nor stopped) opens a
   * second socket; the first is neither closed nor disconnected.
   */
  method StartWhileConnecting(a: Descriptor) returns (first: Socket?, second: Socket?)
    requires a.maxQueueSize >= 0
    ensures first != null && second != null && first != second
    ensures !first.disconnected && !second.disconnected
  {
    var rt := new Runtime(a);
    first := rt.Start();
    assert !rt.running && !rt.stopped;
    second := rt.Start();
  }

  /**
   * The first socket of such a double start opening after `close()` runs the
   * stopped runtime again: running, with all three intervals armed.
   */
  method LeakedSocketOpensAfterClose(a: Descriptor, now: int, later: int) returns (rt: Runtime)
    requires a.maxQueueSize >= 0
    ensures rt.stopped && rt.running && rt.heartbeatArmed && rt.pingArmed && rt.idleArmed
  {
    rt := new Runtime(a);
    var first := rt.Start();
    var second := rt.Start();
    rt.Close(now);
    rt.OnOpen(first, AllSent, "", Delivered, later);
  }

  /**
   * Socket `s` reports an `error` and then its `close`: the close changes
   * nothing more, because the socket's `disconnectOnce` already ran.
   */
  method ErrorThenClose(rt: Runtime, s: Socket, message: string, code: int, reason: string,
                        draw: real, now: int, later: int)
    requires 0.0 <= draw < 1.0
    modifies rt, s
    ensures rt.Model() == RuntimeSpec.OnError(old(rt.Model()), s == old(rt.ws), old(s.disconnected), message, now)
    ensures s.disconnected && !s.open && rt.ws == old(rt.ws)
  {
    var _ := rt.OnError(s, message, draw, now);
    var _ := rt.OnClose(s, code, reason, draw, later);
  }
}
