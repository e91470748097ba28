/**
 * The connection runtime of one account as a state machine over values:
 * one step function per handler of `createRuntime`. The class in module
 * `Connection` is proved to update its fields exactly as these functions say;
 * the lemmas below state what the handlers promise across calls.
 *
 * Facts that come from the environment are parameters: the time (`now`),
 * whether a send throws, and for a socket callback whether the socket is the
 * runtime's current one (`current`) and whether it already reported its
 * disconnect (`already`).
 */
module RuntimeSpec {
  import opened Common
  import opened Accounts
  import opened Classifier
  import opened OutboundQueue
  import Backoff

  /** What `ws.send` (or `ws.ping`) does: it goes out, or it throws with an error text. */
  datatype SendOutcome = Delivered | Throws(error: string)

  /** The fields of `createRuntime`'s `state` record; each timer is an armed/disarmed slot. */
  datatype State = State(
    running: bool,
    stopped: bool,
    /** `state.ws` exists and its `readyState` is `OPEN`. */
    wsOpen: bool,
    /** `state.seq`, the last number `nextSeq()` handed out. */
    counter: nat,
    droppedCount: nat,
    sendQueue: seq<string>,
    reconnectArmed: bool,
    heartbeatArmed: bool,
    idleArmed: bool,
    pingArmed: bool,
    reconnectAttempt: nat,
    lastStartAt: Option<int>,
    lastStopAt: Option<int>,
    lastError: Option<string>,
    lastInboundAt: Option<int>,
    lastOutboundAt: Option<int>,
    lastConnectedAt: Option<int>)

  /** The state `createRuntime` starts from. */
  function Initial(): (st: State)
    ensures !st.running && !st.stopped && !st.wsOpen && st.sendQueue == []
    ensures NoTimerArmed(st) && st.reconnectAttempt == 0 && st.counter == 0
  {
    State(false, false, false, 0, 0, [], false, false, false, false, 0,
          None, None, None, None, None, None)
  }

  predicate NoIntervalArmed(st: State)
  {
    !st.heartbeatArmed && !st.idleArmed && !st.pingArmed
  }

  predicate NoTimerArmed(st: State)
  {
    !st.reconnectArmed && NoIntervalArmed(st)
  }

  /** The queue invariant: never more entries than `maxQueueSize`. */
  predicate QueueWithinBound(st: State, a: Descriptor)
  {
    |st.sendQueue| <= a.maxQueueSize
  }

  /** `cleanupIntervals()` */
  function CleanupIntervals(st: State): (r: State)
    ensures NoIntervalArmed(r)
    ensures r.(heartbeatArmed := st.heartbeatArmed, idleArmed := st.idleArmed, pingArmed := st.pingArmed) == st
  {
    st.(heartbeatArmed := false, idleArmed := false, pingArmed := false)
  }

  /** `pushQueue(msg)` */
  function PushQueue(st: State, a: Descriptor, msg: string): (r: State)
    ensures QueueWithinBound(st, a) ==> QueueWithinBound(r, a)
    ensures r.sendQueue == Push(st.sendQueue, msg, a.maxQueueSize)
    ensures r.droppedCount == st.droppedCount + Dropped(st.sendQueue, a.maxQueueSize)
    ensures r.(sendQueue := st.sendQueue, droppedCount := st.droppedCount) == st
  {
    st.(sendQueue := Push(st.sendQueue, msg, a.maxQueueSize),
        droppedCount := st.droppedCount + Dropped(st.sendQueue, a.maxQueueSize))
  }

  /**
   * Only the queue fields changed between `st` and `r`: the lifecycle flags,
   * the timers, the counters and the time stamps of connect and inbound
   * traffic are as they were.
   */
  predicate QueueStep(st: State, r: State)
  {
    && r.running == st.running && r.stopped == st.stopped && r.wsOpen == st.wsOpen
    && r.counter == st.counter && r.reconnectArmed == st.reconnectArmed
    && r.heartbeatArmed == st.heartbeatArmed && r.idleArmed == st.idleArmed && r.pingArmed == st.pingArmed
    && r.reconnectAttempt == st.reconnectAttempt && r.lastStartAt == st.lastStartAt
    && r.lastStopAt == st.lastStopAt && r.lastInboundAt == st.lastInboundAt
    && r.lastConnectedAt == st.lastConnectedAt
  }

  /** `flushQueue()`: a no-op unless the socket is open; otherwise a drain that stops at the first failure. */
  function Flush(st: State, a: Descriptor, o: FlushOutcome, now: int): (r: State)
    ensures !st.wsOpen ==> r == st
    ensures QueueWithinBound(st, a) ==> QueueWithinBound(r, a) && r.droppedCount == st.droppedCount
    ensures st.wsOpen ==> r.sendQueue == FlushRest(st.sendQueue, o, a.maxQueueSize)
    ensures st.wsOpen && StopsWithin(st.sendQueue, o) ==> r.lastError == Some(o.error)
    ensures !StopsWithin(st.sendQueue, o) ==> r.lastError == st.lastError
    ensures QueueStep(st, r)
  {
    if !st.wsOpen then st
    else
      var q := st.sendQueue;
      var rest := FlushRest(q, o, a.maxQueueSize);
      var dropped := FlushDropped(q, o, a.maxQueueSize);
      var outAt := if FlushSent(q, o) != [] then Some(now) else st.lastOutboundAt;
      var err := if StopsWithin(q, o) then Some(o.error) else st.lastError;
      FlushKeepsBound(q, o, a.maxQueueSize);
      st.(sendQueue := rest, droppedCount := st.droppedCount + dropped, lastOutboundAt := outAt, lastError := err)
  }

  /** A drain that fails at entry `k` is the `pushQueue` of that entry onto the `k + 1` shifted queue. */
  lemma FlushFailsAt(st: State, a: Descriptor, o: FlushOutcome, now: int)
    requires st.wsOpen && StopsWithin(st.sendQueue, o)
    ensures var k := o.index;
      Flush(st, a, o, now) ==
        PushQueue(st.(sendQueue := st.sendQueue[k + 1..],
                      lastOutboundAt := if k > 0 then Some(now) else st.lastOutboundAt,
                      lastError := Some(o.error)), a, st.sendQueue[k])
  {
  }

  /** `runtime.send(payload)` for the serialised `msg`: straight to an open socket, otherwise (or when that throws) queued. */
  function Send(st: State, a: Descriptor, msg: string, o: SendOutcome, now: int): (r: State)
    ensures QueueWithinBound(st, a) ==> QueueWithinBound(r, a)
    ensures st.wsOpen && o.Delivered? ==> r == st.(lastOutboundAt := Some(now))
    ensures !(st.wsOpen && o.Delivered?) ==>
      && r.sendQueue == Push(st.sendQueue, msg, a.maxQueueSize)
      && r.droppedCount == st.droppedCount + Dropped(st.sendQueue, a.maxQueueSize)
      && r.lastOutboundAt == st.lastOutboundAt
    ensures r.lastError == if st.wsOpen && o.Throws? then Some(o.error) else st.lastError
    ensures QueueStep(st, r)
  {
    if st.wsOpen && o.Delivered? then st.(lastOutboundAt := Some(now))
    else PushQueue(if st.wsOpen then st.(lastError := Some(o.error)) else st, a, msg)
  }

  /** `scheduleReconnect(why)`: one more attempt and one armed timer, unless stopped or a timer is already armed. */
  function ScheduleReconnect(st: State): (r: State)
    ensures st.stopped || st.reconnectArmed ==> r == st
    ensures !st.stopped && !st.reconnectArmed ==>
      && r.reconnectArmed && r.reconnectAttempt == st.reconnectAttempt + 1
      && r.(reconnectArmed := false, reconnectAttempt := st.reconnectAttempt) == st
  {
    if st.stopped || st.reconnectArmed then st
    else st.(reconnectAttempt := st.reconnectAttempt + 1, reconnectArmed := true)
  }

  /** The delay `scheduleReconnect` arms its timer with, for the random draw `draw`. */
  function ReconnectDelay(st: State, a: Descriptor, draw: real): (d: real)
    requires 0.0 <= draw < 1.0
    ensures a.reconnectJitter <= 0.0 ==> d <= a.reconnectMaxMs
  {
    Backoff.ComputeBackoff(a, st.reconnectAttempt + 1, draw)
  }

  /** The `lastError` text of a disconnect: the verdict's reason, then the close reason when there is one. */
  function DisconnectError(v: Verdict, m: Meta): (e: string)
    ensures |ReasonName(v.reason)| <= |e| && e[..|ReasonName(v.reason)|] == ReasonName(v.reason)
    ensures m.reason == "" ==> e == ReasonName(v.reason)
  {
    ReasonName(v.reason) + (if m.reason != "" then ": " + m.reason else "")
  }

  /** `onDisconnected(meta)` */
  function OnDisconnected(st: State, m: Meta, now: int): (r: State)
    ensures !r.running && NoIntervalArmed(r) && r.lastStopAt == Some(now)
    ensures r.lastError == Some(DisconnectError(Classify(m), m))
    ensures r.reconnectArmed <==> st.reconnectArmed || (!st.stopped && Classify(m).recoverable)
    ensures r.reconnectAttempt ==
      st.reconnectAttempt + (if !st.stopped && Classify(m).recoverable && !st.reconnectArmed then 1 else 0)
    ensures r.sendQueue == st.sendQueue && r.droppedCount == st.droppedCount && r.stopped == st.stopped
    ensures r.wsOpen == st.wsOpen && r.counter == st.counter
  {
    var v := Classify(m);
    var cleared := CleanupIntervals(st.(running := false, lastStopAt := Some(now),
                                        lastError := Some(DisconnectError(v, m))));
    if !st.stopped && v.recoverable then ScheduleReconnect(cleared) else cleared
  }

  /** `disconnectOnce(meta)`: the first report of a socket's end runs `onDisconnected`, later ones do nothing. */
  function DisconnectOnce(st: State, already: bool, m: Meta, now: int): (r: State)
    ensures already ==> r == st
    ensures !already ==> r == OnDisconnected(st, m, now)
  {
    if already then st else OnDisconnected(st, m, now)
  }

  /** The socket's `close` event with its code and reason text. */
  function OnClose(st: State, current: bool, already: bool, code: int, reason: string, now: int): (r: State)
    ensures current ==> !r.wsOpen
    ensures already ==> r == st.(wsOpen := st.wsOpen && !current)
  {
    DisconnectOnce(st.(wsOpen := st.wsOpen && !current), already, Meta(code, reason, ""), now)
  }

  /** The socket's `error` event with the error's text. */
  function OnError(st: State, current: bool, already: bool, message: string, now: int): (r: State)
    ensures current ==> !r.wsOpen
    ensures already ==> r == st.(wsOpen := st.wsOpen && !current)
  {
    DisconnectOnce(st.(wsOpen := st.wsOpen && !current), already, Meta(0, "", message), now)
  }

  /** `openSocket()`: nothing once stopped; otherwise a new, not yet open socket becomes `state.ws`. */
  function OpenSocket(st: State): (r: State)
    ensures st.stopped ==> r == st
    ensures !st.stopped ==> !r.wsOpen
    ensures r.(wsOpen := st.wsOpen) == st
  {
    if st.stopped then st else st.(wsOpen := false)
  }

  /** `runtime.start()` */
  function Start(st: State): (r: State)
    ensures r == st.(stopped := false, wsOpen := false)
  {
    OpenSocket(st.(stopped := false))
  }

  /** The reconnect timer fires: its slot is cleared and a socket is opened. */
  function ReconnectFires(st: State): (r: State)
    ensures !r.reconnectArmed
    ensures st.stopped ==> r == st.(reconnectArmed := false)
    ensures !st.stopped ==> r == st.(reconnectArmed := false, wsOpen := false)
  {
    OpenSocket(st.(reconnectArmed := false))
  }

  /** The first part of the `open` handler: running, the time stamps set, the error and the attempt count reset. */
  function Connected(st: State, current: bool, now: int): (r: State)
    ensures r.running && r.reconnectAttempt == 0 && r.lastError == None
    ensures r.wsOpen == (st.wsOpen || current) && r.sendQueue == st.sendQueue
    ensures r.lastInboundAt == r.lastOutboundAt == r.lastConnectedAt == r.lastStartAt == Some(now)
  {
    st.(wsOpen := st.wsOpen || current, running := true,
        lastStartAt := Some(now), lastConnectedAt := Some(now),
        lastInboundAt := Some(now), lastOutboundAt := Some(now),
        lastError := None, reconnectAttempt := 0)
  }

  /** The heartbeat, ping and idle intervals the `open` handler starts. */
  function ArmIntervals(st: State): (r: State)
    ensures r.heartbeatArmed && r.pingArmed && r.idleArmed
    ensures r.(heartbeatArmed := st.heartbeatArmed, idleArmed := st.idleArmed, pingArmed := st.pingArmed) == st
  {
    st.(heartbeatArmed := true, pingArmed := true, idleArmed := true)
  }

  /**
   * The socket's `open` event: counters reset, the queue is drained, a
   * `connection.state` notice is sent, and the three interval timers are armed.
   */
  function OnOpen(st: State, a: Descriptor, current: bool, flush: FlushOutcome,
                  notice: string, noticeSend: SendOutcome, now: int): (r: State)
    ensures r.running && r.reconnectAttempt == 0
    ensures r.heartbeatArmed && r.idleArmed && r.pingArmed
    ensures r.reconnectArmed == st.reconnectArmed && r.stopped == st.stopped
    ensures r.lastStartAt == Some(now) && r.lastConnectedAt == Some(now) && r.lastInboundAt == Some(now)
    ensures QueueWithinBound(st, a) ==> QueueWithinBound(r, a)
  {
    var drained := Flush(Connected(st, current, now), a, flush, now);
    var announced := Send(drained, a, notice, noticeSend, now);
    ArmIntervals(CleanupIntervals(announced))
  }

  /** `pong` and `message` events record inbound activity (the message itself goes to the reply pipeline). */
  function OnInbound(st: State, now: int): (r: State)
    ensures r.lastInboundAt == Some(now) && r.(lastInboundAt := st.lastInboundAt) == st
  {
    st.(lastInboundAt := Some(now))
  }

  /** The ping interval: ping an open socket; a failed ping closes it with code 1011. */
  function OnPingTick(st: State, o: SendOutcome, now: int): (r: State)
    ensures !st.wsOpen ==> r == st
    ensures r.wsOpen <==> st.wsOpen && o.Delivered?
    ensures r.lastOutboundAt == if st.wsOpen && o.Delivered? then Some(now) else st.lastOutboundAt
    ensures r.lastError == if st.wsOpen && o.Throws? then Some(o.error) else st.lastError
    ensures r.(wsOpen := st.wsOpen, lastOutboundAt := st.lastOutboundAt, lastError := st.lastError) == st
  {
    if !st.wsOpen then st
    else if o.Delivered? then st.(lastOutboundAt := Some(now))
    else st.(lastError := Some(o.error), wsOpen := false)
  }

  function OrZero(t: Option<int>): int
  {
    if t.Some? then t.value else 0
  }

  /** The most recent of the inbound, outbound and connected times, `0` when none is known. */
  function LastActivity(st: State): (t: int)
    ensures t >= OrZero(st.lastInboundAt) && t >= OrZero(st.lastOutboundAt) && t >= OrZero(st.lastConnectedAt)
    ensures t == OrZero(st.lastInboundAt) || t == OrZero(st.lastOutboundAt) || t == OrZero(st.lastConnectedAt)
  {
    Max(Max(OrZero(st.lastInboundAt), OrZero(st.lastOutboundAt)), OrZero(st.lastConnectedAt))
  }

  /** The idle check decides to recycle the connection. */
  predicate IdleExpired(st: State, a: Descriptor, now: int)
  {
    st.wsOpen && LastActivity(st) != 0 && now - LastActivity(st) >= a.idleTimeoutMs
  }

  /** `onIdleCheck()`: close an open socket (code 4000, "idle timeout") after `idleTimeoutMs` of silence. */
  function OnIdleCheck(st: State, a: Descriptor, now: int): (r: State)
    ensures r.wsOpen <==> st.wsOpen && !IdleExpired(st, a, now)
    ensures r.(wsOpen := st.wsOpen) == st
  {
    if IdleExpired(st, a, now) then st.(wsOpen := false) else st
  }

  /** `runtime.close()`: stopped, every timer disarmed, the socket closing, not running. */
  function Close(st: State, now: int): (r: State)
    ensures r.stopped && !r.running && !r.wsOpen && NoTimerArmed(r) && r.lastStopAt == Some(now)
    ensures r.sendQueue == st.sendQueue && r.droppedCount == st.droppedCount
    ensures r.reconnectAttempt == st.reconnectAttempt && r.counter == st.counter && r.lastError == st.lastError
    ensures r.(stopped := st.stopped, running := st.running, wsOpen := st.wsOpen, lastStopAt := st.lastStopAt,
               reconnectArmed := st.reconnectArmed, heartbeatArmed := st.heartbeatArmed,
               idleArmed := st.idleArmed, pingArmed := st.pingArmed) == st
  {
    CleanupIntervals(st.(stopped := true, reconnectArmed := false))
      .(wsOpen := false, running := false, lastStopAt := Some(now))
  }

  /** `runtime.nextSeq()`: the counter after the increment. */
  function NextSeq(st: State): (r: State)
    ensures r.counter == st.counter + 1 && r.(counter := st.counter) == st
  {
    st.(counter := st.counter + 1)
  }

  /**
   * What every handler keeps: the queue within `maxQueueSize`, and no reconnect
   * timer armed once `close()` has stopped the runtime.
   */
  predicate Invariant(st: State, a: Descriptor)
  {
    QueueWithinBound(st, a) && (st.stopped ==> !st.reconnectArmed)
  }

  lemma InitialInvariant(a: Descriptor)
    requires a.maxQueueSize >= 0
    ensures Invariant(Initial(), a)
  {
  }

  /** Scheduling again while a timer is armed changes nothing: at most one reconnect timer at a time. */
  lemma ScheduleReconnectIdempotent(st: State)
    ensures ScheduleReconnect(ScheduleReconnect(st)) == ScheduleReconnect(st)
  {
  }

  /** An unauthorized disconnect never schedules a reconnect. */
  lemma UnrecoverableIsFinal(st: State, m: Meta, now: int)
    requires !Classify(m).recoverable
    ensures OnDisconnected(st, m, now).reconnectArmed == st.reconnectArmed
    ensures OnDisconnected(st, m, now).reconnectAttempt == st.reconnectAttempt
    ensures OnDisconnected(st, m, now).lastError.value[..12] == "unauthorized"
  {
  }

  /** Both `error` and `close` firing for one socket run `onDisconnected` once. */
  lemma ErrorThenCloseDisconnectsOnce(st: State, message: string, code: int, reason: string, now: int, later: int)
    ensures var first := OnError(st, true, false, message, now);
      OnClose(first, true, true, code, reason, later) == first
  {
  }

  /** Calling `close()` twice (at the same moment) leaves the state of one call. */
  lemma CloseIdempotent(st: State, now: int)
    ensures Close(Close(st, now), now) == Close(st, now)
  {
  }

  /** After `close()`, neither `openSocket` nor `scheduleReconnect` changes anything. */
  lemma ClosedIgnoresReconnect(st: State, now: int)
    ensures OpenSocket(Close(st, now)) == Close(st, now)
    ensures ScheduleReconnect(Close(st, now)) == Close(st, now)
  {
  }

  /**
   * `close()` closes only the current socket, and the open handler has no
   * `stopped` guard: the `open` event of an earlier socket that is still
   * attached, arriving after `close()`, marks the stopped runtime running and
   * arms all three intervals again.
   */
  lemma OpenAfterCloseRuns(st: State, a: Descriptor, flush: FlushOutcome, notice: string,
                           noticeSend: SendOutcome, now: int, later: int)
    ensures var r := OnOpen(Close(st, now), a, false, flush, notice, noticeSend, later);
      r.stopped && r.running && r.heartbeatArmed && r.idleArmed && r.pingArmed && !r.reconnectArmed
  {
  }

  /**
   * The open event of the current socket with every queued frame sent and the
   * notice delivered leaves the queue empty and the last error cleared.
   */
  lemma OpenDrainsQueue(st: State, a: Descriptor, notice: string, now: int)
    ensures var r := OnOpen(st, a, true, AllSent, notice, Delivered, now);
      r.sendQueue == [] && r.lastError == None && r.wsOpen && r.droppedCount == st.droppedCount
  {
  }

  /**
   * With an idle timeout of 30000 ms and no activity for 31000 ms the idle
   * check closes the open socket itself, and the close it causes is reported
   * as a recoverable network error.
   */
  lemma IdleScenario(st: State, a: Descriptor, t0: int)
    requires a.idleTimeoutMs == 30000 && st.wsOpen && t0 > 0
    requires st.lastInboundAt == Some(t0) && st.lastOutboundAt == Some(t0) && st.lastConnectedAt == Some(t0)
    ensures OnIdleCheck(st, a, t0 + 31000) == st.(wsOpen := false)
    ensures OnIdleCheck(st, a, t0 + 29999) == st
    ensures Classify(Meta(4000, "idle timeout", "")) == Verdict(true, NetworkError)
  {
    SelfIdleCloseIsNetworkError();
  }
}
