/**
 * Interleavings of one runtime's callbacks. Every call of the runtime's
 * interface, every socket event and every timer callback is an event; a run
 * handles a sequence of them, each at the time `Date.now()` reads during it.
 * The lemmas state what holds however the environment orders them.
 */
module RuntimeTrace {
  import opened Common
  import opened Accounts
  import opened Classifier
  import opened OutboundQueue
  import opened RuntimeSpec

  /** A call of the runtime's interface, with the outcome of the send it makes. */
  datatype Call =
    | StartCall
    | SendCall(msg: string, outcome: SendOutcome)
    | CloseCall
    | NextSeqCall

  /**
   * An event of one of the runtime's sockets: whether it is the current
   * `state.ws`, and for `close` and `error` whether that socket's
   * `disconnectOnce` already ran.
   */
  datatype SocketEvent =
    | Opened(current: bool, flush: FlushOutcome, notice: string, noticeSend: SendOutcome)
    | Closed(current: bool, already: bool, code: int, reason: string)
    | Errored(current: bool, already: bool, message: string)
    | Inbound

  /** A timer callback. */
  datatype Tick =
    | ReconnectTimer
    | IdleTick
    | PingTick(ping: SendOutcome)
    | HeartbeatTick(presence: string, presenceSend: SendOutcome)

  datatype Event = FromCall(call: Call) | FromSocket(socket: SocketEvent) | FromTimer(tick: Tick)

  /** An event and the time `Date.now()` reads while it is handled. */
  datatype Timed = At(now: int, event: Event)

  function ApplyCall(st: State, a: Descriptor, now: int, c: Call): State
  {
    match c
    case StartCall => Start(st)
    case SendCall(msg, outcome) => Send(st, a, msg, outcome, now)
    case CloseCall => Close(st, now)
    case NextSeqCall => NextSeq(st)
  }

  function ApplySocket(st: State, a: Descriptor, now: int, e: SocketEvent): State
  {
    match e
    case Opened(current, flush, notice, noticeSend) => OnOpen(st, a, current, flush, notice, noticeSend, now)
    case Closed(current, already, code, reason) => OnClose(st, current, already, code, reason, now)
    case Errored(current, already, message) => OnError(st, current, already, message, now)
    case Inbound => OnInbound(st, now)
  }

  function ApplyTick(st: State, a: Descriptor, now: int, k: Tick): State
  {
    match k
    case ReconnectTimer => ReconnectFires(st)
    case IdleTick => OnIdleCheck(st, a, now)
    case PingTick(ping) => OnPingTick(st, ping, now)
    case HeartbeatTick(presence, presenceSend) => Send(st, a, presence, presenceSend, now)
  }

  function Apply(st: State, a: Descriptor, t: Timed): State
  {
    match t.event
    case FromCall(c) => ApplyCall(st, a, t.now, c)
    case FromSocket(e) => ApplySocket(st, a, t.now, e)
    case FromTimer(k) => ApplyTick(st, a, t.now, k)
  }

  /** The state after handling the events of `trace` in order. */
  function Run(st: State, a: Descriptor, trace: seq<Timed>): State
    decreases |trace|
  {
    if trace == [] then st else Run(Apply(st, a, trace[0]), a, trace[1..])
  }

  /** The event is a first report of a recoverable disconnect. */
  predicate RecoverableDisconnect(e: Event)
  {
    match e
    case FromSocket(Closed(_, already, code, reason)) => !already && Classify(Meta(code, reason, "")).recoverable
    case FromSocket(Errored(_, already, message)) => !already && Classify(Meta(0, "", message)).recoverable
    case _ => false
  }

  /** Calls keep the invariant; only `start()` clears `stopped`. */
  lemma CallKeeps(st: State, a: Descriptor, now: int, c: Call)
    ensures var r := ApplyCall(st, a, now, c);
      && (Invariant(st, a) ==> Invariant(r, a))
      && (st.stopped && !c.StartCall? ==> r.stopped)
  {
    match c {
      case StartCall =>
      case SendCall(msg, outcome) =>
      case CloseCall =>
      case NextSeqCall =>
    }
  }

  /** Calls never arm the reconnect timer or an interval, and leave the attempt count alone. */
  lemma CallTimers(st: State, a: Descriptor, now: int, c: Call)
    ensures var r := ApplyCall(st, a, now, c);
      && r.reconnectAttempt == st.reconnectAttempt
      && (r.reconnectArmed ==> st.reconnectArmed)
      && (NoIntervalArmed(st) && !st.running ==> NoIntervalArmed(r) && !r.running)
  {
    match c {
      case StartCall =>
      case SendCall(msg, outcome) =>
      case CloseCall =>
      case NextSeqCall =>
    }
  }

  /** Timer callbacks keep the invariant and `stopped`. */
  lemma TickKeeps(st: State, a: Descriptor, now: int, k: Tick)
    ensures var r := ApplyTick(st, a, now, k);
      && (Invariant(st, a) ==> Invariant(r, a))
      && r.stopped == st.stopped
  {
    match k {
      case ReconnectTimer =>
      case IdleTick =>
      case PingTick(ping) =>
      case HeartbeatTick(presence, presenceSend) =>
    }
  }

  /** Timer callbacks leave the attempt count alone; the reconnect timer's own callback disarms it. */
  lemma TickTimers(st: State, a: Descriptor, now: int, k: Tick)
    ensures var r := ApplyTick(st, a, now, k);
      && r.reconnectAttempt == st.reconnectAttempt
      && (r.reconnectArmed ==> st.reconnectArmed)
      && (NoIntervalArmed(st) && !st.running ==> NoIntervalArmed(r) && !r.running)
  {
    match k {
      case ReconnectTimer =>
      case IdleTick =>
      case PingTick(ping) =>
      case HeartbeatTick(presence, presenceSend) =>
    }
  }

  /** Socket events keep the invariant and `stopped`, and a stopped runtime's reconnect slot. */
  lemma SocketKeeps(st: State, a: Descriptor, now: int, e: SocketEvent)
    ensures var r := ApplySocket(st, a, now, e);
      && (Invariant(st, a) ==> Invariant(r, a))
      && r.stopped == st.stopped
      && (st.stopped ==> r.reconnectArmed == st.reconnectArmed)
  {
    match e {
      case Opened(current, flush, notice, noticeSend) =>
      case Closed(current, already, code, reason) =>
      case Errored(current, already, message) =>
      case Inbound =>
    }
  }

  /**
   * An open resets the attempt count; otherwise the count grows by one exactly
   * when the event arms the timer, which only a first recoverable disconnect does.
   */
  lemma SocketTimers(st: State, a: Descriptor, now: int, e: SocketEvent)
    ensures var r := ApplySocket(st, a, now, e);
      && r.reconnectAttempt ==
           (if e.Opened? then 0
            else st.reconnectAttempt + (if !st.reconnectArmed && r.reconnectArmed then 1 else 0))
      && (!st.reconnectArmed && r.reconnectArmed ==> !st.stopped && RecoverableDisconnect(FromSocket(e)))
      && (NoIntervalArmed(st) && !st.running && !e.Opened? ==> NoIntervalArmed(r) && !r.running)
  {
    match e {
      case Opened(current, flush, notice, noticeSend) =>
      case Closed(current, already, code, reason) =>
      case Errored(current, already, message) =>
      case Inbound =>
    }
  }

  /** Every handler keeps the invariant. */
  lemma {:induction false} StepKeepsInvariant(st: State, a: Descriptor, t: Timed)
    requires Invariant(st, a)
    ensures Invariant(Apply(st, a, t), a)
  {
    match t.event {
      case FromCall(c) => CallKeeps(st, a, t.now, c);
      case FromSocket(e) => SocketKeeps(st, a, t.now, e);
      case FromTimer(k) => TickKeeps(st, a, t.now, k);
    }
  }

  /**
   * However the callbacks interleave, the queue never exceeds `maxQueueSize`
   * and a stopped runtime has no reconnect timer armed.
   */
  lemma {:induction false} RunKeepsInvariant(st: State, a: Descriptor, trace: seq<Timed>)
    requires Invariant(st, a)
    ensures Invariant(Run(st, a, trace), a)
    decreases |trace|
  {
    if trace != [] {
      StepKeepsInvariant(st, a, trace[0]);
      RunKeepsInvariant(Apply(st, a, trace[0]), a, trace[1..]);
    }
  }

  /**
   * Attempt accounting: only an open resets the counter, and otherwise it grows
   * by exactly one when, and only when, a reconnect timer becomes armed.
   */
  lemma {:induction false} AttemptCountsArmedTimers(st: State, a: Descriptor, t: Timed)
    ensures var r := Apply(st, a, t);
      r.reconnectAttempt ==
        if t.event.FromSocket? && t.event.socket.Opened? then 0
        else st.reconnectAttempt + (if !st.reconnectArmed && r.reconnectArmed then 1 else 0)
  {
    match t.event {
      case FromCall(c) => CallTimers(st, a, t.now, c);
      case FromSocket(e) => SocketTimers(st, a, t.now, e);
      case FromTimer(k) => TickTimers(st, a, t.now, k);
    }
  }

  /** A reconnect timer becomes armed only on the first report of a recoverable disconnect while not stopped. */
  lemma {:induction false} ArmedOnlyByRecoverableDisconnect(st: State, a: Descriptor, t: Timed)
    requires !st.reconnectArmed && Apply(st, a, t).reconnectArmed
    ensures !st.stopped && RecoverableDisconnect(t.event)
  {
    match t.event {
      case FromCall(c) => CallTimers(st, a, t.now, c);
      case FromSocket(e) => SocketTimers(st, a, t.now, e);
      case FromTimer(k) => TickTimers(st, a, t.now, k);
    }
  }

  /** Every event except `start()` keeps a stopped runtime stopped and its reconnect timer disarmed. */
  lemma {:induction false} StoppedStepStaysStopped(st: State, a: Descriptor, t: Timed)
    requires st.stopped && !st.reconnectArmed && t.event != FromCall(StartCall)
    ensures var r := Apply(st, a, t);
      && r.stopped && !r.reconnectArmed
      && r.reconnectAttempt == (if t.event.FromSocket? && t.event.socket.Opened? then 0 else st.reconnectAttempt)
      && (NoIntervalArmed(st) && !st.running && !(t.event.FromSocket? && t.event.socket.Opened?) ==>
            NoIntervalArmed(r) && !r.running)
  {
    match t.event {
      case FromCall(c) => CallKeeps(st, a, t.now, c); CallTimers(st, a, t.now, c);
      case FromSocket(e) => SocketKeeps(st, a, t.now, e); SocketTimers(st, a, t.now, e);
      case FromTimer(k) => TickKeeps(st, a, t.now, k); TickTimers(st, a, t.now, k);
    }
  }

  /** No event in the trace is `start()` or a socket `open`. */
  predicate Quiet(trace: seq<Timed>)
  {
    forall i | 0 <= i < |trace| ::
      trace[i].event != FromCall(StartCall) && !(trace[i].event.FromSocket? && trace[i].event.socket.Opened?)
  }

  lemma {:induction false} StrayCallbacksKeepStopped(st: State, a: Descriptor, trace: seq<Timed>)
    requires st.stopped && !st.running && NoTimerArmed(st) && Quiet(trace)
    ensures var r := Run(st, a, trace);
      r.stopped && !r.running && NoTimerArmed(r) && r.reconnectAttempt == st.reconnectAttempt
    decreases |trace|
  {
    if trace != [] {
      StoppedStepStaysStopped(st, a, trace[0]);
      assert Quiet(trace[1..]) by {
        forall i | 0 <= i < |trace[1..]|
          ensures trace[1..][i].event != FromCall(StartCall)
          ensures !(trace[1..][i].event.FromSocket? && trace[1..][i].event.socket.Opened?)
        {
          assert trace[1..][i] == trace[i + 1];
        }
      }
      StrayCallbacksKeepStopped(Apply(st, a, trace[0]), a, trace[1..]);
    }
  }

  /**
   * After `close()`, stray callbacks (timer ticks, late close or error
   * reports, sends) never resurrect the runtime: it stays stopped and not
   * running, with no timer armed and the attempt counter where it was.
   */
  lemma {:induction false} StrayCallbacksAfterClose(st: State, a: Descriptor, now: int, trace: seq<Timed>)
    requires Quiet(trace)
    ensures var r := Run(Close(st, now), a, trace);
      r.stopped && !r.running && NoTimerArmed(r) && r.reconnectAttempt == st.reconnectAttempt
  {
    StrayCallbacksKeepStopped(Close(st, now), a, trace);
  }
}
