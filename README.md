# Connection lifecycle of the OpenClaw channel plugin, in Dafny

`index.js` is a channel plugin that keeps one WebSocket connection to the
cloud per configured account. This project models its logic and proves
properties of the model:

- **Resolving accounts.** The configuration comes in two shapes: one flat account, or a map of named accounts under one of several roots. Resolution applies numeric defaults and lower bounds to the tuning knobs.
- **Classifying disconnects.** A first-match decision table decides whether a lost connection is retried.
- **Reconnect delay.** The delay grows exponentially, is capped, and has proportional jitter added.
- **Offline outbound queue.** A bounded FIFO of serialised frames that evicts at the head, with a drain that stops at the first failed send.
- **Runtime state machine.** The runtime object `createRuntime` builds, with its socket, timer and lifecycle handlers.
- **Runtime registry.** The per-account map of runtimes.
- **Smaller helpers.** The media-URL collection from an inbound payload, and the URL-safe base64 rewrite of the connection signature.

Modules, one per file:

| file | module | contents |
|---|---|---|
| common.dfy | `Common` | `Option`, `Result`, `Max`/`MinReal`/`MaxReal` |
| js.dfy | `Js` | JavaScript values: property lookup, truthiness, `||`, `trim`, `Number(x)` with `Number.isFinite` |
| accounts.dfy | `Accounts` | `getAccounts`, `pickNumber`, `resolveAccount`, `listAccountIds`, the constants and defaults |
| backoff.dfy | `Backoff` | `jitterDelay`, `computeBackoff` |
| classifier.dfy | `Classifier` | `classifyDisconnect` |
| queue.dfy | `OutboundQueue` | `pushQueue` on a sequence, the drain loop of `flushQueue` |
| runtime_spec.dfy | `RuntimeSpec` | the runtime `state` as a value, with one step function per handler |
| trace.dfy | `RuntimeTrace` | arbitrary interleavings of calls, socket events and timer ticks |
| connection.dfy | `Connection` | the runtime as a class whose methods update its fields and are proved to match `RuntimeSpec` |
| registry.dfy | `Registry` | the `runtimes` map: `ensureRuntime`, `startAccount`, `withAccountRuntime`, and the removal in `stopAccount` |
| media.dfy | `Media` | `collectMediaUrls` and its order-preserving dedup |
| signing.dfy | `Signing` | the base64 to base64url rewrite of `hmacBase64Url` |

**How the runtime is modelled.**
- The mutable `state` record of `createRuntime` is the class `Connection.Runtime`.
- Its handlers are methods. The environment calls them, passing in what the environment would decide:
  - the time `Date.now()` reads during the handler;
  - whether a send or ping throws, and with what text;
  - the random draw of the jitter.
- Each timer is an armed flag. The timer's callback is a method the environment may call while the flag is set.
- A socket is an object with an `open` flag (`readyState === OPEN`) and the `disconnected` flag that its `disconnectOnce` closes over.
- Every handler is proved to leave `Model()` equal to the step function of `RuntimeSpec` applied to the old model. The handlers that write several fields first update them through small field-level helpers (`Settle`, `MarkStopped`, `ResetOnConnect`, `Shutdown`). Each of these states its new fields and that every other field is unchanged.
- `Runtime.Valid()` is the invariant of `RuntimeSpec`: the queue is within `maxQueueSize`, and no reconnect timer is armed once stopped. The constructor establishes it, and every handler keeps it.
- `Registry.Runtimes.Valid()` says that every runtime sits under the id of the account it was created for, so two ids never share one runtime. It also says that no two runtimes share a socket, which holds because every socket is created fresh by `openSocket`. Every registry method requires and keeps it. Each method changes at most the runtime under its own id.
- The properties across calls are lemmas about those step functions, and in `RuntimeTrace` about any sequence of events.

**Behaviour worth knowing.**

Five behaviours of the code that a reader of its comments and names may not expect; the model follows the code:

- **The `idle_timeout` verdict never occurs.**
  - Any text containing "idle timeout" also contains "timeout", and the network row of the classifier matches that first (index.js:177-183).
  - So the idle check's own `close(4000, "idle timeout")` is reported as `network_error` (`Classifier.IdleTimeoutUnreachable`, `Classifier.SelfIdleCloseIsNetworkError`).
- **A failed drain re-pushes the failed frame at the tail.**
  - The frame goes back through `pushQueue`, so it moves to the back of the queue instead of staying at the head. The frames behind it move ahead of it (`OutboundQueue.FlushConserves`).
  - Only a queue that was already over its bound can lose a frame this way (`OutboundQueue.FlushCanDropOnlyOverBound`).
- **Any `start()` before the socket opens leaves a second socket behind.**
  - `start()` has no guard. A second `start()` while the first socket is still connecting opens another one (`Connection.StartWhileConnecting`). `withAccountRuntime` makes such a call, because it sees a runtime that is neither running nor stopped.
  - The same happens during a reconnect backoff, when the armed timer fires after such a `start()` (`Connection.StartDuringBackoff`).
  - The earlier socket is not closed and keeps its handlers. `close()` closes only the current socket, and the open handler has no `stopped` guard.
  - So an `open` of the leaked socket after `close()` marks the stopped runtime running and arms the heartbeat, ping and idle intervals again (`RuntimeSpec.OpenAfterCloseRuns`, `Connection.LeakedSocketOpensAfterClose`).
- **A jittered delay can exceed `reconnectMaxMs`.**
  - `computeBackoff` caps the delay before jitter is applied (index.js:151-153). With a jitter above 0, the result can be up to `base·(1 + jitter)`.
  - With the delay at a 30000 ms cap, a jitter of 0.25 and the draw 0.9, the wait is 36000 ms (`Backoff.JitterCanExceedCap`). The cap is proved only without jitter (`Backoff.ComputeBackoff`).
- **The handlers keep the account they were created with.**
  - `ensureRuntime` overwrites `runtime.account` for an existing runtime. The runtime's handlers keep using the account captured when it was created.
  - The class keeps the two apart as `account` and the constant `captured` (`Registry.ReconfiguredRuntimeKeepsCapturedAccount`).

## Model

| member | source | states |
|---|---|---|
| Js.Get | index.js:107 | a property of an object is its field; a missing field or a non-object reads as undefined |
| Js.Or | index.js:116 | `a \|\| b` is truthy exactly when one of the operands is |
| Js.Truthy | index.js:217 | a value is truthy exactly when it is none of `undefined`, `null`, `false`, `0` and `""` |
| Js.Trim | index.js:218 | never longer; no white space at either end; blank exactly when every character is white space |
| Js.ToNumber | index.js:100-101 | `Number(v)`, finite or `None`: a number converts to itself; `undefined` and objects are rejected |
| Js.NumberOfDecimalString | index.js:100 | a natural number written as a decimal string converts back to the same number |
| Accounts.GetAccounts | index.js:60-97 | the accounts map is the empty object or a truthy value; a falsy configuration gives the empty object |
| Accounts.FlatAccount | index.js:62-82 | the flat shape copies exactly the fifteen listed fields, each unchanged |
| Accounts.PickNumber | index.js:99-103 | the converted number when it is finite, otherwise the fallback |
| Accounts.Resolve | index.js:109-129 | id kept; configured iff cloudUrl, deviceId and deviceSecret are all truthy; enabled unless explicitly false; channelId always truthy; maxQueueSize ≥ 1, idleTimeoutMs ≥ 30000, connectProbeTimeoutMs ≥ 500, wsPingMs ≥ 10000 |
| Accounts.ResolveAccount | index.js:105-108 | `None` exactly when the account under the id is missing or falsy; otherwise the resolved descriptor of that account |
| Accounts.ResolvableIffListed | index.js:132-135 | an id resolves exactly when `listAccountIds` lists it and its account is truthy |
| Accounts.ResolveIsIdempotent | index.js:109-129 | resolving the written-back form of a resolved account gives the same descriptor: resolution is a normalisation |
| Accounts.EmptyAccountGetsDefaults | index.js:109-129 | an account that sets nothing gets every documented default and is not configured |
| Accounts.QueueSizeNormalisation | index.js:125 | maxQueueSize is 500 for a non-finite input, otherwise the input floored and raised to at least 1 |
| Accounts.InitialDelayFallsBackToReconnectMs | index.js:110-121 | without its own value, reconnectInitialMs is a non-zero reconnectMs, or 2000 when that is zero |
| Accounts.FlatShapeWins | index.js:62-82 | top-level credentials yield exactly one account, `default`, holding the top-level fields, whatever else the configuration holds |
| Accounts.PluginSectionBeforeChannelSection | index.js:84-95 | a `channels` section under the plugin id is used before one under the channel id |
| Accounts.FalsyConfigHasNoAccounts | index.js:61 | a falsy configuration has the empty accounts map and lists no id |
| Accounts.AccountsRootBeforeChannels | index.js:83 | without top-level credentials, a truthy `accounts` root is returned as it is, before any `channels` section |
| Accounts.ChannelSectionWithoutPluginSection | index.js:90-95 | the section under the channel id is used when the plugin-id section is missing or falsy |
| Accounts.SectionIsDefaultAccount | index.js:84-95 | a section without a truthy `accounts` map is the single account `default`; otherwise its `accounts` map is used |
| Accounts.NoSourceNoAccounts | index.js:60-97 | with no credentials, no `accounts` root and neither channel section, the accounts map is empty |
| Accounts.ListAccountIds | index.js:132-135 | an id that is not listed reads as undefined in the accounts map; a falsy configuration lists nothing; the flat shape lists exactly `default` |
| Backoff.SafeAttempt | index.js:150 | the attempt is at least 1, and kept when it already is |
| Backoff.Capped | index.js:151-152 | the delay before jitter never exceeds reconnectMaxMs |
| Backoff.JitterDelay | index.js:141-147 | no jitter returns the base unchanged; otherwise a whole number in [floor(max(0, base − base·j)), base + base·j], strictly below the top for a positive base |
| Backoff.ComputeBackoff | index.js:149-154 | without jitter, the capped delay, at most reconnectMaxMs; with jitter and a non-negative capped delay, never negative |
| Backoff.AttemptIsClamped | index.js:150 | every attempt below 1 gets the delay of attempt 1 |
| Backoff.BackoffNonDecreasing | index.js:149-154 | without jitter, with a factor ≥ 1 and a non-negative initial delay, a later attempt never waits less |
| Backoff.CappedMonotone | index.js:151-152 | the capped delay is monotone in the attempt for a factor ≥ 1 |
| Backoff.DefaultSchedule | index.js:151-152 | with the default knobs the delays start 2000, 3600, 6480 ms, and the sixth attempt reaches the 30000 ms cap |
| Backoff.JitterCanExceedCap | index.js:141-154 | with the delay at a 30000 ms cap and jitter 0.25, the draw 0.9 gives 36000 ms, above reconnectMaxMs |
| Classifier.Classify | index.js:156-186 | recoverable exactly when the reason is not unauthorized; an auth close code gives unauthorized, whatever the text |
| Classifier.UnauthorizedExactly | index.js:161-175 | the verdict is unauthorized iff the code is an auth code or the text holds an auth marker |
| Classifier.AuthTextBeatsNetwork | index.js:165-177 | an auth marker in the text wins over network markers and code 1006 |
| Classifier.NetworkErrorExactly | index.js:161-179 | network_error iff there is no auth signal and there is a network marker or code 1006 |
| Classifier.IdleTimeoutUnreachable | index.js:177-183 | no input is classified idle_timeout |
| Classifier.SocketClosedOtherwise | index.js:161-185 | socket_closed iff none of the auth codes, code 1006, an auth marker or a network marker applies |
| Classifier.SelfIdleCloseIsNetworkError | index.js:608 | the idle check's own close, code 4000 with reason "idle timeout", is a recoverable network_error |
| Classifier.CodeScenarios | index.js:161-179 | code 4401 with no text is unauthorized; code 1006 with no text is network_error |
| Classifier.DisconnectText | index.js:157-159 | the text searched is the lower-cased reason and message, joined by a space |
| Classifier.Lower | index.js:157-159 | same length; no capital A to Z remains; every other character is unchanged, and each capital becomes its lower-case letter |
| OutboundQueue.Push | index.js:547-551 | a queue within its bound stays within it; an overflow keeps the length, otherwise it grows by one; the pushed frame is last |
| OutboundQueue.Dropped | index.js:549-551 | droppedCount grows by at most one per push |
| OutboundQueue.PushIsFifo | index.js:547-551 | an overflowing push drops exactly the oldest entry; otherwise the frame is appended and nothing else changes |
| OutboundQueue.PushAllKeepsNewest | index.js:547-551 | any number of pushes onto a queue within its bound keep exactly the newest maxQueueSize frames, and count every other frame as dropped |
| OutboundQueue.TwoSlotScenario | index.js:547-551 | with room for two, three offline sends keep the last two and count one drop |
| OutboundQueue.FlushSent | index.js:562-566 | the delivered frames are a prefix of the queue: all of it, or exactly the frames before the failing send |
| OutboundQueue.FlushConserves | index.js:560-573 | a drain loses and duplicates nothing: delivered plus still-queued frames are a permutation of the old queue, with the failed frame last and no drop counted |
| OutboundQueue.FlushKeepsBound | index.js:560-573 | a drain keeps a queue within its bound, and counts no drop |
| OutboundQueue.FlushCanDropOnlyOverBound | index.js:569 | a drain's re-push drops a frame only when the queue was over its bound |
| OutboundQueue.FlushSplit | index.js:562-571 | a drain described by where it stopped agrees with the delivered frames, the remaining queue and the drop count |
| OutboundQueue.Drain | index.js:562-572 | the loop delivers exactly the frames before the failing send, and stops early exactly when a send of a queued frame throws |
| RuntimeSpec.Initial | index.js:512-530 | not running, not stopped, no socket, empty queue, no timer armed, attempt and sequence counters zero |
| RuntimeSpec.CleanupIntervals | index.js:532-545 | the three interval timers are disarmed and nothing else changes |
| RuntimeSpec.PushQueue | index.js:547-558 | the queue bound is kept; the queue and droppedCount change as one push says, and nothing else changes |
| RuntimeSpec.Flush | index.js:560-573 | a no-op unless the socket is open; keeps the queue bound without counting a drop; the queue becomes the remainder; the failing send's error is recorded; only queue fields change |
| RuntimeSpec.FlushFailsAt | index.js:563-570 | a drain that fails at frame k is the `pushQueue` of frame k onto the queue behind it, with the error recorded |
| RuntimeSpec.Send | index.js:712-724 | the queue bound is kept; a delivered send to an open socket only stamps lastOutboundAt; otherwise the frame is pushed; a throwing send records its error; only queue fields change |
| RuntimeSpec.ScheduleReconnect | index.js:575-587 | nothing when stopped or already armed; otherwise exactly one timer armed and the attempt count up by exactly one, nothing else changed |
| RuntimeSpec.ReconnectDelay | index.js:579 | without jitter the armed delay is at most reconnectMaxMs |
| RuntimeSpec.DisconnectError | index.js:593 | lastError starts with the verdict's reason name, and is exactly that name when the close reason is empty |
| RuntimeSpec.OnDisconnected | index.js:589-600 | not running, intervals disarmed, stop time and error recorded; the timer is armed iff it was, or the runtime is not stopped and the verdict recoverable; the attempt count grows by one exactly when a new timer is armed; queue, stopped and counter kept |
| RuntimeSpec.DisconnectOnce | index.js:622-627 | the first report runs `onDisconnected`; a later one changes nothing |
| RuntimeSpec.OnClose | index.js:676-680 | the current socket is no longer open; a repeated report changes nothing else |
| RuntimeSpec.OnError | index.js:682-685 | the current socket is no longer open; a repeated report changes nothing else |
| RuntimeSpec.OpenSocket | index.js:614-620 | nothing once stopped; otherwise the current socket is a new one, not yet open; only that changes |
| RuntimeSpec.Start | index.js:691-694 | no longer stopped, with a new socket that is not yet open |
| RuntimeSpec.ReconnectFires | index.js:583-586 | the reconnect timer is disarmed; once stopped nothing else changes, otherwise a new, not yet open socket and nothing else changes |
| RuntimeSpec.Connected | index.js:629-636 | running, attempt count zero, lastError cleared, the four time stamps set to now, queue unchanged |
| RuntimeSpec.ArmIntervals | index.js:644-664 | the heartbeat, ping and idle intervals are armed and nothing else changes |
| RuntimeSpec.OnOpen | index.js:629-665 | running, attempt count zero, all three intervals armed, the reconnect timer and stopped kept, the time stamps set, and the queue bound kept |
| RuntimeSpec.OnInbound | index.js:667-674 | lastInboundAt becomes now and nothing else changes |
| RuntimeSpec.OnPingTick | index.js:650-663 | nothing without an open socket; the socket stays open exactly when the ping goes out, which stamps lastOutboundAt; a failing ping records its error; nothing else changes |
| RuntimeSpec.LastActivity | index.js:604 | the latest of the inbound, outbound and connected time stamps, missing ones read as 0 |
| RuntimeSpec.OnIdleCheck | index.js:602-612 | the socket stays open unless idleTimeoutMs have passed since the last known activity; nothing else changes |
| RuntimeSpec.Close | index.js:695-711 | stopped, not running, socket closed, no timer armed, stop time recorded; every other field kept, including the queue, drop count, attempts, counter, error and the start, connect, inbound and outbound times |
| RuntimeSpec.NextSeq | index.js:725-728 | the counter grows by exactly one and nothing else changes |
| RuntimeSpec.InitialInvariant | index.js:512-530 | the initial state satisfies the invariant (queue within bound; no reconnect timer once stopped) |
| RuntimeSpec.ScheduleReconnectIdempotent | index.js:576-577 | scheduling twice is scheduling once: at most one reconnect timer |
| RuntimeSpec.UnrecoverableIsFinal | index.js:595-599 | an unauthorized disconnect arms no timer, leaves the attempt count, and records an "unauthorized" error |
| RuntimeSpec.ErrorThenCloseDisconnectsOnce | index.js:622-685 | a close after an error on the same socket changes nothing more |
| RuntimeSpec.CloseIdempotent | index.js:695-711 | calling `close()` twice leaves the state of one call |
| RuntimeSpec.ClosedIgnoresReconnect | index.js:575-615 | after `close()`, `openSocket` and `scheduleReconnect` change nothing |
| RuntimeSpec.OpenDrainsQueue | index.js:629-641 | an open of the current socket with every send going out leaves the queue empty, the error cleared, the socket open and no drop counted |
| RuntimeSpec.OpenAfterCloseRuns | index.js:629-711 | the open event of an earlier, still attached socket after `close()` leaves the runtime stopped but running, with all three intervals armed |
| RuntimeSpec.IdleScenario | index.js:602-612 | with a 30000 ms idle timeout, 31000 ms of silence closes the socket and 29999 ms does not; that close counts as a network error |
| RuntimeTrace.CallKeeps | index.js:691-728 | interface calls keep the invariant, and only `start()` clears stopped |
| RuntimeTrace.CallTimers | index.js:691-728 | interface calls arm no timer and leave the attempt count |
| RuntimeTrace.TickKeeps | index.js:583-664 | timer callbacks keep the invariant and stopped |
| RuntimeTrace.TickTimers | index.js:583-664 | timer callbacks arm no timer and leave the attempt count |
| RuntimeTrace.SocketKeeps | index.js:629-685 | socket events keep the invariant, stopped, and a stopped runtime's reconnect slot |
| RuntimeTrace.SocketTimers | index.js:629-685 | an open resets the attempt count; otherwise it grows by one exactly when a timer becomes armed, and only a first recoverable disconnect while not stopped arms one |
| RuntimeTrace.StepKeepsInvariant | index.js:547-728 | every handler keeps the queue bound and keeps a stopped runtime without a reconnect timer |
| RuntimeTrace.RunKeepsInvariant | index.js:547-728 | however calls, socket events and timer ticks interleave, the invariant holds after all of them |
| RuntimeTrace.AttemptCountsArmedTimers | index.js:578-636 | only an open resets the attempt count; otherwise it grows by exactly one when, and only when, a reconnect timer becomes armed |
| RuntimeTrace.ArmedOnlyByRecoverableDisconnect | index.js:595-596 | a reconnect timer becomes armed only on the first report of a recoverable disconnect while not stopped |
| RuntimeTrace.StoppedStepStaysStopped | index.js:575-700 | every event except `start()` keeps a stopped runtime stopped, without a reconnect timer |
| RuntimeTrace.StrayCallbacksKeepStopped | index.js:575-615 | a stopped, idle runtime stays stopped, not running and without timers through any events other than `start()` and opens |
| RuntimeTrace.StrayCallbacksAfterClose | index.js:695-711 | after `close()`, callbacks other than `start()` and socket opens never resurrect the runtime: stopped, not running, no timer armed, attempt count unchanged |
| Connection.Runtime.constructor | index.js:510-530 | the runtime starts in the initial state, with both accounts the given one |
| Connection.Runtime.CleanupIntervals | index.js:532-545 | the fields change as `RuntimeSpec.CleanupIntervals` says |
| Connection.Runtime.PushQueue | index.js:547-558 | the fields change as `RuntimeSpec.PushQueue` says |
| Connection.Runtime.FlushQueue | index.js:560-573 | the fields change as `RuntimeSpec.Flush` says; it returns the frames delivered, none when the socket is not open |
| Connection.Runtime.Settle | index.js:563-571 | after the loop the queue is empty, or the failed frame is re-pushed behind the rest with its drop and error; lastOutboundAt is stamped when something went out; no other field changes |
| Connection.Runtime.Send | index.js:712-724 | the fields change as `RuntimeSpec.Send` says |
| Connection.Runtime.ScheduleReconnect | index.js:575-587 | the fields change as `RuntimeSpec.ScheduleReconnect` says; it returns the delay of the armed timer, none when nothing was armed |
| Connection.Runtime.OnDisconnected | index.js:589-600 | the fields change as `RuntimeSpec.OnDisconnected` says; a delay is returned exactly when a new timer is armed |
| Connection.Runtime.MarkStopped | index.js:590-593 | not running, with the stop time and the error set; no other field changes |
| Connection.Runtime.DisconnectOnce | index.js:622-627 | the fields change as `RuntimeSpec.DisconnectOnce` says for the socket's flag, which is set afterwards |
| Connection.Runtime.OnClose | index.js:676-680 | the fields change as `RuntimeSpec.OnClose` says; the socket is closed and disconnected |
| Connection.Runtime.OnError | index.js:682-685 | the fields change as `RuntimeSpec.OnError` says; the socket is closed and disconnected |
| Connection.Runtime.OnOpen | index.js:629-665 | the fields change as `RuntimeSpec.OnOpen` says; the socket is open |
| Connection.Runtime.MarkConnected | index.js:629-636 | the fields change as `RuntimeSpec.Connected` says |
| Connection.Runtime.ResetOnConnect | index.js:630-636 | running, error cleared, attempt count zero, the four time stamps set to now; no other field changes |
| Connection.Runtime.StartIntervals | index.js:644-664 | the fields change as `RuntimeSpec.ArmIntervals` says |
| Connection.Runtime.OnInbound | index.js:667-674 | the fields change as `RuntimeSpec.OnInbound` says |
| Connection.Runtime.OnPingTick | index.js:650-663 | the fields change as `RuntimeSpec.OnPingTick` says |
| Connection.Runtime.OnIdleCheck | index.js:602-612 | the fields change as `RuntimeSpec.OnIdleCheck` says |
| Connection.Runtime.OpenSocket | index.js:614-627 | the fields change as `RuntimeSpec.OpenSocket` says; a fresh, undisconnected socket becomes current unless stopped |
| Connection.Runtime.Start | index.js:691-694 | the fields change as `RuntimeSpec.Start` says; a fresh socket becomes current |
| Connection.Runtime.ReconnectFires | index.js:583-586 | the fields change as `RuntimeSpec.ReconnectFires` says; a fresh socket unless stopped |
| Connection.Runtime.Close | index.js:695-711 | the fields change as `RuntimeSpec.Close` says |
| Connection.Runtime.Shutdown | index.js:702-710 | the socket is closed, not running, stop time set; nothing else changes |
| Connection.Runtime.NextSeq | index.js:725-728 | returns the incremented counter; the fields change as `RuntimeSpec.NextSeq` says |
| Connection.Runtime.Reconfigure | index.js:750 | the `account` property is replaced; the runtime's state and socket are unchanged |
| Connection.StartDuringBackoff | index.js:575-694 | a `start()` while a reconnect timer is armed and the timer firing afterwards give two distinct sockets, neither of them disconnected |
| Connection.StartWhileConnecting | index.js:614-694 | a second `start()` before the first socket opens gives two distinct sockets, neither of them disconnected |
| Connection.LeakedSocketOpensAfterClose | index.js:629-711 | after a double `start()` and `close()`, the first socket's open leaves the runtime stopped, running, with all three intervals armed |
| Connection.ErrorThenClose | index.js:622-685 | an `error` then a `close` on one socket leave the runtime where the `error` alone left it; the socket is closed and disconnected |
| Registry.Runtimes.constructor | index.js:747-756 | the registry starts empty |
| Registry.Runtimes.EnsureRuntime | index.js:747-756 | the runtime under the account's id, its state kept and only its account replaced, or a new runtime in the initial state registered there; every other id keeps its runtime, in the same state; one runtime per id |
| Registry.Runtimes.Register | index.js:753-755 | a new runtime in the initial state, holding the account and without a socket, registered under an id that had none; nothing else in the map changes |
| Registry.Runtimes.StartAccount | index.js:758-773 | nothing for an unconfigured account; otherwise its runtime, started unless running; every other id keeps its runtime, in the same state |
| Registry.Runtimes.WithAccountRuntime | index.js:843-852 | "unknown account" or "account not configured" errors with the map and every runtime's state unchanged; otherwise the resolved account and its registered runtime: an existing one started when neither running nor stopped, or a new one holding the resolved account, in the state `start()` gives the initial state; every other id keeps its runtime, in the same state |
| Registry.Runtimes.Resume | index.js:847-850 | `ensureRuntime`, then `start()` when the runtime is neither running nor stopped; every other id keeps its runtime, in the same state |
| Registry.Runtimes.StopAccount | index.js:1015-1020 | the runtime under the id, if any, is closed as `close()` says, and the id is removed from the map; every remaining id keeps its runtime, in the same state |
| Registry.ReconfiguredRuntimeKeepsCapturedAccount | index.js:747-756 | a second `ensureRuntime` with a changed account updates `runtime.account`, while the handlers keep the first account |
| Media.Dedup | index.js:219 | no duplicates, the same elements, never longer |
| Media.DedupPrefix | index.js:219 | the dedup of a prefix is a prefix of the dedup: first appearances keep their order |
| Media.DedupOfDistinct | index.js:219 | a sequence without repeats is left unchanged |
| Media.DedupIdempotent | index.js:219 | deduplicating twice is deduplicating once |
| Media.TruthyUrls | index.js:213-217 | exactly the truthy attachment URLs, each from some attachment, never more than the attachments |
| Media.NonBlankStrings | index.js:218 | exactly the strings that are not blank once trimmed, never more than the input |
| Media.CollectMediaUrls | index.js:211-220 | no duplicates, and a URL is collected iff it is a non-blank string among `mediaUrls` and the attachments' URLs; order in `Media.CollectMediaUrlsOrder` |
| Media.AttachmentUrl | index.js:215 | the first truthy of `getUrl`, `url` and `mediaUrl`, or `null`; truthy exactly when one of the three is |
| Media.Candidates | index.js:212-218 | `mediaUrls` first, unchanged, then only truthy attachment URLs |
| Media.TruthyUrlsAppend | index.js:214-217 | mapping and filtering attachments distributes over concatenation, so their order is kept |
| Media.NonBlankStringsAppend | index.js:218 | the string filter distributes over concatenation, so the order is kept |
| Media.CollectMediaUrlsOrder | index.js:211-220 | the result is the deduplicated filtered `mediaUrls` followed by the filtered attachment URLs; the deduplicated `mediaUrls` are a prefix of it |
| Media.AttachmentUrlsCollected | index.js:213-219 | every non-blank string URL of an attachment is collected, whichever of its three fields holds it |
| Signing.StripPadding | index.js:35 | a prefix of the input with no trailing `=`, having removed only `=` characters |
| Signing.Base64Url | index.js:35 | the signature contains no `+` or `/` and does not end in `=` |
| Signing.Base64UrlRoundTrip | index.js:34-35 | the rewrite loses nothing: the standard padded base64 text is recovered from the URL-safe signature |

## Left out

- WebSocket transport: building the URL (`ensureUrl`, `normalizeCloudWsUrl`), `ws.send`, `ws.ping` and `ws.close` are foreign I/O. A socket is an object with an open flag, and the outcome of each send or ping is a parameter.
- `ws.close()` is modelled as the socket ceasing to be open. Its `close` event arrives later as a separate `OnClose` call. A `close()` that throws is ignored by the source, so it has no outcome parameter.
- The HMAC and SHA-256 digests, and `randomUUID`, are foreign calls. Only the character rewrite of the signature is modelled.
- The connect probe `runConnectProbe`, media probing and download, `handleIncoming` and the reply pipeline are network I/O and asynchronous collaborators. For a `message` event only the inbound time stamp is modelled.
- `sendEvent` and `emitConnectionState` are modelled only through what they send. The frame they serialise, with `JSON.stringify`, `Date.now()` and a random message id, is the string parameter `msg`/`notice`.
- The heartbeat interval's presence event is such a send (`HeartbeatTick` in `RuntimeTrace`).
- Logging, including the throttled drop warning, has no state beyond `droppedCount`.
- `snapshot()` only reads fields. `Model()` covers every field it reports.
- The plugin registration, schema, UI hints, gateway supervision and status ticker are plumbing outside the connection logic.
- `Math.random()` is the parameter `draw` in [0, 1).
- `Math.pow` and `Math.floor` are taken over unbounded reals and integers: double-precision rounding, overflow to infinity and NaN propagation inside the backoff arithmetic are not modelled.
- Each handler reads one time `now`. Where the source calls `Date.now()` several times in one handler, the model assumes the calls return the same value.
- Timers are armed flags. Real elapsed time, `setInterval` periods and delivery order are left to the environment, which may call any callback at any time (`RuntimeTrace`).
- Js.ToNumber: covers decimal literals with an optional sign and fraction. Exponents, hexadecimal, binary and octal literals, "Infinity", and the conversion of a one-element array through its string are not modelled; such inputs are treated as not finite.
- Js.Get: property lookup on strings and arrays (for example `length`) and prototype properties read as undefined. Configuration values are plain JSON objects.
- Classifier.Lower: `toLowerCase()` is modelled on the letters A to Z only. JavaScript also lower-cases other letters, and some of them become ASCII (U+212A KELVIN SIGN becomes `k`). So a text such as "networ\u212A" is `network_error` in the source, but `socket_closed` in the model.
- Classifier.Classify: the reason and message arrive as strings. The `String(...)` and `Number(...)` conversions of other types in `classifyDisconnect` are not modelled.
- Accounts.ListAccountIds: returns a set. The source's `Object.keys` array keeps insertion order, which the model does not capture.
- Accounts.Resolve: an invalid `cloudUrl` is passed through as given. The exception `new URL` raises later in `ensureUrl` is not modelled.
- Connection.Runtime.FlushQueue: the loop runs on a copy of the queue, and the fields are written back once after it. The source shifts `state.sendQueue` in place, which is observationally the same because no other handler runs during the loop.
