/**
 * The offline outbound queue of one runtime: a FIFO of serialised frames
 * bounded by `maxQueueSize`, evicting from the head, and the drain that
 * sends from the head until the first failure.
 */
module OutboundQueue {

  /** The push overflows the bound, so the oldest entry is dropped. */
  predicate Overflows(q: seq<string>, cap: int)
  {
    |q| + 1 > cap
  }

  /** `pushQueue(msg)` on the queue: append, then shift one entry off the head when over `cap`. */
  function Push(q: seq<string>, msg: string, cap: int): (r: seq<string>)
    ensures |q| <= cap ==> |r| <= cap
    ensures Overflows(q, cap) ==> |r| == |q|
    ensures !Overflows(q, cap) ==> |r| == |q| + 1
    ensures cap >= 1 ==> r != [] && r[|r| - 1] == msg
  {
    var grown := q + [msg];
    if |grown| > cap then grown[1..] else grown
  }

  /** How much `droppedCount` grows by in one push: 1 on overflow, 0 otherwise. */
  function Dropped(q: seq<string>, cap: int): (k: nat)
    ensures k <= 1
  {
    if Overflows(q, cap) then 1 else 0
  }

  /** An overflowing push removes exactly the oldest entry; a push keeps every other entry in order. */
  lemma PushIsFifo(q: seq<string>, msg: string, cap: int)
    ensures Overflows(q, cap) && q != [] ==> Push(q, msg, cap) == q[1..] + [msg]
    ensures !Overflows(q, cap) ==> Push(q, msg, cap) == q + [msg]
  {
  }

  /** The last `n` entries of `s` (all of them when it is shorter). */
  function Newest(s: seq<string>, n: nat): (r: seq<string>)
    ensures |r| == if |s| < n then |s| else n
  {
    if |s| <= n then s else s[|s| - n..]
  }

  /** `pushQueue` applied to each message in turn. */
  function PushAll(q: seq<string>, ms: seq<string>, cap: int): seq<string>
    decreases |ms|
  {
    if ms == [] then q else PushAll(Push(q, ms[0], cap), ms[1..], cap)
  }

  /** The entries those pushes drop. */
  function DroppedAll(q: seq<string>, ms: seq<string>, cap: int): nat
    decreases |ms|
  {
    if ms == [] then 0 else Dropped(q, cap) + DroppedAll(Push(q, ms[0], cap), ms[1..], cap)
  }

  /**
   * Pushing `ms` onto a queue within its bound keeps exactly the newest `cap`
   * entries of the old queue followed by `ms`, and counts every other entry
   * as dropped.
   */
  lemma {:induction false} PushAllKeepsNewest(q: seq<string>, ms: seq<string>, cap: nat)
    requires cap >= 1 && |q| <= cap
    ensures PushAll(q, ms, cap) == Newest(q + ms, cap)
    ensures DroppedAll(q, ms, cap) == |q + ms| - |Newest(q + ms, cap)|
    decreases |ms|
  {
    if ms != [] {
      var q' := Push(q, ms[0], cap);
      PushAllKeepsNewest(q', ms[1..], cap);
      var all := q + ms;
      assert q + [ms[0]] + ms[1..] == all;
      if Overflows(q, cap) {
        assert q' + ms[1..] == all[1..];
        NewestOfTail(all, cap);
      } else {
        assert q' + ms[1..] == all;
      }
    }
  }

  /** Dropping the head of a sequence longer than `n` keeps its last `n` entries. */
  lemma NewestOfTail(s: seq<string>, n: nat)
    requires |s| > n
    ensures Newest(s[1..], n) == Newest(s, n)
  {
  }

  /** With room for two, three sends while offline leave the last two and count one drop. */
  lemma TwoSlotScenario(m1: string, m2: string, m3: string)
    ensures PushAll([], [m1, m2, m3], 2) == [m2, m3]
    ensures DroppedAll([], [m1, m2, m3], 2) == 1
  {
    PushAllKeepsNewest([], [m1, m2, m3], 2);
  }

  /** How a drain goes, as the socket reports it: every send succeeds, or send number `index` throws. */
  datatype FlushOutcome = AllSent | FailsAt(index: nat, error: string)

  /** The drain stops at entry `o.index` of `q`. */
  predicate StopsWithin(q: seq<string>, o: FlushOutcome)
  {
    o.FailsAt? && o.index < |q|
  }

  /** The frames a drain delivers: the head of the queue up to the first failing send. */
  function FlushSent(q: seq<string>, o: FlushOutcome): (sent: seq<string>)
    ensures sent <= q
    ensures StopsWithin(q, o) ==> |sent| == o.index
    ensures !StopsWithin(q, o) ==> sent == q
  {
    if StopsWithin(q, o) then q[..o.index] else q
  }

  /** What is left queued after a drain: the unsent entries with the failed one re-pushed at the tail. */
  function FlushRest(q: seq<string>, o: FlushOutcome, cap: int): seq<string>
  {
    if StopsWithin(q, o) then Push(q[o.index + 1..], q[o.index], cap) else []
  }

  /** How much `droppedCount` grows by in a drain: only the re-push can overflow. */
  function FlushDropped(q: seq<string>, o: FlushOutcome, cap: int): nat
  {
    if StopsWithin(q, o) then Dropped(q[o.index + 1..], cap) else 0
  }

  /**
   * A drain of a queue within its bound loses and duplicates nothing: the
   * delivered frames and the frames still queued are the old queue, the failed
   * frame now last, and no drop is counted.
   */
  lemma FlushConserves(q: seq<string>, o: FlushOutcome, cap: int)
    requires |q| <= cap
    ensures FlushDropped(q, o, cap) == 0
    ensures StopsWithin(q, o) ==>
      FlushSent(q, o) + FlushRest(q, o, cap) == q[..o.index] + q[o.index + 1..] + [q[o.index]]
    ensures multiset(FlushSent(q, o) + FlushRest(q, o, cap)) == multiset(q)
    ensures |FlushRest(q, o, cap)| <= cap
  {
    if StopsWithin(q, o) {
      var k := o.index;
      assert q == q[..k] + [q[k]] + q[k + 1..];
      assert multiset(q[..k] + q[k + 1..] + [q[k]]) == multiset(q[..k] + [q[k]] + q[k + 1..]);
    }
  }

  /** The drain keeps the queue bound and drops nothing, for a queue within its bound. */
  lemma FlushKeepsBound(q: seq<string>, o: FlushOutcome, cap: int)
    ensures |q| <= cap ==> FlushDropped(q, o, cap) == 0 && |FlushRest(q, o, cap)| <= cap
  {
    if |q| <= cap {
      FlushConserves(q, o, cap);
    }
  }

  /**
   * The drain in terms of where it stops: `sent` went out and `rest` is what
   * was not shifted off, empty when every send succeeded and headed by the
   * failed frame otherwise.
   */
  lemma FlushSplit(q: seq<string>, sent: seq<string>, rest: seq<string>, o: FlushOutcome, cap: int)
    requires q == sent + rest && !(o.FailsAt? && o.index < |sent|)
    requires rest == [] || (o.FailsAt? && o.index == |sent|)
    ensures StopsWithin(q, o) <==> rest != []
    ensures FlushSent(q, o) == sent
    ensures FlushRest(q, o, cap) == if rest == [] then [] else Push(rest[1..], rest[0], cap)
    ensures FlushDropped(q, o, cap) == if rest == [] then 0 else Dropped(rest[1..], cap)
  {
    if rest != [] {
      assert q[|sent|] == rest[0] && q[|sent| + 1..] == rest[1..];
    }
  }

  /**
   * The loop of `flushQueue()` on the queue `q`: shift the head and send it,
   * until the queue is empty or send number `o.index` throws. Returns the
   * frames that went out and the entries not yet shifted off when the loop
   * ended, the failed frame first.
   */
  method Drain(q: seq<string>, o: FlushOutcome) returns (sent: seq<string>, rest: seq<string>)
    ensures q == sent + rest
    ensures sent == FlushSent(q, o)
    ensures rest != [] <==> StopsWithin(q, o)
  {
    sent, rest := [], q;
    while rest != []
      invariant q == sent + rest
      invariant !(o.FailsAt? && o.index < |sent|)
      decreases |rest|
    {
      if o.FailsAt? && o.index == |sent| {
        break;
      }
      sent, rest := sent + [rest[0]], rest[1..];
    }
    FlushSplit(q, sent, rest, o, 0);
  }

  /** A re-push in a drain does drop the oldest entry when the queue was already over its bound. */
  lemma FlushCanDropOnlyOverBound(q: seq<string>, o: FlushOutcome, cap: int)
    requires FlushDropped(q, o, cap) == 1
    ensures |q| > cap
  {
  }
}
