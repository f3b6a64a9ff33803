/**
 * The retransmission step of the coap client's event loop: before waiting for
 * input, every queued transaction whose time has come is popped and handed to
 * coap_retransmit, and the wait is then bounded by the time left until the new
 * head of the queue, or unbounded when the queue is empty.
 *
 * The queue is abstract: the scheduled times of the pending transactions,
 * earliest first. coap_retransmit is not part of this model; what it does to
 * the popped transaction is the parameter `effect`: reinsert it at a later time
 * (Some) or drop it (None).
 */
module Retransmission {
  import opened Wrappers

  type Time = int

  /** Earliest first, as coap_peek_next and coap_pop_next expect. */
  predicate Sorted(q: seq<Time>)
  {
    forall i, j :: 0 <= i < j < |q| ==> q[i] <= q[j]
  }

  /** coap_peek_next: the head of the queue, if any. */
  function Head(q: seq<Time>): Option<Time>
  {
    if q == [] then None else Some(q[0])
  }

  /** How many leading entries are scheduled no later than t: the ones due at t. */
  function DuePrefix(q: seq<Time>, t: Time): (k: nat)
    ensures k <= |q|
    ensures forall i :: 0 <= i < k ==> q[i] <= t
    ensures k < |q| ==> q[k] > t
  {
    if q == [] || q[0] > t then 0 else 1 + DuePrefix(q[1..], t)
  }

  /** Inserting a transaction after every entry scheduled no later than it. */
  function Insert(q: seq<Time>, t: Time): (r: seq<Time>)
    ensures Sorted(q) ==> Sorted(r)
    ensures multiset(r) == multiset(q) + multiset{t}
  {
    var p := DuePrefix(q, t);
    InsertSorted(q, t, p);
    assert q == q[..p] + q[p..];
    q[..p] + [t] + q[p..]
  }

  lemma InsertSorted(q: seq<Time>, t: Time, p: nat)
    requires p == DuePrefix(q, t)
    ensures Sorted(q) ==> Sorted(q[..p] + [t] + q[p..])
  {
    if Sorted(q) {
      var r := q[..p] + [t] + q[p..];
      forall i, j | 0 <= i < j < |r|
        ensures r[i] <= r[j]
      {
        if j < p || p < i {
        } else if i < p {
          assert r[i] == q[i] <= t;
          assert j == p || r[j] == q[j - 1] > t;
        } else {
          assert i == p && (j == p || r[j] == q[j - 1] > t);
        }
      }
    }
  }

  /** Every leading entry scheduled no later than t is counted as due at t. */
  lemma {:induction false} DuePrefixCovers(q: seq<Time>, t: Time, m: nat)
    requires m <= |q| && forall i :: 0 <= i < m ==> q[i] <= t
    ensures m <= DuePrefix(q, t)
    decreases m
  {
    if m > 0 {
      DuePrefixCovers(q[1..], t, m - 1);
    }
  }

  /** Inserting a time later than now keeps the entries due at now in front, and leaves nothing due behind them. */
  lemma InsertLater(q: seq<Time>, t: Time, m: nat, now: Time)
    requires Sorted(q) && m <= |q| && t > now
    requires forall i :: 0 <= i < m ==> q[i] <= now
    requires forall i :: m <= i < |q| ==> q[i] > now
    ensures |Insert(q, t)| == |q| + 1
    ensures Insert(q, t)[..m] == q[..m]
    ensures forall i :: m <= i < |q| + 1 ==> Insert(q, t)[i] > now
  {
    var p := DuePrefix(q, t);
    DuePrefixCovers(q, t, m);
    var r := Insert(q, t);
    assert r == q[..p] + [t] + q[p..];
    assert r[..m] == q[..m] by {
      assert forall i :: 0 <= i < m ==> r[i] == q[i];
    }
    forall i | m <= i < |q| + 1
      ensures r[i] > now
    {
      if i < p {
        assert r[i] == q[i];
      } else if p < i {
        assert r[i] == q[i - 1];
      }
    }
  }

  /** What one coap_retransmit call puts back into the queue. */
  function Extra(next: Option<Time>): seq<Time>
  {
    match next
    case Some(t) => [t]
    case None => []
  }

  /** The times at which coap_retransmit reinserts the due entries, in the order they were popped. */
  function Rescheduled(due: seq<Time>, effect: Time -> Option<Time>): (r: seq<Time>)
    ensures |r| <= |due|
  {
    if due == [] then []
    else
      var n := |due| - 1;
      Rescheduled(due[..n], effect) + Extra(effect(due[n]))
  }

  /** What the drain loop keeps: i of the k due entries of start have been retransmitted. */
  ghost predicate DrainedUpTo(q: seq<Time>, start: seq<Time>, i: nat, k: nat, now: Time, effect: Time -> Option<Time>)
  {
    DrainOrder(q, start, i, k, now) && DrainCount(q, start, i, effect)
  }

  /** The due entries not yet popped are still in front, in their order, and nothing behind them is due. */
  ghost predicate DrainOrder(q: seq<Time>, start: seq<Time>, i: nat, k: nat, now: Time)
  {
    && Sorted(q) && i <= k <= |start|
    && (forall j :: 0 <= j < k ==> start[j] <= now)
    && |q| >= k - i && q[..k - i] == start[i..k]
    && (forall j :: k - i <= j < |q| ==> q[j] > now)
  }

  /** The queue holds what was not popped yet and what was rescheduled. */
  ghost predicate DrainCount(q: seq<Time>, start: seq<Time>, i: nat, effect: Time -> Option<Time>)
  {
    i <= |start| && multiset(q) == multiset(start[i..]) + multiset(Rescheduled(start[..i], effect))
  }

  /** The queue after coap_retransmit has dealt with its popped head. */
  function AfterRetransmit(q: seq<Time>, effect: Time -> Option<Time>): (r: seq<Time>)
    requires q != []
    ensures |r| == |q| - 1 + |Extra(effect(q[0]))|
    ensures Sorted(q) ==> Sorted(r)
  {
    if effect(q[0]).Some? then Insert(q[1..], effect(q[0]).value) else q[1..]
  }

  /** coap_retransmit puts a transaction back, if at all, after now. */
  predicate LaterThan(next: Option<Time>, now: Time)
  {
    next.Some? ==> next.value > now
  }

  lemma DrainStepOrder(q: seq<Time>, start: seq<Time>, i: nat, k: nat, now: Time, effect: Time -> Option<Time>)
    requires DrainOrder(q, start, i, k, now) && i < k
    requires forall j :: 0 <= j < k ==> LaterThan(effect(start[j]), now)
    ensures q != [] && q[0] == start[i]
    ensures DrainOrder(AfterRetransmit(q, effect), start, i + 1, k, now)
  {
    assert q[0] == q[..k - i][0] == start[i];
    assert LaterThan(effect(start[i]), now);
    var rest := q[1..];
    assert rest[..k - i - 1] == start[i + 1..k];
    forall j | 0 <= j < k - i - 1
      ensures rest[j] <= now
    {
      assert rest[j] == rest[..k - i - 1][j] == start[i + 1 + j];
    }
    if effect(q[0]).Some? {
      InsertLater(rest, effect(q[0]).value, k - i - 1, now);
    }
  }

  lemma AfterRetransmitCount(q: seq<Time>, effect: Time -> Option<Time>)
    requires q != []
    ensures multiset(AfterRetransmit(q, effect)) + multiset{q[0]} == multiset(q) + multiset(Extra(effect(q[0])))
  {
    assert q == [q[0]] + q[1..];
  }

  lemma RescheduledNext(start: seq<Time>, i: nat, effect: Time -> Option<Time>)
    requires i < |start|
    ensures Rescheduled(start[..i + 1], effect) == Rescheduled(start[..i], effect) + Extra(effect(start[i]))
  {
    assert start[..i + 1][..i] == start[..i];
  }

  lemma SuffixCount(start: seq<Time>, i: nat)
    requires i < |start|
    ensures multiset(start[i..]) == multiset{start[i]} + multiset(start[i + 1..])
  {
    assert start[i..] == [start[i]] + start[i + 1..];
  }

  /** Taking the same element away from two equal multisets leaves equal multisets. */
  lemma Cancel(a: multiset<Time>, b: multiset<Time>, x: Time)
    requires a + multiset{x} == b + multiset{x}
    ensures a == b
  {
    forall y
      ensures a[y] == b[y]
    {
      assert (a + multiset{x})[y] == (b + multiset{x})[y];
    }
  }

  lemma DrainStepCount(q: seq<Time>, start: seq<Time>, i: nat, effect: Time -> Option<Time>)
    requires DrainCount(q, start, i, effect) && i < |start| && q != [] && q[0] == start[i]
    ensures DrainCount(AfterRetransmit(q, effect), start, i + 1, effect)
  {
    var x := start[i];
    var after := multiset(AfterRetransmit(q, effect));
    var extra := multiset(Extra(effect(x)));
    var rest := multiset(start[i + 1..]);
    var done := multiset(Rescheduled(start[..i], effect));
    AfterRetransmitCount(q, effect);
    assert after + multiset{x} == multiset(q) + extra;
    SuffixCount(start, i);
    assert multiset(q) == multiset{x} + rest + done;
    RescheduledNext(start, i, effect);
    assert multiset(Rescheduled(start[..i + 1], effect)) == done + extra;
    assert after + multiset{x} == (rest + done + extra) + multiset{x};
    Cancel(after, rest + done + extra, x);
  }

  /** Popping the head and letting coap_retransmit deal with it advances the drain by one entry. */
  lemma DrainStep(q: seq<Time>, start: seq<Time>, i: nat, k: nat, now: Time, effect: Time -> Option<Time>)
    requires DrainedUpTo(q, start, i, k, now, effect) && i < k
    requires forall j :: 0 <= j < k ==> LaterThan(effect(start[j]), now)
    ensures q != [] && q[0] == start[i]
    ensures DrainedUpTo(AfterRetransmit(q, effect), start, i + 1, k, now, effect)
  {
    DrainStepOrder(q, start, i, k, now, effect);
    DrainStepCount(q, start, i, effect);
  }

  /** Before the drain nothing has been popped: the whole queue is still there and nothing was rescheduled. */
  lemma DrainStart(q: seq<Time>, now: Time, effect: Time -> Option<Time>)
    requires Sorted(q)
    ensures DrainedUpTo(q, q, 0, DuePrefix(q, now), now, effect)
  {
    assert q[..0] == [] && q[0..] == q;
  }

  /** During the drain the head is due exactly while due entries remain to be popped. */
  lemma DrainOrderHead(q: seq<Time>, start: seq<Time>, i: nat, k: nat, now: Time)
    requires DrainOrder(q, start, i, k, now)
    ensures (q != [] && q[0] <= now) <==> i < k
  {
    if i < k {
      assert q[0] == q[..k - i][0] == start[i];
    }
  }

  /** The drain stops exactly when every due entry has been retransmitted. */
  lemma DrainFinished(q: seq<Time>, start: seq<Time>, i: nat, k: nat, now: Time, effect: Time -> Option<Time>)
    requires DrainedUpTo(q, start, i, k, now, effect)
    requires q == [] || q[0] > now
    ensures i == k
    ensures multiset(q) == multiset(start[k..]) + multiset(Rescheduled(start[..k], effect))
  {
    DrainOrderHead(q, start, i, k, now);
  }

  /** The select timeout derived from the head of the queue: None means wait without limit. */
  function WaitTimeout(head: Option<Time>, now: Time): (r: Option<int>)
    ensures r.None? <==> head.None?
    ensures r.Some? ==> now + r.value == head.value
  {
    match head
    case Some(t) => Some(t - now)
    case None => None
  }

  /** A drained queue gives a positive wait that ends exactly when its head is due, or none when it is empty. */
  lemma DrainedTimeout(q: seq<Time>, now: Time)
    requires q == [] || q[0] > now
    ensures WaitTimeout(Head(q), now).None? <==> q == []
    ensures WaitTimeout(Head(q), now).Some? ==>
      WaitTimeout(Head(q), now).value > 0 && now + WaitTimeout(Head(q), now).value == q[0]
  {
  }

  /** The client context, reduced to its transmission queue. */
  class Context {
    var queue: seq<Time>

    ghost predicate Valid()
      reads this
    {
      Sorted(queue)
    }

    /** coap_new_context: the queue starts empty. */
    constructor ()
      ensures Valid() && queue == []
    {
      queue := [];
    }

    /** coap_peek_next. */
    method PeekNext() returns (head: Option<Time>)
      requires Valid()
      ensures head == Head(queue)
      ensures head.None? <==> queue == []
      ensures head.Some? ==> head.value in queue && forall j :: 0 <= j < |queue| ==> head.value <= queue[j]
    {
      head := if queue == [] then None else Some(queue[0]);
    }

    /** coap_pop_next: remove and return the head. */
    method PopNext() returns (head: Option<Time>)
      requires Valid()
      modifies this
      ensures Valid()
      ensures head == Head(old(queue))
      ensures queue == if old(queue) == [] then [] else old(queue)[1..]
    {
      head := if queue == [] then None else Some(queue[0]);
      if queue != [] {
        queue := queue[1..];
      }
    }

    /** coap_retransmit's effect on the queue: the popped transaction comes back at `next`, or is dropped. */
    method Retransmit(next: Option<Time>)
      requires Valid()
      modifies this
      ensures Valid()
      ensures queue == if next.Some? then Insert(old(queue), next.value) else old(queue)
    {
      if next.Some? {
        queue := Insert(queue, next.value);
      }
    }

    /** `coap_retransmit(ctx, coap_pop_next(ctx))` on a queue that is not empty. */
    method RetransmitHead(effect: Time -> Option<Time>)
      requires Valid() && queue != []
      modifies this
      ensures Valid()
      ensures queue == AfterRetransmit(old(queue), effect)
    {
      var popped := PopNext();
      Retransmit(effect(popped.value));
    }

    /**
     * The loop of the event loop's lines that retransmit what is due at `now`,
     * followed by the choice of the select timeout. Afterwards nothing in the
     * queue is due; what was due has been replaced by its rescheduled times and
     * everything else is untouched; the timeout is the time left until the new
     * head, which is positive, or absent exactly when the queue is empty.
     */
    method DrainDue(now: Time, effect: Time -> Option<Time>) returns (timeout: Option<int>)
      requires Valid()
      requires forall j :: 0 <= j < DuePrefix(queue, now) ==> LaterThan(effect(queue[j]), now)
      modifies this
      ensures Valid()
      ensures queue == [] || queue[0] > now
      ensures var k := DuePrefix(old(queue), now);
        multiset(queue) == multiset(old(queue)[k..]) + multiset(Rescheduled(old(queue)[..k], effect))
      ensures timeout == WaitTimeout(Head(queue), now)
      ensures timeout.None? <==> queue == []
      ensures timeout.Some? ==> timeout.value > 0 && now + timeout.value == queue[0]
    {
      ghost var start := queue;
      ghost var k := DuePrefix(start, now);
      ghost var i := 0;
      var next := PeekNext();
      DrainStart(start, now, effect);
      while next.Some? && next.value <= now
        invariant Valid()
        invariant DrainedUpTo(queue, start, i, k, now, effect)
        invariant next == Head(queue)
        decreases k - i
      {
        DrainStep(queue, start, i, k, now, effect);
        RetransmitHead(effect);
        i := i + 1;
        next := PeekNext();
      }
      DrainFinished(queue, start, i, k, now, effect);
      timeout := WaitTimeout(next, now);
      DrainedTimeout(queue, now);
    }
  }
}
