/**
  The push/pull bridge between process callbacks and `for await`: `push`, `close` and `next` in
  any order.
 */
module AsyncQueues {
  import opened Wrappers

  datatype Op<T> = Push(item: T) | Next | Close

  /** What the promise returned by one `next` call holds. */
  datatype Delivery<T> = Pending | Done | Item(item: T)

  /** The pushes that count: those before the first close. */
  function Pushed<T>(ops: seq<Op<T>>): seq<T> {
    if ops == [] then []
    else
      var last, before := ops[|ops| - 1], ops[..|ops| - 1];
      if last.Push? && !Closed(before) then Pushed(before) + [last.item] else Pushed(before)
  }

  function Calls<T>(ops: seq<Op<T>>): nat {
    if ops == [] then 0
    else Calls(ops[..|ops| - 1]) + if ops[|ops| - 1].Next? then 1 else 0
  }

  predicate Closed<T>(ops: seq<Op<T>>) {
    exists i :: 0 <= i < |ops| && ops[i].Close?
  }

  /** What the `k`-th `next` has received after `ops`: the `k`-th push that counts, or the end once closed. */
  function Received<T>(ops: seq<Op<T>>, k: nat): Delivery<T> {
    if k < |Pushed(ops)| then Item(Pushed(ops)[k]) else if Closed(ops) then Done else Pending
  }

  class AsyncQueue<T> {
    var buffered: seq<T>
    var waiters: seq<nat>
    var closed: bool
    /** The promises handed out so far, in call order. */
    var promises: seq<Delivery<T>>
    ghost var history: seq<Op<T>>

    /**
      The queue is an exact matcher for its whole history: the `k`-th call holds the `k`-th push
      that counts, or the end, or still waits; what is not yet matched is buffered in order.
      So items and waiters are never both present, and a closed queue keeps nobody waiting.
     */
    ghost predicate Valid()
      reads this
    {
      && closed == Closed(history)
      && |promises| == Calls(history)
      && (forall k :: 0 <= k < |promises| ==> promises[k] == Received(history, k))
      && buffered == (if |promises| < |Pushed(history)| then Pushed(history)[|promises|..] else [])
      && |waiters| == (if closed || |promises| < |Pushed(history)| then 0 else |promises| - |Pushed(history)|)
      && (forall i :: 0 <= i < |waiters| ==> waiters[i] == |Pushed(history)| + i)
    }

    constructor ()
      ensures Valid() && history == []
    {
      buffered, waiters, closed, promises, history := [], [], false, [], [];
    }

    method Push(item: T)
      requires Valid()
      modifies this
      ensures Valid() && history == old(history) + [Op.Push(item)]
    {
      HistoryStep(history, Op.Push(item));
      history := history + [Op.Push(item)];
      if closed { return; }
      if |waiters| > 0 {
        promises := promises[waiters[0] := Item(item)];
        waiters := waiters[1..];
      } else {
        buffered := buffered + [item];
      }
    }

    method Close()
      requires Valid()
      modifies this
      ensures Valid() && history == old(history) + [Op<T>.Close]
    {
      HistoryStep(history, Op<T>.Close);
      ghost var before := history;
      history := history + [Op<T>.Close];
      if closed { return; }
      closed := true;
      while |waiters| > 0
        invariant closed && buffered == old(buffered) && history == before + [Op<T>.Close]
        invariant |promises| == Calls(history) && |waiters| <= |promises|
        invariant |waiters| > 0 ==> |promises| - |waiters| >= |Pushed(history)|
        invariant forall k :: 0 <= k < |promises| - |waiters| ==> promises[k] == Received(history, k)
        invariant forall i :: 0 <= i < |waiters| ==> waiters[i] == |promises| - |waiters| + i
      {
        promises := promises[waiters[0] := Done];
        waiters := waiters[1..];
      }
    }

    /** Returns the index of the promise it hands out. */
    method Next() returns (call: nat)
      requires Valid()
      modifies this
      ensures Valid() && history == old(history) + [Op<T>.Next]
      ensures call == |old(promises)| < |promises|
    {
      HistoryStep(history, Op<T>.Next);
      history := history + [Op<T>.Next];
      call := |promises|;
      if |buffered| > 0 {
        promises := promises + [Item(buffered[0])];
        buffered := buffered[1..];
      } else if closed {
        promises := promises + [Done];
      } else {
        promises := promises + [Pending];
        waiters := waiters + [call];
      }
    }
  }

  lemma HistoryStep<T>(ops: seq<Op<T>>, op: Op<T>)
    ensures Closed(ops + [op]) == (Closed(ops) || op.Close?)
    ensures Calls(ops + [op]) == Calls(ops) + if op.Next? then 1 else 0
    ensures Pushed(ops + [op]) == if op.Push? && !Closed(ops) then Pushed(ops) + [op.item] else Pushed(ops)
  {
    var all := ops + [op];
    assert all[..|all| - 1] == ops && all[|all| - 1] == op;
    if i :| 0 <= i < |ops| && ops[i].Close? {
      assert all[i].Close?;
    }
    if op.Close? { assert all[|ops|].Close?; }
  }

  /**
    Matching is final: no later operation changes what a call has received, and a waiting call
    is only ever given the push with its own number or the end.
   */
  lemma {:induction false} MatchingIsFinal<T>(ops: seq<Op<T>>, later: seq<Op<T>>, k: nat)
    ensures Pushed(ops) <= Pushed(ops + later)
    ensures !Received(ops, k).Pending? ==> Received(ops + later, k) == Received(ops, k)
    ensures Closed(ops) ==> Closed(ops + later) && Pushed(ops + later) == Pushed(ops)
    decreases |later|
  {
    if later == [] {
      assert ops + later == ops;
    } else {
      var init, last := later[..|later| - 1], later[|later| - 1];
      assert ops + later == (ops + init) + [last];
      MatchingIsFinal(ops, init, k);
      HistoryStep(ops + init, last);
    }
  }

  /** Nothing is lost or invented: before any close, the counted pushes are all the pushes, in order. */
  lemma {:induction false} PushesBeforeClose<T>(items: seq<T>)
    ensures var ops := seq(|items|, i requires 0 <= i < |items| => Op.Push(items[i]));
            Pushed(ops) == items && !Closed(ops)
    decreases |items|
  {
    if items != [] {
      var n := |items| - 1;
      var ops := seq(|items|, i requires 0 <= i < |items| => Op.Push(items[i]));
      var shorter := seq(n, i requires 0 <= i < n => Op.Push(items[..n][i]));
      PushesBeforeClose(items[..n]);
      assert ops == shorter + [Op.Push(items[n])];
      HistoryStep(shorter, Op.Push(items[n]));
    }
  }
}
