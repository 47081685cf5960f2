/** A backend that completes an operation inside submit clears it in the middle of the loop
    that began it. The loop goes on with the queue it looked up before; that queue is gone
    if it was emptied meanwhile. */
module SynchronousCompletion {
  import opened DBOperation
  import opened DBOperationQueue

  /** Dangling: the loop comes back to a queue that was erased under it. */
  datatype Clearing = Cleared(q: QueueState) | Dangling

  /** clear_operation, where the operations in inside complete while they are submitted. */
  function Clear(q: QueueState, op: Operation, inside: set<Operation>): (c: Clearing)
    ensures c.Cleared? ==> |c.q.queue| <= |q.queue|
    decreases |q.queue|, 1
  {
    var rest := q.(running := q.running - {op});
    if rest.queue != [] && !IsIndependentOf(op, rest.queue[0]) then Flush(rest, inside) else Cleared(rest)
  }

  /** Its loop. An operation that completes inside submit is cleared before the loop goes
      on, and the queue it leaves is erased if nothing is left in it. */
  function Flush(q: QueueState, inside: set<Operation>): (c: Clearing)
    ensures c.Cleared? ==> |c.q.queue| <= |q.queue|
    decreases |q.queue|, 0
  {
    if q.queue == [] || !CanStart(q.running, q.queue[0]) then Cleared(q)
    else
      var next := q.queue[0];
      var begun := QueueState(q.queue[1..], q.running + {next});
      if next !in inside then Flush(begun, inside)
      else
        match Clear(begun, next, inside)
        case Dangling => Dangling
        case Cleared(after) => if after == NO_OPERATIONS then Dangling else Flush(after, inside)
  }

  /** An operation is queued or running, and only once. */
  predicate Separate(q: QueueState) {
    (forall x | x in q.queue :: x !in q.running) && forall i, j | 0 <= i < j < |q.queue| :: q.queue[i] != q.queue[j]
  }

  /** Everything outstanding will complete inside submit. */
  predicate AllInside(q: QueueState, inside: set<Operation>) {
    q.running == {} && forall x | x in q.queue :: x in inside
  }

  /** Something that does not complete inside submit is outstanding, and stays so. */
  predicate SomeOutside(q: QueueState, inside: set<Operation>) {
    (exists x :: x in q.running) || (exists x :: x in q.queue && x !in inside)
  }

  lemma BegunIsSeparate(q: QueueState)
    requires Separate(q) && q.queue != []
    ensures Separate(QueueState(q.queue[1..], q.running + {q.queue[0]}))
    ensures q.running + {q.queue[0]} - {q.queue[0]} == q.running
    ensures Separate(QueueState(q.queue[1..], q.running))
  {
    assert q.queue == [q.queue[0]] + q.queue[1..];
    assert q.queue[0] in q.queue;
  }

  /** With all of them completing inside, the loop that begins one empties the queue. */
  lemma {:induction false} FlushOfAllDangles(q: QueueState, inside: set<Operation>)
    requires Separate(q) && AllInside(q, inside) && q.queue != []
    ensures Flush(q, inside) == Dangling
    decreases |q.queue|
  {
    hide IsIndependentOf;
    var rest := QueueState(q.queue[1..], q.running);
    BegunIsSeparate(q);
    assert q.queue[0] in q.queue;
    if rest.queue != [] { FlushOfAllDangles(rest, inside); }
  }

  /** With something outside, the queue is never empty, and no loop is left alone. */
  lemma {:induction false} FlushKeepsOutside(q: QueueState, inside: set<Operation>)
    requires Separate(q) && SomeOutside(q, inside)
    ensures var c := Flush(q, inside); c.Cleared? && Separate(c.q) && SomeOutside(c.q, inside)
    decreases |q.queue|
  {
    hide IsIndependentOf;
    if q.queue != [] && CanStart(q.running, q.queue[0]) {
      var next := q.queue[0];
      var begun, rest := QueueState(q.queue[1..], q.running + {next}), QueueState(q.queue[1..], q.running);
      BegunIsSeparate(q);
      assert q.queue == [next] + rest.queue;
      if next !in inside {
        assert next in begun.running;
        FlushKeepsOutside(begun, inside);
      } else {
        assert SomeOutside(rest, inside);
        assert begun.(running := begun.running - {next}) == rest;
        var after := rest;
        if rest.queue != [] && !IsIndependentOf(next, rest.queue[0]) {
          FlushKeepsOutside(rest, inside);
          after := Flush(rest, inside).q;
        }
        assert Clear(begun, next, inside) == Cleared(after);
        assert after != NO_OPERATIONS;
        FlushKeepsOutside(after, inside);
      }
    }
  }

  /** The loop of clear_operation loses its queue exactly if it runs at all, nothing else
      runs, and everything that waits completes inside submit. */
  lemma ClearDanglesExactly(q: QueueState, op: Operation, inside: set<Operation>)
    requires Separate(q) && op in q.running
    ensures Clear(q, op, inside) == Dangling <==>
              q.queue != [] && !IsIndependentOf(op, q.queue[0]) && q.running == {op} && forall x | x in q.queue :: x in inside
  {
    hide IsIndependentOf;
    var rest := q.(running := q.running - {op});
    if rest.queue != [] && !IsIndependentOf(op, rest.queue[0]) {
      if AllInside(rest, inside) {
        FlushOfAllDangles(rest, inside);
        assert q.running == {op};
      } else {
        if rest.running != {} { var x :| x in rest.running; }
        FlushKeepsOutside(rest, inside);
      }
    }
  }

  /** If no operation completes inside submit this is clear_operation as it is otherwise. */
  lemma {:induction false} NothingInside(q: QueueState)
    ensures Flush(q, {}) == Cleared(Drained(q).0)
    decreases |q.queue|
  {
    if q.queue != [] && CanStart(q.running, q.queue[0]) {
      NothingInside(QueueState(q.queue[1..], q.running + {q.queue[0]}));
    }
  }

  lemma ClearIsFinalize(q: QueueState, op: Operation)
    ensures Clear(q, op, {}) == Cleared(Finalized(q, op).0)
  {
    NothingInside(q.(running := q.running - {op}));
  }

  /** A backend that completes everything inside submit is safe: each operation goes at
      once, and leaves the queue as empty as it was. */
  lemma AlwaysInsideNeverWaits(op: Operation, inside: set<Operation>)
    ensures var (q, begun) := Enqueued(NO_OPERATIONS, op);
            begun == [op] && Clear(q, op, inside) == Cleared(NO_OPERATIONS)
  {
    assert {op} - {op} == {};
  }
}
