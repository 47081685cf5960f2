/** The operations outstanding on one object: those running, and those queued behind
    operations they may conflict with. */
module DBOperationQueue {
  import opened DBOperation

  datatype QueueState = QueueState(queue: seq<Operation>, running: set<Operation>)

  const NO_OPERATIONS := QueueState([], {})

  datatype Option<T> = None | Some(value: T)

  predicate CanStart(running: set<Operation>, op: Operation) {
    forall r | r in running :: IsIndependentOf(op, r)
  }

  predicate Blocked(q: QueueState) {
    q.queue != [] && !CanStart(q.running, q.queue[0])
  }

  /** What one clear_operation does to the queue of its object: the head is begun for
      as long as it can start, but only if the finished operation may have been in its way. */
  function Finalized(q: QueueState, op: Operation): (QueueState, seq<Operation>) {
    var rest := q.(running := q.running - {op});
    if rest.queue != [] && !IsIndependentOf(op, rest.queue[0]) then Drained(rest) else (rest, [])
  }

  /** Begins queued operations from the front until one has to wait; the second
      part lists those begun, in order. */
  function Drained(q: QueueState): (QueueState, seq<Operation>)
    decreases |q.queue|
  {
    if q.queue == [] || !CanStart(q.running, q.queue[0]) then (q, [])
    else
      var (q', begun) := Drained(QueueState(q.queue[1..], q.running + {q.queue[0]}));
      (q', [q.queue[0]] + begun)
  }

  /** One turn of the loop: either the head has to wait, or it is begun. */
  lemma DrainStep(q: QueueState)
    ensures q.queue == [] || !CanStart(q.running, q.queue[0]) ==> Drained(q) == (q, [])
    ensures q.queue != [] && CanStart(q.running, q.queue[0]) ==>
              var rest := QueueState(q.queue[1..], q.running + {q.queue[0]});
              Drained(q).0 == Drained(rest).0 && Drained(q).1 == [q.queue[0]] + Drained(rest).1
  {
  }

  /** What handle_operation does: begin at once, or wait. */
  function Enqueued(q: QueueState, op: Operation): (QueueState, seq<Operation>) {
    if q.queue == [] && CanStart(q.running, op)
    then (q.(running := q.running + {op}), [op])
    else (q.(queue := q.queue + [op]), [])
  }

  // ----- What is begun leaves the queue, from the front -----

  lemma {:induction false} DrainedTakesFromFront(q: QueueState)
    ensures Drained(q).1 + Drained(q).0.queue == q.queue
    decreases |q.queue|
  {
    hide CanStart, Drained;
    DrainStep(q);
    if q.queue != [] && CanStart(q.running, q.queue[0]) {
      var rest := QueueState(q.queue[1..], q.running + {q.queue[0]});
      DrainedTakesFromFront(rest);
      assert [q.queue[0]] + Drained(rest).1 + Drained(rest).0.queue == [q.queue[0]] + (Drained(rest).1 + Drained(rest).0.queue);
      assert q.queue == [q.queue[0]] + q.queue[1..];
    }
  }

  lemma FinalizedTakesFromFront(q: QueueState, op: Operation)
    ensures Finalized(q, op).1 + Finalized(q, op).0.queue == q.queue
  {
    DrainedTakesFromFront(q.(running := q.running - {op}));
  }

  /** What arrives is either begun or at the end of the queue. */
  lemma EnqueuedTakesFromFront(q: QueueState, op: Operation)
    ensures Enqueued(q, op).1 + Enqueued(q, op).0.queue == q.queue + [op]
  {
  }

  /** The queue object itself. */
  class OperationQueue {
    var queue: seq<Operation>
    var running: set<Operation>

    constructor ()
      ensures State() == NO_OPERATIONS
    {
      queue := [];
      running := {};
    }

    function State(): QueueState
      reads this
    {
      QueueState(queue, running)
    }

    /** all_of over the running operations. */
    method CanOperationStart(op: Operation) returns (can: bool)
      ensures can == CanStart(running, op)
    {
      var todo := running;
      while todo != {}
        invariant todo <= running
        invariant forall r | r in running - todo :: IsIndependentOf(op, r)
      {
        var r :| r in todo;
        if !IsIndependentOf(op, r) {
          return false;
        }
        todo := todo - {r};
      }
      can := true;
    }

    /** Hands out the head of the queue if it can start now. */
    method GetNextOperation() returns (next: Option<Operation>)
      modifies this
      ensures running == old(running)
      ensures next.None? ==> queue == old(queue) && (queue == [] || !CanStart(running, queue[0]))
      ensures next.Some? ==> [next.value] + queue == old(queue) && CanStart(running, next.value)
    {
      if |queue| == 0 {
        return None;
      }
      var op := queue[0];
      var can := CanOperationStart(op);
      if can {
        queue := queue[1..];
        next := Some(op);
      } else {
        next := None;
      }
    }

    /** Returns false, and leaves the queue alone, if the operation can go straight away. */
    method EnqueueOperation(op: Operation) returns (queued: bool)
      modifies this
      ensures running == old(running)
      ensures !queued <==> old(queue) == [] && CanStart(running, op)
      ensures queue == if queued then old(queue) + [op] else old(queue)
    {
      var can := CanOperationStart(op);
      if |queue| == 0 && can {
        queued := false;
      } else {
        queue := queue + [op];
        queued := true;
      }
    }

    method BeginOperation(op: Operation)
      modifies this
      ensures queue == old(queue) && running == old(running) + {op}
    {
      running := running + {op};
    }

    /** Returns whether the operation that ended may have been what the head waited for. */
    method FinalizeOperation(op: Operation) returns (flush: bool)
      modifies this
      ensures queue == old(queue) && running == old(running) - {op}
      ensures flush <==> queue != [] && !IsIndependentOf(op, queue[0])
    {
      running := running - {op};
      flush := |queue| != 0 && !IsIndependentOf(op, queue[0]);
    }

    predicate IsEmpty()
      reads this
      ensures IsEmpty() <==> State() == NO_OPERATIONS
    {
      |queue| == 0 && |running| == 0
    }
  }
}
