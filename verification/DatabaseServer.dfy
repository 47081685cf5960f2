/** The map of queues, one for each object that has operations outstanding. */
module DatabaseServer {
  import opened DBOperation
  import opened DBOperationQueue

  type Queues = map<Doid, QueueState>

  /** m_queues[doid]: a missing entry springs into being empty. */
  function QueueOf(queues: Queues, doid: Doid): QueueState {
    if doid in queues then queues[doid] else NO_OPERATIONS
  }

  function WithQueue(queues: Queues, doid: Doid, q: QueueState): Queues {
    if q == NO_OPERATIONS then queues - {doid} else queues[doid := q]
  }

  /** handle_operation and clear_operation: the new map of queues, and the operations
      submitted to the backend. */
  function Handled(queues: Queues, op: Operation): (Queues, seq<Operation>) {
    var (q, begun) := Enqueued(QueueOf(queues, op.doid), op);
    (WithQueue(queues, op.doid, q), begun)
  }

  function Cleared(queues: Queues, op: Operation): (Queues, seq<Operation>) {
    var (q, begun) := Finalized(QueueOf(queues, op.doid), op);
    (WithQueue(queues, op.doid, q), begun)
  }

  lemma ReplacedTwice(queues: Queues, doid: Doid, q: QueueState, r: QueueState)
    ensures r != NO_OPERATIONS ==> queues[doid := q][doid := r] == WithQueue(queues, doid, r)
  {
  }

  lemma EntryReplaced(queues: Queues, doid: Doid, q: QueueState)
    ensures WithQueue(queues[doid := q], doid, q) == WithQueue(queues, doid, q)
  {
    if q == NO_OPERATIONS {
      assert queues[doid := q] - {doid} == queues - {doid};
    }
  }

  class Server {
    var queues: map<Doid, OperationQueue>
    var submitted: seq<Operation>  // every operation handed to the backend, in order

    constructor ()
      ensures Valid() && fresh(Repr())
      ensures View() == map[] && submitted == []
    {
      queues := map[];
      submitted := [];
    }

    ghost function Repr(): set<object>
      reads this
    {
      set d | d in queues :: queues[d]
    }

    /** No queue object serves two objects. */
    ghost predicate Valid()
      reads this
    {
      forall d, e | d in queues && e in queues && queues[d] == queues[e] :: d == e
    }

    ghost function View(): Queues
      reads this, Repr()
    {
      map d | d in queues :: queues[d].State()
    }

    /** m_queues[doid], inserting an empty queue if there is none. */
    method QueueFor(doid: Doid) returns (q: OperationQueue)
      requires Valid()
      modifies this
      ensures Valid() && doid in queues && queues[doid] == q && fresh(Repr() - old(Repr()))
      ensures q in old(Repr()) || fresh(q)
      ensures submitted == old(submitted)
      ensures View() == old(View())[doid := QueueOf(old(View()), doid)]
    {
      if doid !in queues {
        var fresh_queue := new OperationQueue();
        queues := queues[doid := fresh_queue];
      }
      q := queues[doid];
    }

    method HandleOperation(op: Operation)
      requires Valid()
      modifies this, Repr()
      ensures Valid() && fresh(Repr() - old(Repr()))
      ensures View() == Handled(old(View()), op).0
      ensures submitted == old(submitted) + Handled(old(View()), op).1
    {
      hide Enqueued, WithQueue;
      ghost var before := View();
      var q := QueueFor(op.doid);
      assert View()[op.doid] == QueueOf(before, op.doid);
      BeginOrEnqueue(q, op);
      ReplacedTwice(before, op.doid, QueueOf(before, op.doid), Enqueued(QueueOf(before, op.doid), op).0);
    }

    method BeginOrEnqueue(q: OperationQueue, op: Operation)
      requires Valid() && op.doid in queues && queues[op.doid] == q
      modifies this`submitted, q
      ensures queues == old(queues)
      ensures View() == old(View())[op.doid := Enqueued(old(q.State()), op).0]
      ensures Enqueued(old(q.State()), op).0 != NO_OPERATIONS
      ensures submitted == old(submitted) + Enqueued(old(q.State()), op).1
    {
      var queued := q.EnqueueOperation(op);
      if queued {
        assert q.queue != [];
      } else {
        q.BeginOperation(op);
        submitted := submitted + [op];
        assert op in q.running;
      }
    }

    method ClearOperation(op: Operation)
      requires Valid()
      modifies this, Repr()
      ensures Valid() && fresh(Repr() - old(Repr()))
      ensures View() == Cleared(old(View()), op).0
      ensures submitted == old(submitted) + Cleared(old(View()), op).1
    {
      hide Finalized, IsIndependentOf;
      ghost var before := View();
      var q := QueueFor(op.doid);
      assert View()[op.doid] == QueueOf(before, op.doid);
      FinalizeAndFlush(q, op);
      ghost var after := Finalized(QueueOf(before, op.doid), op).0;
      assert View() == before[op.doid := after];
      EraseIfEmpty(op.doid);
      EntryReplaced(before, op.doid, after);
    }

    method EraseIfEmpty(doid: Doid)
      requires Valid() && doid in queues
      modifies this`queues
      ensures Valid() && Repr() <= old(Repr())
      ensures View() == WithQueue(old(View()), doid, old(View()[doid]))
    {
      if queues[doid].IsEmpty() {
        queues := queues - {doid};
      } else {
        assert View() == View()[doid := View()[doid]];
      }
    }

    method FinalizeAndFlush(q: OperationQueue, op: Operation)
      requires Valid() && op.doid in queues && queues[op.doid] == q
      modifies this`submitted, q
      ensures queues == old(queues)
      ensures q.State() == Finalized(old(q.State()), op).0
      ensures View() == old(View())[op.doid := q.State()]
      ensures submitted == old(submitted) + Finalized(old(q.State()), op).1
    {
      var flush := q.FinalizeOperation(op);
      if flush {
        Flush(q);
      }
    }

    /** The while loop of clear_operation: begin and submit all of the eligible operations. */
    method Flush(q: OperationQueue)
      requires q in Repr()
      modifies this`submitted, q
      ensures queues == old(queues)
      ensures q.State() == Drained(old(q.State())).0
      ensures submitted == old(submitted) + Drained(old(q.State())).1
    {
      hide IsIndependentOf, CanStart, Drained;
      ghost var start := q.State();
      ghost var done := [];
      ghost var now := start;
      var next := q.GetNextOperation();
      while next.Some?
        invariant queues == old(queues)
        invariant now == (if next.Some? then QueueState([next.value] + q.queue, q.running) else q.State())
        invariant next.Some? <==> now.queue != [] && CanStart(now.running, now.queue[0])
        invariant submitted == old(submitted) + done
        invariant Drained(start).0 == Drained(now).0
        invariant Drained(start).1 == done + Drained(now).1
        decreases |now.queue|
      {
        q.BeginOperation(next.value);
        submitted := submitted + [next.value];
        assert now.queue[1..] == q.queue;
        DrainStep(now);
        now := q.State();
        assert done + ([next.value] + Drained(now).1) == done + [next.value] + Drained(now).1;
        done := done + [next.value];
        next := q.GetNextOperation();
      }
      DrainStep(now);
    }
  }
}
