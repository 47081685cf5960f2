/** Every run of the scheduler over an asynchronous backend answers as if the
    operations had run one at a time, in the order they arrived. */
module Scheduler {
  import opened DBOperation
  import opened DatabaseBackend
  import opened DBOperationQueue
  import opened DatabaseServer
  import opened SerialExecution

  // ----- The scheduler and its backend as a state machine -----

  /** store, executed and results belong to the backend, which gives each submitted
      operation its effect in one step, at some moment before it reports completion. */
  datatype System = System(
    store: Store,
    arrivals: seq<Operation>,           // every operation handed to handle_operation
    queues: Queues,
    submitted: seq<Operation>,          // every operation handed to the backend, in order
    executed: seq<Operation>,           // in the order the backend chose
    results: map<nat, seq<Message>>,    // the messages each executed operation will route
    finished: set<Operation>,
    routed: map<nat, seq<Message>>)     // the messages routed when each operation finished

  datatype Event =
    | Arrive(op: Operation)
    | Perform(op: Operation)
    | Finish(op: Operation)
    | Reject(op: Operation)

  function Start(store: Store): System {
    System(store, [], map[], [], [], map[], {}, map[])
  }

  predicate Running(s: System, op: Operation) {
    op in QueueOf(s.queues, op.doid).running
  }

  predicate Queued(s: System, op: Operation) {
    op in QueueOf(s.queues, op.doid).queue
  }

  /** An operation executes once, after it was submitted, and finishes after that. One that
      initialize rejects is cleared without ever having been handled. */
  predicate Enabled(s: System, e: Event) {
    match e
    case Arrive(op) => op.id == |s.arrivals|
    case Perform(op) => op in s.submitted && op !in s.executed
    case Finish(op) => op in s.submitted && op in s.executed && op !in s.finished && op.id in s.results
    case Reject(op) => op !in s.arrivals
  }

  function Next(sch: Schema, s: System, e: Event): System
    requires Enabled(s, e)
  {
    match e
    case Arrive(op) =>
      var (queues, begun) := Handled(s.queues, op);
      s.(arrivals := s.arrivals + [op], queues := queues, submitted := s.submitted + begun)
    case Perform(op) =>
      var (store, messages) := Execute(sch, s.store, op);
      s.(store := store, executed := s.executed + [op], results := s.results[op.id := messages])
    case Finish(op) =>
      var (queues, begun) := Cleared(s.queues, op);
      s.(queues := queues, submitted := s.submitted + begun, finished := s.finished + {op},
         routed := s.routed[op.id := s.results[op.id]])
    case Reject(op) =>
      var (queues, begun) := Cleared(s.queues, op);
      s.(queues := queues, submitted := s.submitted + begun)
  }

  predicate Possible(sch: Schema, s: System, run: seq<Event>)
    decreases |run|
  {
    run == [] || (Enabled(s, run[0]) && Possible(sch, Next(sch, s, run[0]), run[1..]))
  }

  function After(sch: Schema, s: System, run: seq<Event>): System
    requires Possible(sch, s, run)
    decreases |run|
  {
    if run == [] then s else After(sch, Next(sch, s, run[0]), run[1..])
  }

  // ----- What is submitted -----

  /** The operations of a list that are on one object. */
  function OnObject(ops: seq<Operation>, doid: Doid): seq<Operation> {
    if ops == [] then []
    else
      var last := ops[|ops|-1];
      OnObject(ops[..|ops|-1], doid) + (if last.doid == doid then [last] else [])
  }

  lemma {:induction false} OnObjectConcat(a: seq<Operation>, b: seq<Operation>, doid: Doid)
    ensures OnObject(a + b, doid) == OnObject(a, doid) + OnObject(b, doid)
    decreases |b|
  {
    if b == [] {
      assert a + b == a;
    } else {
      assert (a + b)[..|a + b|-1] == a + b[..|b|-1];
      OnObjectConcat(a, b[..|b|-1], doid);
    }
  }

  lemma {:induction false} OnObjectAll(ops: seq<Operation>, here: Doid, doid: Doid)
    requires forall op | op in ops :: op.doid == here
    ensures OnObject(ops, doid) == if here == doid then ops else []
    decreases |ops|
  {
    if ops != [] {
      assert ops[|ops|-1] in ops && ops == ops[..|ops|-1] + [ops[|ops|-1]];
      assert forall op | op in ops[..|ops|-1] :: op in ops;
      OnObjectAll(ops[..|ops|-1], here, doid);
    }
  }

  lemma {:induction false} OnObjectMembers(ops: seq<Operation>, doid: Doid)
    ensures forall op :: op in OnObject(ops, doid) <==> op in ops && op.doid == doid
    decreases |ops|
  {
    if ops != [] {
      OnObjectMembers(ops[..|ops|-1], doid);
      assert ops == ops[..|ops|-1] + [ops[|ops|-1]];
    }
  }

  /** What has been submitted of an object, and then what waits, is what has arrived. */
  predicate SubmittedInOrder(s: System, doid: Doid) {
    OnObject(s.submitted, doid) + QueueOf(s.queues, doid).queue == OnObject(s.arrivals, doid)
  }

  /** Operations begun on one object, and its queue replaced. */
  lemma SubmittedMore(submitted: seq<Operation>, begun: seq<Operation>, queues: Queues, here: Doid, q: QueueState, doid: Doid)
    requires forall op | op in begun :: op.doid == here
    requires begun + q.queue == QueueOf(queues, here).queue
    ensures OnObject(submitted + begun, doid) + QueueOf(WithQueue(queues, here, q), doid).queue
         == OnObject(submitted, doid) + QueueOf(queues, doid).queue
  {
    hide OnObject, WithQueue, QueueOf;
    OnObjectConcat(submitted, begun, doid);
    OnObjectAll(begun, here, doid);
    QueueReplaced(queues, here, q, doid);
    var some := OnObject(submitted, doid);
    if here == doid {
      assert some + begun + q.queue == some + (begun + q.queue);
    } else {
      assert some + [] == some;
    }
  }

  /** What is submitted and not finished is what runs. */
  lemma SubmittedRuns(s: System, op: Operation)
    requires Scheduled(s) && op in s.submitted && op !in s.finished
    ensures Running(s, op)
  {
    SubmittedAreBegun(s, op);
    assert QueueInvariant(s.arrivals, s.finished, op.doid, QueueOf(s.queues, op.doid));
  }

  /** An arrival has been submitted exactly if it does not wait. */
  lemma SubmittedAreBegun(s: System, op: Operation)
    requires Scheduled(s)
    ensures op in s.submitted <==> op in s.arrivals && !Queued(s, op)
  {
    hide QueueInvariant, Settled;
    var d := op.doid;
    assert SubmittedInOrder(s, d);
    OnObjectMembers(s.submitted, d);
    OnObjectMembers(s.arrivals, d);
    var before, queue := OnObject(s.submitted, d), QueueOf(s.queues, d).queue;
    OnceOnly(s.arrivals, d);
    forall i, j | 0 <= i < |before| && 0 <= j < |queue| ensures before[i] != queue[j] {
      assert (before + queue)[i].id < (before + queue)[|before| + j].id;
    }
    assert op in before + queue <==> op in before || op in queue;
  }

  /** Arrivals have different ids, in order. */
  lemma {:induction false} OnceOnly(arrivals: seq<Operation>, doid: Doid)
    requires forall i | 0 <= i < |arrivals| :: arrivals[i].id == i
    ensures forall i, j | 0 <= i < j < |OnObject(arrivals, doid)| :: OnObject(arrivals, doid)[i].id < OnObject(arrivals, doid)[j].id
    ensures forall op | op in OnObject(arrivals, doid) :: op.id < |arrivals|
    decreases |arrivals|
  {
    if arrivals != [] {
      OnceOnly(arrivals[..|arrivals|-1], doid);
    }
  }

  // ----- One queue -----

  predicate Arrived(arrivals: seq<Operation>, op: Operation) {
    op.id < |arrivals| && arrivals[op.id] == op
  }

  /** What holds of the queue of one object at every step, the middle of a flush included. */
  ghost predicate QueueInvariant(arrivals: seq<Operation>, finished: set<Operation>, doid: Doid, q: QueueState) {
    // It holds operations on this object that have arrived, the waiting ones in order of arrival.
    && (forall op | op in q.queue || op in q.running :: Arrived(arrivals, op) && op.doid == doid)
    && (forall i, j | 0 <= i < j < |q.queue| :: q.queue[i].id < q.queue[j].id)
    // Each arrival is waiting, running or finished, and only one of them.
    && (forall op | op in arrivals && op.doid == doid :: op in q.queue || op in q.running || op in finished)
    && (forall op | op in q.queue :: op !in q.running && op !in finished)
    && (forall op | op in q.running :: op !in finished)
    // Operations begin in order of arrival.
    && (forall a, b | a in arrivals && a.doid == doid && a !in q.queue && b in q.queue :: a.id < b.id)
    // Running operations are pairwise independent.
    && (forall a, b | a in q.running && b in q.running && a != b :: IsIndependentOf(a, b))
    // Of two operations in conflict the later begins only once the earlier has finished.
    && (forall a, b | a in arrivals && b in arrivals && a.doid == b.doid == doid && a.id < b.id && !IsIndependentOf(a, b) && b !in q.queue ::
          a in finished)
  }

  /** No wakeup is lost: whatever waits, waits behind a head that cannot start yet. */
  predicate Settled(q: QueueState) {
    q.queue != [] ==> Blocked(q)
  }

  /** Beginning the head of the queue once nothing that runs conflicts with it. */
  lemma BeginKeeps(arrivals: seq<Operation>, finished: set<Operation>, doid: Doid, q: QueueState)
    requires QueueInvariant(arrivals, finished, doid, q)
    requires q.queue != [] && CanStart(q.running, q.queue[0])
    ensures QueueInvariant(arrivals, finished, doid, QueueState(q.queue[1..], q.running + {q.queue[0]}))
  {
    hide IsIndependentOf;
    var head := q.queue[0];
    var q' := QueueState(q.queue[1..], q.running + {head});
    assert q.queue == [head] + q'.queue;
    assert forall op :: op in q.queue <==> op == head || op in q'.queue;
    forall r | r in q.running ensures IsIndependentOf(r, head) && IsIndependentOf(head, r) {
      IndependenceIsSymmetric(r, head);
    }
  }

  lemma {:induction false} DrainKeeps(arrivals: seq<Operation>, finished: set<Operation>, doid: Doid, q: QueueState)
    requires QueueInvariant(arrivals, finished, doid, q)
    ensures QueueInvariant(arrivals, finished, doid, Drained(q).0)
    ensures Settled(Drained(q).0)
    decreases |q.queue|
  {
    if q.queue != [] && CanStart(q.running, q.queue[0]) {
      BeginKeeps(arrivals, finished, doid, q);
      DrainKeeps(arrivals, finished, doid, QueueState(q.queue[1..], q.running + {q.queue[0]}));
    }
  }

  lemma ArriveKeeps(arrivals: seq<Operation>, finished: set<Operation>, q: QueueState, op: Operation)
    requires QueueInvariant(arrivals, finished, op.doid, q) && Settled(q)
    requires op.id == |arrivals| && (forall a | a in arrivals :: Arrived(arrivals, a)) && (forall f | f in finished :: f in arrivals)
    ensures QueueInvariant(arrivals + [op], finished, op.doid, Enqueued(q, op).0)
    ensures Settled(Enqueued(q, op).0)
  {
    WaitKeeps(arrivals, finished, q, op);
    if q.queue == [] && CanStart(q.running, op) {
      BeginKeeps(arrivals + [op], finished, op.doid, QueueState([op], q.running));
    }
  }

  lemma WaitKeeps(arrivals: seq<Operation>, finished: set<Operation>, q: QueueState, op: Operation)
    requires QueueInvariant(arrivals, finished, op.doid, q)
    requires op.id == |arrivals| && (forall a | a in arrivals :: Arrived(arrivals, a)) && (forall f | f in finished :: f in arrivals)
    ensures QueueInvariant(arrivals + [op], finished, op.doid, q.(queue := q.queue + [op]))
  {
    hide IsIndependentOf;
    var q' := q.(queue := q.queue + [op]);
    assert forall a :: a in arrivals + [op] <==> a in arrivals || a == op;
    assert forall a :: a in q'.queue <==> a in q.queue || a == op;
  }

  /** The end of an operation. The shortcut in finalize_operation is sound: when the
      operation that ended is independent of the head, the head is still blocked by another. */
  lemma FinalizeKeeps(arrivals: seq<Operation>, finished: set<Operation>, q: QueueState, op: Operation)
    requires QueueInvariant(arrivals, finished, op.doid, q) && Settled(q)
    requires op in q.running
    ensures QueueInvariant(arrivals, finished + {op}, op.doid, Finalized(q, op).0)
    ensures Settled(Finalized(q, op).0)
  {
    var rest := q.(running := q.running - {op});
    assert QueueInvariant(arrivals, finished + {op}, op.doid, rest);
    if rest.queue != [] {
      if IsIndependentOf(op, rest.queue[0]) {
        var r :| r in q.running && !IsIndependentOf(rest.queue[0], r);
        IndependenceIsSymmetric(op, rest.queue[0]);
        assert r in rest.running;
      } else {
        DrainKeeps(arrivals, finished + {op}, op.doid, rest);
      }
    }
  }

  /** Clearing an operation that never ran changes nothing. */
  lemma RejectKeeps(q: QueueState, op: Operation)
    requires Settled(q) && op !in q.running
    ensures Finalized(q, op).0 == q && Finalized(q, op).1 == []
  {
    assert q.running - {op} == q.running;
  }

  // ----- All the queues -----

  ghost predicate Scheduled(s: System) {
    && (forall i | 0 <= i < |s.arrivals| :: s.arrivals[i].id == i)
    && (forall op | op in s.finished :: op in s.executed)
    && (forall op | op in s.executed :: op in s.arrivals && !Queued(s, op))
    && (forall d :: QueueInvariant(s.arrivals, s.finished, d, QueueOf(s.queues, d)) && Settled(QueueOf(s.queues, d)))
    && (forall d | d in s.queues :: s.queues[d] != NO_OPERATIONS)
    && (forall d :: SubmittedInOrder(s, d))
  }

  lemma QueueReplaced(queues: Queues, doid: Doid, q: QueueState, d: Doid)
    ensures QueueOf(WithQueue(queues, doid, q), d) == if d == doid then q else QueueOf(queues, d)
  {
  }

  lemma OtherQueueOnArrive(arrivals: seq<Operation>, finished: set<Operation>, d: Doid, q: QueueState, op: Operation)
    requires QueueInvariant(arrivals, finished, d, q) && op.doid != d
    ensures QueueInvariant(arrivals + [op], finished, d, q)
  {
    assert forall a :: a in arrivals + [op] <==> a in arrivals || a == op;
  }

  lemma ArriveStep(sch: Schema, s: System, op: Operation)
    requires Scheduled(s) && Enabled(s, Arrive(op))
    ensures Scheduled(Next(sch, s, Arrive(op)))
  {
    hide IsIndependentOf, QueueInvariant, Settled, CanStart;
    var s' := Next(sch, s, Arrive(op));
    assert forall a :: a in s'.arrivals <==> a in s.arrivals || a == op;
    forall d
      ensures QueueInvariant(s'.arrivals, s'.finished, d, QueueOf(s'.queues, d)) && Settled(QueueOf(s'.queues, d))
    {
      QueueReplaced(s.queues, op.doid, Enqueued(QueueOf(s.queues, op.doid), op).0, d);
      if d == op.doid {
        ArriveKeeps(s.arrivals, s.finished, QueueOf(s.queues, d), op);
      } else {
        OtherQueueOnArrive(s.arrivals, s.finished, d, QueueOf(s.queues, d), op);
      }
    }
    forall a | a in s'.executed ensures !Queued(s', a) {
      QueueReplaced(s.queues, op.doid, Enqueued(QueueOf(s.queues, op.doid), op).0, a.doid);
      assert a != op;
    }
    forall d ensures SubmittedInOrder(s', d) {
      assert SubmittedInOrder(s, d);
      ArriveSubmits(s, op, d);
    }
  }

  lemma ArriveSubmits(s: System, op: Operation, doid: Doid)
    requires SubmittedInOrder(s, doid)
    ensures var (queues, begun) := Handled(s.queues, op);
            OnObject(s.submitted + begun, doid) + QueueOf(queues, doid).queue == OnObject(s.arrivals + [op], doid)
  {
    hide Enqueued, OnObject;
    var (q, begun) := Enqueued(QueueOf(s.queues, op.doid), op);
    EnqueuedTakesFromFront(QueueOf(s.queues, op.doid), op);
    OnObjectConcat(s.submitted, begun, doid);
    OnObjectConcat(s.arrivals, [op], doid);
    OnObjectAll([op], op.doid, doid);
    BegunOnArrival(QueueOf(s.queues, op.doid), op);
    OnObjectAll(begun, op.doid, doid);
    QueueReplaced(s.queues, op.doid, q, doid);
    if op.doid == doid {
      assert OnObject(s.submitted, doid) + begun + q.queue == OnObject(s.submitted, doid) + (begun + q.queue);
      assert OnObject(s.submitted, doid) + (QueueOf(s.queues, doid).queue + [op]) == OnObject(s.submitted, doid) + QueueOf(s.queues, doid).queue + [op];
    } else {
      assert OnObject(s.submitted, doid) + [] == OnObject(s.submitted, doid);
      assert OnObject(s.arrivals, doid) + [] == OnObject(s.arrivals, doid);
    }
  }

  lemma BegunOnArrival(q: QueueState, op: Operation)
    ensures forall b | b in Enqueued(q, op).1 :: b == op
  {
  }

  /** Nothing is put back in a queue when an operation ends. */
  lemma {:induction false} DrainedFromFront(q: QueueState)
    ensures forall op | op in Drained(q).0.queue :: op in q.queue
    decreases |q.queue|
  {
    if q.queue != [] && CanStart(q.running, q.queue[0]) {
      DrainedFromFront(QueueState(q.queue[1..], q.running + {q.queue[0]}));
    }
  }

  lemma OtherQueueOnFinish(arrivals: seq<Operation>, finished: set<Operation>, d: Doid, q: QueueState, op: Operation)
    requires QueueInvariant(arrivals, finished, d, q) && op.doid != d
    ensures QueueInvariant(arrivals, finished + {op}, d, q)
  {
  }

  lemma FinishStep(sch: Schema, s: System, op: Operation)
    requires Scheduled(s) && Enabled(s, Finish(op))
    ensures Scheduled(Next(sch, s, Finish(op)))
  {
    hide QueueInvariant, Finalized, Settled, OnObject;
    SubmittedRuns(s, op);
    var s' := Next(sch, s, Finish(op));
    var q := QueueOf(s.queues, op.doid);
    forall d
      ensures QueueInvariant(s'.arrivals, s'.finished, d, QueueOf(s'.queues, d)) && Settled(QueueOf(s'.queues, d))
    {
      QueueReplaced(s.queues, op.doid, Finalized(q, op).0, d);
      if d == op.doid {
        FinalizeKeeps(s.arrivals, s.finished, q, op);
      } else {
        OtherQueueOnFinish(s.arrivals, s.finished, d, QueueOf(s.queues, d), op);
      }
    }
    FinalizedFromFront(q, op);
    forall a | a in s'.executed ensures !Queued(s', a) {
      QueueReplaced(s.queues, op.doid, Finalized(q, op).0, a.doid);
      assert !Queued(s, a);
    }
    FinalizedTakesFromFront(q, op);
    QueuedHere(s, op.doid);
    assert forall b | b in Finalized(q, op).1 :: b in Finalized(q, op).1 + Finalized(q, op).0.queue;
    forall d ensures SubmittedInOrder(s', d) {
      assert SubmittedInOrder(s, d);
      SubmittedMore(s.submitted, Finalized(q, op).1, s.queues, op.doid, Finalized(q, op).0, d);
    }
  }

  lemma QueuedHere(s: System, doid: Doid)
    requires Scheduled(s)
    ensures forall b | b in QueueOf(s.queues, doid).queue :: b.doid == doid
  {
    assert QueueInvariant(s.arrivals, s.finished, doid, QueueOf(s.queues, doid));
  }

  lemma FinalizedFromFront(q: QueueState, op: Operation)
    ensures forall o | o in Finalized(q, op).0.queue :: o in q.queue
  {
    DrainedFromFront(q.(running := q.running - {op}));
  }

  lemma RejectStep(sch: Schema, s: System, op: Operation)
    requires Scheduled(s) && Enabled(s, Reject(op))
    ensures Next(sch, s, Reject(op)) == s
  {
    var q := QueueOf(s.queues, op.doid);
    assert QueueInvariant(s.arrivals, s.finished, op.doid, q) && Settled(q);
    RejectKeeps(q, op);
    assert WithQueue(s.queues, op.doid, q) == s.queues;
  }

  // ----- The order of execution -----

  ghost predicate Ordered(sch: Schema, store: Store, s: System) {
    Recorded(sch, store, s) && Faithful(sch, store, s)
  }

  /** The backend's store and results are those of the operations in the order it chose. */
  ghost predicate Recorded(sch: Schema, store: Store, s: System) {
    && s.store == SerialStore(sch, store, s.executed)
    && s.results == SerialReplies(sch, store, s.executed)
    && (forall i, j | 0 <= i < j < |s.executed| :: s.executed[i] != s.executed[j])
    && (forall id | id in s.routed :: id in s.results && s.routed[id] == s.results[id])
    && (forall op | op in s.finished :: op.id in s.routed)
  }

  /** Running what is left in order of arrival would end as if everything had run in that order. */
  ghost predicate Faithful(sch: Schema, store: Store, s: System) {
    SameOutcome(sch, store, s.executed + Waiting(s.arrivals, Set(s.executed)), s.arrivals)
  }

  function Set(ops: seq<Operation>): set<Operation> {
    set op | op in ops
  }

  /** Whatever arrived before a running operation and has not had its effect is
      independent of it. */
  lemma EarlierIsIndependent(s: System, op: Operation, earlier: Operation)
    requires Scheduled(s) && Running(s, op) && op in s.arrivals
    requires earlier in s.arrivals && earlier.id < op.id && earlier !in s.executed
    ensures IsIndependentOf(earlier, op)
  {
    assert QueueInvariant(s.arrivals, s.finished, op.doid, QueueOf(s.queues, op.doid));
  }

  lemma PerformStep(sch: Schema, s: System, op: Operation)
    requires Scheduled(s) && Enabled(s, Perform(op))
    ensures Scheduled(Next(sch, s, Perform(op)))
  {
    var s' := Next(sch, s, Perform(op));
    SubmittedAreBegun(s, op);
    assert forall d :: SubmittedInOrder(s, d) ==> SubmittedInOrder(s', d);
    assert forall o :: o in s'.executed <==> o in s.executed || o == op;
    assert forall d :: QueueInvariant(s.arrivals, s.finished, d, QueueOf(s.queues, d)) ==>
      QueueInvariant(s'.arrivals, s'.finished, d, QueueOf(s'.queues, d));
  }

  /** The heart of the proof: the operation that had its effect may be taken out of the
      waiting list and put first, because it commutes with everything it overtakes. */
  lemma PerformMovesForward(sch: Schema, store: Store, s: System, op: Operation)
    requires Scheduled(s) && Enabled(s, Perform(op))
    ensures SameOutcome(sch, store, s.executed + Waiting(s.arrivals, Set(s.executed)),
                        s.executed + [op] + Waiting(s.arrivals, Set(s.executed) + {op}))
  {
    SubmittedRuns(s, op);
    RunningHasArrived(s, op);
    var done := Set(s.executed);
    var early := Waiting(s.arrivals[..op.id], done);
    WaitingAround(s.arrivals, done, op);
    WaitingMembers(s.arrivals[..op.id], done);
    forall o | o in early ensures IsIndependentOf(o, op) && o.id != op.id {
      EarlierIsIndependent(s, op, o);
    }
    MoveWithin(sch, store, s.executed, early, op, Waiting(s.arrivals[op.id + 1..], done));
  }

  lemma RunningHasArrived(s: System, op: Operation)
    requires Scheduled(s) && Running(s, op)
    ensures Arrived(s.arrivals, op)
  {
    assert QueueInvariant(s.arrivals, s.finished, op.doid, QueueOf(s.queues, op.doid));
  }

  lemma NoReplyYet(sch: Schema, store: Store, s: System, op: Operation)
    requires Scheduled(s) && Enabled(s, Perform(op))
    ensures op.id !in SerialReplies(sch, store, s.executed)
  {
    hide SerialReplies, QueueInvariant, Settled;
    SubmittedRuns(s, op);
    RunningHasArrived(s, op);
    RepliesAreForOperations(sch, store, s.executed);
    assert forall o | o in s.executed :: o.id != op.id;
  }

  lemma PerformKeepsRecord(sch: Schema, store: Store, s: System, op: Operation)
    requires Scheduled(s) && Recorded(sch, store, s) && Enabled(s, Perform(op))
    ensures Recorded(sch, store, Next(sch, s, Perform(op)))
  {
    hide Execute, SerialReplies, SerialStore;
    SerialOneMore(sch, store, s.executed, op);
    NoReplyYet(sch, store, s, op);
  }

  lemma PerformKeepsFaith(sch: Schema, store: Store, s: System, op: Operation)
    requires Scheduled(s) && Faithful(sch, store, s) && Enabled(s, Perform(op))
    ensures Faithful(sch, store, Next(sch, s, Perform(op)))
  {
    hide Waiting, SerialReplies, SerialStore;
    PerformMovesForward(sch, store, s, op);
    assert Set(s.executed + [op]) == Set(s.executed) + {op};
  }

  lemma WaitingAround(arrivals: seq<Operation>, done: set<Operation>, op: Operation)
    requires (forall i | 0 <= i < |arrivals| :: arrivals[i].id == i) && Arrived(arrivals, op) && op !in done
    ensures var early, late := Waiting(arrivals[..op.id], done), Waiting(arrivals[op.id + 1..], done);
            Waiting(arrivals, done) == early + [op] + late && Waiting(arrivals, done + {op}) == early + late
  {
    hide Waiting;
    var before, after := arrivals[..op.id], arrivals[op.id + 1..];
    assert arrivals == before + ([op] + after);
    WaitingSplit(before, op, after, done);
    WaitingSplit(before, op, after, done + {op});
    WaitingWithout(before, done, op);
    WaitingWithout(after, done, op);
  }

  lemma ArriveKeepsOrder(sch: Schema, store: Store, s: System, op: Operation)
    requires Scheduled(s) && Ordered(sch, store, s) && Enabled(s, Arrive(op))
    ensures Ordered(sch, store, Next(sch, s, Arrive(op)))
  {
    hide SerialReplies, SerialStore, Execute, Waiting, QueueInvariant;
    var done := Set(s.executed);
    WaitingOneMore(s.arrivals, op, done);
    assert op !in done;
    SameOutcomeOneMore(sch, store, s.executed + Waiting(s.arrivals, done), s.arrivals, op);
    assert s.executed + Waiting(s.arrivals, done) + [op] == s.executed + Waiting(s.arrivals + [op], done);
  }

  lemma FinishKeepsOrder(sch: Schema, store: Store, s: System, op: Operation)
    requires Ordered(sch, store, s) && Enabled(s, Finish(op))
    ensures Ordered(sch, store, Next(sch, s, Finish(op)))
  {
    var s' := Next(sch, s, Finish(op));
    assert forall id :: id in s'.routed ==> id in s.routed || id == op.id;
  }

  ghost predicate Good(sch: Schema, store: Store, s: System) {
    Scheduled(s) && Ordered(sch, store, s)
  }

  lemma StartIsGood(sch: Schema, store: Store)
    ensures Good(sch, store, Start(store))
  {
  }

  lemma StepKeepsGood(sch: Schema, store: Store, s: System, e: Event)
    requires Good(sch, store, s) && Enabled(s, e)
    ensures Good(sch, store, Next(sch, s, e))
  {
    match e
    case Arrive(op) =>
      ArriveStep(sch, s, op);
      ArriveKeepsOrder(sch, store, s, op);
    case Perform(op) =>
      PerformStep(sch, s, op);
      PerformKeepsRecord(sch, store, s, op);
      PerformKeepsFaith(sch, store, s, op);
    case Finish(op) =>
      FinishStep(sch, s, op);
      FinishKeepsOrder(sch, store, s, op);
    case Reject(op) =>
      RejectStep(sch, s, op);
  }

  lemma {:induction false} RunKeepsGood(sch: Schema, store: Store, s: System, run: seq<Event>)
    requires Good(sch, store, s) && Possible(sch, s, run)
    ensures Good(sch, store, After(sch, s, run))
    decreases |run|
  {
    if run != [] {
      StepKeepsGood(sch, store, s, run[0]);
      RunKeepsGood(sch, store, Next(sch, s, run[0]), run[1..]);
    }
  }
}
