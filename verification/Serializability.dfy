/** The promises of the scheduler, for every run from an arbitrary store. */
module Serializability {
  import opened DBOperation
  import opened DatabaseBackend
  import opened DBOperationQueue
  import opened DatabaseServer
  import opened SerialExecution
  import opened Scheduler

  /** Any given sequence of operations completes as if they had run one at a time:
      the messages routed for each operation are the ones it would route if everything
      had run in order of arrival, and so is the store once every arrival has had its effect. */
  lemma RunsAreSerializable(sch: Schema, store: Store, run: seq<Event>)
    requires Possible(sch, Start(store), run)
    ensures var s := After(sch, Start(store), run);
            var serial := SerialReplies(sch, store, s.arrivals);
            && (forall op | op in s.finished :: op.id in s.routed)
            && (forall id | id in s.routed :: id in serial && s.routed[id] == serial[id])
            && ((forall op | op in s.arrivals :: op in s.executed) ==> s.store == SerialStore(sch, store, s.arrivals))
  {
    StartIsGood(sch, store);
    RunKeepsGood(sch, store, Start(store), run);
    var s := After(sch, Start(store), run);
    forall id | id in s.routed
      ensures id in SerialReplies(sch, store, s.arrivals) && s.routed[id] == SerialReplies(sch, store, s.arrivals)[id]
    {
      ResultIsSerial(sch, store, s, id);
    }
    if forall op | op in s.arrivals :: op in s.executed {
      WaitingMembers(s.arrivals, Set(s.executed));
      NothingWaiting(Waiting(s.arrivals, Set(s.executed)));
      assert s.executed + [] == s.executed;
    }
  }

  lemma NothingWaiting(ops: seq<Operation>)
    ensures (forall op :: op !in ops) ==> ops == []
  {
    assert ops != [] ==> ops[0] in ops;
  }

  lemma ResultIsSerial(sch: Schema, store: Store, s: System, id: nat)
    requires Good(sch, store, s) && id in s.results
    ensures id in SerialReplies(sch, store, s.arrivals) && s.results[id] == SerialReplies(sch, store, s.arrivals)[id]
  {
    hide Waiting, SerialReplies, SerialStore, QueueInvariant, Settled;
    var waiting := Waiting(s.arrivals, Set(s.executed));
    WaitingMembers(s.arrivals, Set(s.executed));
    RepliesAreForOperations(sch, store, s.executed);
    var op :| op in s.executed && op.id == id;
    assert forall w | w in waiting :: w in s.arrivals && op in s.arrivals && w.id != id;
    RepliesStand(sch, store, s.executed, waiting, id);
  }

  /** At every step: running operations on one object are pairwise independent, and of
      two operations in conflict the later is still waiting or the earlier has finished. */
  lemma ConflictsAreOrdered(sch: Schema, store: Store, run: seq<Event>, a: Operation, b: Operation)
    requires Possible(sch, Start(store), run)
    ensures var s := After(sch, Start(store), run);
            && (Running(s, a) && Running(s, b) && a != b ==> IsIndependentOf(a, b))
            && (a in s.arrivals && b in s.arrivals && a.id < b.id && !IsIndependentOf(a, b) ==> Queued(s, b) || a in s.finished)
            && (a in s.arrivals && b in s.arrivals && a.id < b.id && a.doid == b.doid && Queued(s, a) ==> Queued(s, b))
  {
    StartIsGood(sch, store);
    RunKeepsGood(sch, store, Start(store), run);
    var s := After(sch, Start(store), run);
    assert QueueInvariant(s.arrivals, s.finished, a.doid, QueueOf(s.queues, a.doid));
  }

  /** No wakeup is lost, and the map holds exactly the objects with operations outstanding. */
  lemma NoLostWakeup(sch: Schema, store: Store, run: seq<Event>, doid: Doid)
    requires Possible(sch, Start(store), run)
    ensures var s := After(sch, Start(store), run);
            var q := QueueOf(s.queues, doid);
            && (q.queue != [] ==> exists r :: r in q.running && !IsIndependentOf(q.queue[0], r))
            && (doid in s.queues <==> exists op :: op in s.arrivals && op.doid == doid && op !in s.finished)
  {
    StartIsGood(sch, store);
    RunKeepsGood(sch, store, Start(store), run);
    var s := After(sch, Start(store), run);
    var q := QueueOf(s.queues, doid);
    assert QueueInvariant(s.arrivals, s.finished, doid, q) && Settled(q);
    if doid in s.queues {
      if q.queue != [] {
        assert q.queue[0] in q.queue;
      } else {
        var r :| r in q.running;
        assert Arrived(s.arrivals, r);
      }
    }
  }

  // ----- What the backend is given -----

  predicate IdsIncrease(ops: seq<Operation>) {
    forall i, j | 0 <= i < j < |ops| :: ops[i].id < ops[j].id
  }

  /** If the operations on each object stand in order of id, none stands twice. */
  lemma {:induction false} NoneTwice(ops: seq<Operation>)
    requires forall d :: IdsIncrease(OnObject(ops, d))
    ensures forall i, j | 0 <= i < j < |ops| :: ops[i] != ops[j]
    decreases |ops|
  {
    if ops != [] {
      var init, last := ops[..|ops|-1], ops[|ops|-1];
      forall d ensures IdsIncrease(OnObject(init, d)) {
        var all, some := OnObject(ops, d), OnObject(init, d);
        assert forall i | 0 <= i < |some| :: some[i] == all[i];
      }
      NoneTwice(init);
      OnObjectMembers(init, last.doid);
      var some, all := OnObject(init, last.doid), OnObject(ops, last.doid);
      assert all == some + [last];
      assert forall i | 0 <= i < |some| :: some[i] == all[i] && all[i].id < all[|some|].id;
      assert last !in some;
    }
  }

  /** What is handed to the backend is, object by object, what has arrived, in order, short
      of what waits; so no operation is handed over twice, and of two in conflict the later
      is handed over only once the earlier has finished. */
  lemma SubmissionsFollowArrivals(sch: Schema, store: Store, run: seq<Event>, doid: Doid, a: Operation, b: Operation)
    requires Possible(sch, Start(store), run)
    ensures var s := After(sch, Start(store), run);
            && OnObject(s.submitted, doid) + QueueOf(s.queues, doid).queue == OnObject(s.arrivals, doid)
            && (a in s.submitted <==> a in s.arrivals && !Queued(s, a))
            && (forall i, j | 0 <= i < j < |s.submitted| :: s.submitted[i] != s.submitted[j])
            && IdsIncrease(OnObject(s.submitted, doid))
            && (a in s.arrivals && b in s.submitted && a.id < b.id && !IsIndependentOf(a, b) ==> a in s.finished)
  {
    hide After, Possible;
    StartIsGood(sch, store);
    RunKeepsGood(sch, store, Start(store), run);
    var s := After(sch, Start(store), run);
    SubmittedAreBegun(s, a);
    SubmittedAreBegun(s, b);
    ConflictsAreOrdered(sch, store, run, a, b);
    forall d ensures IdsIncrease(OnObject(s.submitted, d)) {
      SubmittedInOrderOfId(s, d);
    }
    NoneTwice(s.submitted);
    assert SubmittedInOrder(s, doid);
  }

  lemma SubmittedInOrderOfId(s: System, doid: Doid)
    requires Scheduled(s)
    ensures IdsIncrease(OnObject(s.submitted, doid))
  {
    hide QueueInvariant, Settled;
    OnceOnly(s.arrivals, doid);
    assert SubmittedInOrder(s, doid);
    var some, all := OnObject(s.submitted, doid), OnObject(s.arrivals, doid);
    assert forall i | 0 <= i < |some| :: some[i] == all[i];
  }

  // ----- How long an operation waits -----

  /** The number of operations in the queue ahead of this one. */
  function Ahead(queue: seq<Operation>, op: Operation): nat
    requires op in queue
  {
    if queue[0] == op then 0 else 1 + Ahead(queue[1..], op)
  }

  /** The operations that have to end before this one is sure to have begun. */
  function Turn(s: System, op: Operation): nat
    requires Queued(s, op)
  {
    var q := QueueOf(s.queues, op.doid);
    |q.running| + Ahead(q.queue, op)
  }

  /** The operations on one object that finish during a run. */
  function Finishes(run: seq<Event>, doid: Doid): nat {
    if run == [] then 0
    else (if run[0].Finish? && run[0].op.doid == doid then 1 else 0) + Finishes(run[1..], doid)
  }

  lemma {:induction false} AheadOfAppended(queue: seq<Operation>, op: Operation, tail: seq<Operation>)
    requires op in queue
    ensures Ahead(queue + tail, op) == Ahead(queue, op)
    decreases |queue|
  {
    if queue[0] != op {
      assert (queue + tail)[1..] == queue[1..] + tail;
      AheadOfAppended(queue[1..], op, tail);
    }
  }

  /** Beginning the head moves it from the queue to the running set: the sum stays. */
  lemma {:induction false} DrainKeepsTurn(arrivals: seq<Operation>, finished: set<Operation>, doid: Doid, q: QueueState, op: Operation)
    requires QueueInvariant(arrivals, finished, doid, q)
    requires op in Drained(q).0.queue
    ensures op in q.queue && |Drained(q).0.running| + Ahead(Drained(q).0.queue, op) == |q.running| + Ahead(q.queue, op)
    decreases |q.queue|
  {
    if q.queue != [] && CanStart(q.running, q.queue[0]) {
      var q' := QueueState(q.queue[1..], q.running + {q.queue[0]});
      BeginKeeps(arrivals, finished, doid, q);
      DrainKeepsTurn(arrivals, finished, doid, q', op);
      assert q'.queue[..] == q.queue[1..];
      assert q.queue[0] in q.queue;
      assert op != q.queue[0] by {
        assert QueueInvariant(arrivals, finished, doid, q');
        assert q.queue[0] in q'.running;
      }
    }
  }

  lemma FinalizeKeepsTurn(arrivals: seq<Operation>, finished: set<Operation>, q: QueueState, ended: Operation, op: Operation)
    requires QueueInvariant(arrivals, finished, ended.doid, q) && ended in q.running
    requires op in Finalized(q, ended).0.queue
    ensures op in q.queue
    ensures |q.running| + Ahead(q.queue, op)
         == |Finalized(q, ended).0.running| + Ahead(Finalized(q, ended).0.queue, op) + 1
  {
    var rest := q.(running := q.running - {ended});
    assert QueueInvariant(arrivals, finished + {ended}, ended.doid, rest);
    if rest.queue != [] && !IsIndependentOf(ended, rest.queue[0]) {
      DrainKeepsTurn(arrivals, finished + {ended}, ended.doid, rest, op);
    }
  }

  lemma EnqueueKeepsTurn(q: QueueState, arriving: Operation, op: Operation)
    requires op in Enqueued(q, arriving).0.queue && op != arriving
    ensures op in q.queue
    ensures |q.running| + Ahead(q.queue, op)
         == |Enqueued(q, arriving).0.running| + Ahead(Enqueued(q, arriving).0.queue, op)
  {
    if !(q.queue == [] && CanStart(q.running, arriving)) {
      assert op in q.queue;
      AheadOfAppended(q.queue, op, [arriving]);
    }
  }

  /** Only the end of an operation on the same object brings the turn nearer, by one. */
  lemma StepKeepsTurn(sch: Schema, store: Store, s: System, e: Event, op: Operation)
    requires Good(sch, store, s) && Enabled(s, e) && op in s.arrivals
    requires Queued(Next(sch, s, e), op)
    ensures Queued(s, op)
    ensures Turn(s, op) == Turn(Next(sch, s, e), op) + (if e.Finish? && e.op.doid == op.doid then 1 else 0)
  {
    match e
    case Arrive(arriving) =>
      QueueReplaced(s.queues, arriving.doid, Enqueued(QueueOf(s.queues, arriving.doid), arriving).0, op.doid);
      if arriving.doid == op.doid { EnqueueKeepsTurn(QueueOf(s.queues, op.doid), arriving, op); }
    case Perform(_) =>
    case Finish(ended) =>
      QueueReplaced(s.queues, ended.doid, Finalized(QueueOf(s.queues, ended.doid), ended).0, op.doid);
      if ended.doid == op.doid {
        assert QueueInvariant(s.arrivals, s.finished, op.doid, QueueOf(s.queues, op.doid));
        FinalizeKeepsTurn(s.arrivals, s.finished, QueueOf(s.queues, op.doid), ended, op);
      }
    case Reject(rejected) =>
      RejectStep(sch, s, rejected);
  }

  lemma {:induction false} TurnCountsDown(sch: Schema, store: Store, s: System, run: seq<Event>, op: Operation)
    requires Good(sch, store, s) && Possible(sch, s, run) && op in s.arrivals
    requires Queued(After(sch, s, run), op)
    ensures Queued(s, op) && Turn(s, op) == Turn(After(sch, s, run), op) + Finishes(run, op.doid)
    decreases |run|
  {
    if run != [] {
      var s' := Next(sch, s, run[0]);
      StepKeepsGood(sch, store, s, run[0]);
      assert op in s'.arrivals;
      TurnCountsDown(sch, store, s', run[1..], op);
      StepKeepsTurn(sch, store, s, run[0], op);
    }
  }

  lemma QueuedBehindSomething(sch: Schema, store: Store, s: System, op: Operation)
    requires Good(sch, store, s) && Queued(s, op)
    ensures op in s.arrivals && Turn(s, op) >= 1
  {
    var q := QueueOf(s.queues, op.doid);
    assert QueueInvariant(s.arrivals, s.finished, op.doid, q) && Settled(q);
    assert Arrived(s.arrivals, op);
    var r :| r in q.running;
    assert |q.running| > 0;
  }

  /** Every wait ends: an operation with k operations ahead of it in the queue and r
      running has begun by the time r + k operations on its object have finished,
      whatever else happens meanwhile. */
  lemma WaitIsBounded(sch: Schema, store: Store, run: seq<Event>, more: seq<Event>, op: Operation)
    requires Possible(sch, Start(store), run) && Possible(sch, After(sch, Start(store), run), more)
    requires var s := After(sch, Start(store), run);
             Queued(s, op) && Finishes(more, op.doid) >= Turn(s, op)
    ensures !Queued(After(sch, After(sch, Start(store), run), more), op)
  {
    StartIsGood(sch, store);
    RunKeepsGood(sch, store, Start(store), run);
    var s := After(sch, Start(store), run);
    RunKeepsGood(sch, store, s, more);
    var s' := After(sch, s, more);
    QueuedBehindSomething(sch, store, s, op);
    if Queued(s', op) {
      QueuedBehindSomething(sch, store, s', op);
      TurnCountsDown(sch, store, s, more, op);
    }
  }
}
