/** Running operations one at a time, and which reorderings of them cannot be told apart. */
module SerialExecution {
  import opened DBOperation
  import opened DatabaseBackend

  function SerialStore(sch: Schema, store: Store, ops: seq<Operation>): Store {
    if ops == [] then store
    else Execute(sch, SerialStore(sch, store, ops[..|ops|-1]), ops[|ops|-1]).0
  }

  /** The messages of each operation, by its identity. */
  function SerialReplies(sch: Schema, store: Store, ops: seq<Operation>): map<nat, seq<Message>> {
    if ops == [] then map[]
    else
      var before := ops[..|ops|-1];
      var last := ops[|ops|-1];
      SerialReplies(sch, store, before)[last.id := Execute(sch, SerialStore(sch, store, before), last).1]
  }

  /** Two orders that end in the same store with the same messages for every operation. */
  ghost predicate SameOutcome(sch: Schema, store: Store, a: seq<Operation>, b: seq<Operation>) {
    SerialStore(sch, store, a) == SerialStore(sch, store, b) && SerialReplies(sch, store, a) == SerialReplies(sch, store, b)
  }

  lemma SerialOneMore(sch: Schema, store: Store, ops: seq<Operation>, op: Operation)
    ensures SerialStore(sch, store, ops + [op]) == Execute(sch, SerialStore(sch, store, ops), op).0
    ensures SerialReplies(sch, store, ops + [op])
         == SerialReplies(sch, store, ops)[op.id := Execute(sch, SerialStore(sch, store, ops), op).1]
  {
    assert (ops + [op])[..|ops|] == ops;
  }

  lemma SameOutcomeOneMore(sch: Schema, store: Store, a: seq<Operation>, b: seq<Operation>, op: Operation)
    requires SameOutcome(sch, store, a, b)
    ensures SameOutcome(sch, store, a + [op], b + [op])
  {
    SerialOneMore(sch, store, a, op);
    SerialOneMore(sch, store, b, op);
  }

  lemma {:induction false} SameOutcomeExtends(sch: Schema, store: Store, a: seq<Operation>, b: seq<Operation>, more: seq<Operation>)
    requires SameOutcome(sch, store, a, b)
    ensures SameOutcome(sch, store, a + more, b + more)
    decreases |more|
  {
    if more == [] {
      assert a + more == a && b + more == b;
    } else {
      hide SerialReplies, SerialStore;
      var init, last := more[..|more|-1], more[|more|-1];
      SameOutcomeExtends(sch, store, a, b, init);
      SameOutcomeOneMore(sch, store, a + init, b + init, last);
      assert a + init + [last] == a + more && b + init + [last] == b + more;
    }
  }

  lemma SwapLastTwo(sch: Schema, store: Store, ops: seq<Operation>, a: Operation, b: Operation)
    requires IsIndependentOf(a, b) && a.id != b.id
    ensures SameOutcome(sch, store, ops + [a] + [b], ops + [b] + [a])
  {
    hide SerialReplies, SerialStore, Execute, IsIndependentOf;
    SerialOneMore(sch, store, ops, a);
    SerialOneMore(sch, store, ops + [a], b);
    SerialOneMore(sch, store, ops, b);
    SerialOneMore(sch, store, ops + [b], a);
    IndependentOperationsCommute(sch, SerialStore(sch, store, ops), a, b);
  }

  /** An operation independent of everything it is moved across may run first. */
  lemma {:induction false} MoveForward(sch: Schema, store: Store, done: seq<Operation>, skipped: seq<Operation>, op: Operation)
    requires forall s | s in skipped :: IsIndependentOf(s, op) && s.id != op.id
    ensures SameOutcome(sch, store, done + skipped + [op], done + [op] + skipped)
    decreases |skipped|
  {
    if skipped == [] {
      assert done + skipped + [op] == done + [op] + skipped;
    } else {
      hide SerialReplies, SerialStore;
      var n := |skipped| - 1;
      var init, last := skipped[..n], skipped[n];
      MoveForward(sch, store, done, init, op);
      SameOutcomeExtends(sch, store, done + init + [op], done + [op] + init, [last]);
      SwapLastTwo(sch, store, done + init, last, op);
      assert done + init + [last] + [op] == done + skipped + [op];
      assert done + [op] + init + [last] == done + [op] + skipped;
    }
  }

  lemma MoveWithin(sch: Schema, store: Store, done: seq<Operation>, early: seq<Operation>, op: Operation, late: seq<Operation>)
    requires forall s | s in early :: IsIndependentOf(s, op) && s.id != op.id
    ensures SameOutcome(sch, store, done + (early + [op] + late), done + [op] + (early + late))
  {
    hide SerialReplies, SerialStore;
    Regroup(done, early, [op], late);
    Regroup(done, [op], early, late);
    MoveForward(sch, store, done, early, op);
    SameOutcomeExtends(sch, store, done + early + [op], done + [op] + early, late);
  }

  lemma Regroup(a: seq<Operation>, b: seq<Operation>, c: seq<Operation>, d: seq<Operation>)
    ensures a + b + c + d == a + (b + c + d) == a + b + (c + d)
  {
  }

  /** Later operations do not change the messages of earlier ones. */
  lemma {:induction false} RepliesStand(sch: Schema, store: Store, ops: seq<Operation>, more: seq<Operation>, id: nat)
    requires id in SerialReplies(sch, store, ops)
    requires forall m | m in more :: m.id != id
    ensures id in SerialReplies(sch, store, ops + more)
    ensures SerialReplies(sch, store, ops + more)[id] == SerialReplies(sch, store, ops)[id]
    decreases |more|
  {
    if more == [] {
      assert ops + more == ops;
    } else {
      var n := |more| - 1;
      RepliesStand(sch, store, ops, more[..n], id);
      SerialOneMore(sch, store, ops + more[..n], more[n]);
      assert ops + more[..n] + [more[n]] == ops + more;
    }
  }

  lemma {:induction false} RepliesAreForOperations(sch: Schema, store: Store, ops: seq<Operation>)
    ensures forall op | op in ops :: op.id in SerialReplies(sch, store, ops)
    ensures forall id | id in SerialReplies(sch, store, ops) :: exists op :: op in ops && op.id == id
    decreases |ops|
  {
    if ops != [] {
      var n := |ops| - 1;
      RepliesAreForOperations(sch, store, ops[..n]);
      assert ops == ops[..n] + [ops[n]];
    }
  }

  /** The operations of a list that are not done, in order. */
  function Waiting(ops: seq<Operation>, done: set<Operation>): seq<Operation> {
    if ops == [] then []
    else Waiting(ops[..|ops|-1], done) + (if ops[|ops|-1] in done then [] else [ops[|ops|-1]])
  }

  lemma {:induction false} WaitingOfConcat(a: seq<Operation>, b: seq<Operation>, done: set<Operation>)
    ensures Waiting(a + b, done) == Waiting(a, done) + Waiting(b, done)
    decreases |b|
  {
    if b == [] {
      assert a + b == a;
    } else {
      var n := |b| - 1;
      assert (a + b)[..|a| + n] == a + b[..n];
      WaitingOfConcat(a, b[..n], done);
    }
  }

  lemma WaitingOneMore(ops: seq<Operation>, op: Operation, done: set<Operation>)
    ensures Waiting(ops + [op], done) == Waiting(ops, done) + (if op in done then [] else [op])
  {
    assert (ops + [op])[..|ops|] == ops;
  }

  lemma WaitingSplit(before: seq<Operation>, op: Operation, after: seq<Operation>, done: set<Operation>)
    ensures Waiting(before + ([op] + after), done)
         == Waiting(before, done) + (if op in done then [] else [op]) + Waiting(after, done)
  {
    WaitingOfConcat(before, [op] + after, done);
    WaitingOfConcat([op], after, done);
    WaitingOne(op, done);
  }

  lemma WaitingOne(op: Operation, done: set<Operation>)
    ensures Waiting([op], done) == if op in done then [] else [op]
  {
    assert [op][..0] == [];
  }

  lemma {:induction false} WaitingMembers(ops: seq<Operation>, done: set<Operation>)
    ensures forall op :: op in Waiting(ops, done) <==> op in ops && op !in done
    decreases |ops|
  {
    if ops != [] {
      var n := |ops| - 1;
      assert ops == ops[..n] + [ops[n]];
      WaitingMembers(ops[..n], done);
    }
  }

  lemma {:induction false} WaitingWithout(ops: seq<Operation>, done: set<Operation>, op: Operation)
    requires op !in ops
    ensures Waiting(ops, done + {op}) == Waiting(ops, done)
    decreases |ops|
  {
    if ops != [] {
      assert ops[|ops|-1] in ops;
      assert forall o | o in ops[..|ops|-1] :: o in ops;
      WaitingWithout(ops[..|ops|-1], done, op);
    }
  }
}
