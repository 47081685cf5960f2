/** What the operations mean to whoever sends them: writes are read back, an update is
    all or nothing, and what was checked when it was stored passes the check on reading. */
module StoredValues {
  import opened DBOperation
  import opened DatabaseBackend
  import opened SerialExecution

  /** The fields that reading one object after another operation would find. */
  function FieldsOf(store: Store, doid: Doid): FieldValues {
    if doid in store then store[doid].fields else map[]
  }

  /** The operation finds its object, and the fields it changes or tests are its class's. */
  predicate Applicable(sch: Schema, store: Store, op: Operation) {
    op.doid in store &&
    match op.kind
    case SetFields(changes) => Belongs(sch, store[op.doid].dclass, changes.Keys)
    case UpdateFields(changes, tests, _) => Belongs(sch, store[op.doid].dclass, changes.Keys + tests.Keys)
    case _ => store[op.doid].dclass in sch.classes
  }

  /** A set is read back field by field: the new value, nothing where it was blank, and
      the old value of every field it does not name. Other objects stay as they are. */
  lemma WritesAreReadBack(sch: Schema, store: Store, op: Operation, f: FieldId, other: Doid)
    requires op.kind.SetFields? && Applicable(sch, store, op)
    ensures var after := Execute(sch, store, op).0;
            && (f in op.kind.setFields && op.kind.setFields[f] != [] ==>
                  f in FieldsOf(after, op.doid) && FieldsOf(after, op.doid)[f] == op.kind.setFields[f])
            && (f in op.kind.setFields && op.kind.setFields[f] == [] ==> f !in FieldsOf(after, op.doid))
            && (f !in op.kind.setFields ==>
                  (f in FieldsOf(after, op.doid) <==> f in FieldsOf(store, op.doid))
                  && FieldOrBlank(FieldsOf(after, op.doid), f) == FieldOrBlank(FieldsOf(store, op.doid), f))
            && (other != op.doid ==> Fetch(after, other) == Fetch(store, other))
            && op.doid in after && after[op.doid].dclass == store[op.doid].dclass
  {
  }

  /** The three answers of a conditional update, each for its own reason; it changes the
      object exactly when every criterion holds, and then as a set would. */
  lemma UpdateIsAllOrNothing(sch: Schema, store: Store, op: Operation)
    requires op.kind.UpdateFields?
    ensures var (after, messages) := Execute(sch, store, op);
            var stored := FieldsOf(store, op.doid);
            var holds := forall f | f in op.kind.criteria :: FieldOrBlank(stored, f) == op.kind.criteria[f];
            && (UpdateSuccess(op.sender, op.context) in messages <==> Applicable(sch, store, op) && holds)
            && (UpdateFailure(op.sender, op.context) in messages <==> !Applicable(sch, store, op))
            && ((exists current :: UpdateMismatch(op.sender, op.context, op.kind.multi, current) in messages)
                  <==> Applicable(sch, store, op) && !holds)
            && after == (if Applicable(sch, store, op) && holds
                         then Execute(sch, store, op.(kind := SetFields(op.kind.setFields))).0 else store)
  {
    hide Apply;
    PutBack(store, op.doid);
    AnnouncementsAreNoReplies(sch, op, op.kind.setFields);
    if Applicable(sch, store, op) && !Satisfies(store[op.doid].fields, op.kind.criteria) {
      var reply := Mismatch(op, store[op.doid].fields);
      assert Execute(sch, store, op).1 == [reply];
      assert UpdateMismatch(op.sender, op.context, op.kind.multi, reply.current) in [reply];
    }
  }

  lemma AnnouncementsAreNoReplies(sch: Schema, op: Operation, changes: FieldValues)
    ensures forall m | m in Announce(sch, op, changes) :: m.FieldsDeleted? || m.FieldsChanged?
  {
  }

  /** A mismatch tells a value for exactly the tested fields that are stored and not
      blank, and it is the stored one. */
  lemma MismatchTellsStoredValues(op: Operation, stored: FieldValues, f: FieldId)
    requires op.kind.UpdateFields?
    ensures var told := Mismatch(op, stored).current;
            && (f in told <==> f in op.kind.criteria && f in stored && stored[f] != [])
            && (f in told ==> told[f] == stored[f])
  {
  }

  /** After a delete there is nothing to get or to update, and only another get or delete
      leaves it so as well. */
  lemma DeletedIsGone(sch: Schema, store: Store, op: Operation, next: Operation)
    requires op.kind.DeleteObject? && next.doid == op.doid
    ensures var after := Execute(sch, store, op).0;
            && op.doid !in after && Execute(sch, after, next).0 == after
            && (next.kind.GetObject? || next.kind.GetFields? ==> Execute(sch, after, next).1 == [GetFailure(next.sender, next.context)])
            && (next.kind.UpdateFields? ==> Execute(sch, after, next).1 == [UpdateFailure(next.sender, next.context)])
  {
    var after := Execute(sch, store, op).0;
    assert after - {op.doid} == after;
  }

  // ----- What is announced on the object's channel -----

  /** The operation finds its object, and writes to it. */
  predicate Writing(sch: Schema, store: Store, op: Operation) {
    && Applicable(sch, store, op)
    && (op.kind.SetFields? || op.kind.UpdateFields?)
    && (op.kind.UpdateFields? ==> forall f | f in op.kind.criteria :: FieldOrBlank(store[op.doid].fields, f) == op.kind.criteria[f])
  }

  predicate Deletes(messages: seq<Message>, f: FieldId) {
    exists m :: m in messages && m.FieldsDeleted? && f in m.gone
  }

  predicate Changes(messages: seq<Message>, f: FieldId) {
    exists m :: m in messages && m.FieldsChanged? && f in m.changed
  }

  /** Each field a writing operation names is announced: as deleted if it is not stored
      afterwards, and else as changed, with the value stored. Nothing else is. */
  lemma AnnouncesWhatIsWritten(sch: Schema, store: Store, op: Operation, f: FieldId)
    ensures var (after, messages) := Execute(sch, store, op);
            var fields := FieldsOf(after, op.doid);
            var announced := sch.broadcast && Writing(sch, store, op) && f in op.kind.setFields;
            && (Deletes(messages, f) <==> announced && f !in fields)
            && (Changes(messages, f) <==> announced && f in fields)
            && (forall m | m in messages && m.FieldsChanged? && f in m.changed :: f in fields && m.changed[f] == fields[f])
            && (forall m | m in messages && (m.FieldsDeleted? || m.FieldsChanged?) :: m.doid == op.doid && m.cause == op.sender)
  {
    hide Announce, Deletes, Changes;
    if Writing(sch, store, op) {
      var changes := op.kind.setFields;
      AnnounceOne(sch, op, changes, f);
      var announcements := Announce(sch, op, changes);
      var (after, messages) := Execute(sch, store, op);
      assert FieldsOf(after, op.doid) == Apply(store[op.doid].fields, changes);
      if op.kind.UpdateFields? {
        var reply := UpdateSuccess(op.sender, op.context);
        OneMoreReply(announcements, reply, f);
        assert messages == announcements + [reply];
        assert forall m | m in messages :: m in announcements || m == reply;
      } else {
        assert messages == announcements;
      }
    } else {
      OnlyReplies(sch, store, op);
      NoneAnnounced(Execute(sch, store, op).1, f);
    }
  }

  lemma OneMoreReply(messages: seq<Message>, reply: Message, f: FieldId)
    requires !reply.FieldsDeleted? && !reply.FieldsChanged?
    ensures Deletes(messages + [reply], f) <==> Deletes(messages, f)
    ensures Changes(messages + [reply], f) <==> Changes(messages, f)
  {
    assert forall m :: m in messages + [reply] <==> m in messages || m == reply;
  }

  lemma NoneAnnounced(messages: seq<Message>, f: FieldId)
    requires forall m | m in messages :: !m.FieldsDeleted? && !m.FieldsChanged?
    ensures !Deletes(messages, f) && !Changes(messages, f)
  {
  }

  /** An operation that does not write announces no fields. */
  lemma OnlyReplies(sch: Schema, store: Store, op: Operation)
    requires !Writing(sch, store, op)
    ensures var (after, messages) := Execute(sch, store, op);
            && |messages| <= 1
            && (forall m | m in messages :: !m.FieldsDeleted? && !m.FieldsChanged?)
            && (op.kind.DeleteObject? ==> after == store - {op.doid} && messages == if sch.broadcast then [DeleteNotice(op.doid, op.sender)] else [])
            && (!op.kind.DeleteObject? ==> after == store && forall m | m in messages :: !m.DeleteNotice?)
  {
    PutBack(store, op.doid);
  }

  lemma AnnounceOne(sch: Schema, op: Operation, changes: FieldValues, f: FieldId)
    ensures var messages := Announce(sch, op, changes);
            && (Deletes(messages, f) <==> sch.broadcast && f in changes && changes[f] == [])
            && (Changes(messages, f) <==> sch.broadcast && f in changes && changes[f] != [])
            && (forall m | m in messages && m.FieldsChanged? && f in m.changed :: f in changes && m.changed[f] == changes[f] != [])
            && (forall m | m in messages :: (m.FieldsDeleted? || m.FieldsChanged?) && m.doid == op.doid && m.cause == op.sender)
  {
    var gone := set f | f in changes && changes[f] == [];
    var changed := map f | f in changes && changes[f] != [] :: changes[f];
    var messages := Announce(sch, op, changes);
    if sch.broadcast && f in changes {
      if changes[f] == [] {
        assert f in gone && messages[0] == FieldsDeleted(op.doid, op.sender, gone);
      } else {
        assert f in changed && messages[|messages|-1] == FieldsChanged(op.doid, op.sender, changed);
      }
    }
  }

  /** Somebody with a copy of an object's fields, who follows what is announced. */
  function Followed(fields: FieldValues, messages: seq<Message>, doid: Doid): FieldValues {
    if messages == [] then fields
    else
      var before := Followed(fields, messages[..|messages|-1], doid);
      match messages[|messages|-1]
      case DeleteNotice(d, _) => if d == doid then map[] else before
      case FieldsDeleted(d, _, gone) => if d == doid then before - gone else before
      case FieldsChanged(d, _, changed) => if d == doid then before + changed else before
      case _ => before
  }

  lemma {:induction false} FollowedConcat(fields: FieldValues, a: seq<Message>, b: seq<Message>, doid: Doid)
    ensures Followed(fields, a + b, doid) == Followed(Followed(fields, a, doid), b, doid)
    decreases |b|
  {
    if b == [] {
      assert a + b == a;
    } else {
      assert (a + b)[..|a + b|-1] == a + b[..|b|-1];
      FollowedConcat(fields, a, b[..|b|-1], doid);
    }
  }

  lemma FollowedOne(fields: FieldValues, m: Message, doid: Doid)
    ensures Followed(fields, [m], doid) ==
              match m
              case DeleteNotice(d, _) => if d == doid then map[] else fields
              case FieldsDeleted(d, _, gone) => if d == doid then fields - gone else fields
              case FieldsChanged(d, _, changed) => if d == doid then fields + changed else fields
              case _ => fields
  {
    assert [m][..0] == [];
  }

  lemma AnnouncementIsFollowed(sch: Schema, op: Operation, fields: FieldValues, changes: FieldValues, doid: Doid)
    requires sch.broadcast
    ensures Followed(fields, Announce(sch, op, changes), doid) == if doid == op.doid then Apply(fields, changes) else fields
  {
    hide Followed, Apply;
    var gone := set f | f in changes && changes[f] == [];
    var changed := map f | f in changes && changes[f] != [] :: changes[f];
    var deletions := if gone == {} then [] else [FieldsDeleted(op.doid, op.sender, gone)];
    var updates := if changed == map[] then [] else [FieldsChanged(op.doid, op.sender, changed)];
    FollowedConcat(fields, deletions, updates, doid);
    NothingFollowed(fields, doid);
    FollowedOne(fields, FieldsDeleted(op.doid, op.sender, gone), doid);
    var left := Followed(fields, deletions, doid);
    NothingFollowed(left, doid);
    ApplyInSteps(left, changes);
    FollowedOne(left, FieldsChanged(op.doid, op.sender, changed), doid);
    ApplyInSteps(fields, changes);
  }

  lemma ApplyInSteps(fields: FieldValues, changes: FieldValues)
    ensures var gone := set f | f in changes && changes[f] == [];
            var changed := map f | f in changes && changes[f] != [] :: changes[f];
            Apply(fields, changes) == (fields - gone) + changed
    ensures fields - {} == fields
    ensures fields + map[] == fields
  {
  }

  lemma NothingFollowed(fields: FieldValues, doid: Doid)
    ensures Followed(fields, [], doid) == fields
  {
  }

  /** Where changes are announced, whoever follows them keeps a true copy: after each
      operation, of whatever kind, it has the fields that are stored. */
  lemma CopyIsKept(sch: Schema, store: Store, op: Operation, doid: Doid)
    requires sch.broadcast
    ensures var (after, messages) := Execute(sch, store, op);
            Followed(FieldsOf(store, doid), messages, doid) == FieldsOf(after, doid)
  {
    hide Followed, Announce, Apply, Mismatch, GetReply;
    var messages := Execute(sch, store, op).1;
    var fields := FieldsOf(store, doid);
    NothingFollowed(fields, doid);
    if Writing(sch, store, op) {
      AnnouncementIsFollowed(sch, op, fields, op.kind.setFields, doid);
      if op.kind.UpdateFields? {
        FollowedConcat(fields, Announce(sch, op, op.kind.setFields), [UpdateSuccess(op.sender, op.context)], doid);
        FollowedOne(Followed(fields, Announce(sch, op, op.kind.setFields), doid), UpdateSuccess(op.sender, op.context), doid);
      }
    } else {
      OnlyReplies(sch, store, op);
      if messages != [] {
        FollowedOne(fields, messages[0], doid);
        assert messages == [messages[0]] && messages[0] in messages;
      }
    }
  }

  function MessagesOf(sch: Schema, store: Store, ops: seq<Operation>): seq<Message> {
    if ops == [] then []
    else MessagesOf(sch, store, ops[..|ops|-1]) + Execute(sch, SerialStore(sch, store, ops[..|ops|-1]), ops[|ops|-1]).1
  }

  /** Hence so after any number of operations run one at a time. */
  lemma {:induction false} CopyIsKeptThroughout(sch: Schema, store: Store, ops: seq<Operation>, doid: Doid)
    requires sch.broadcast
    ensures Followed(FieldsOf(store, doid), MessagesOf(sch, store, ops), doid) == FieldsOf(SerialStore(sch, store, ops), doid)
    decreases |ops|
  {
    hide Execute, Followed, FieldsOf;
    var fields := FieldsOf(store, doid);
    if ops == [] {
      NothingFollowed(fields, doid);
    } else {
      var init := ops[..|ops|-1];
      var before := SerialStore(sch, store, init);
      CopyIsKeptThroughout(sch, store, init, doid);
      CopyIsKept(sch, before, ops[|ops|-1], doid);
      FollowedConcat(fields, MessagesOf(sch, store, init), Execute(sch, before, ops[|ops|-1]).1, doid);
    }
  }

  // ----- Validation on reading -----

  /** Every stored value unpacks as the type of its field. */
  ghost predicate StoreUnpacks(sch: Schema, store: Store) {
    forall d, f | d in store && f in store[d].fields :: sch.unpacks(f, store[d].fields[f])
  }

  /** The values an operation writes have been unpacked from its request. */
  ghost predicate WritesUnpacked(sch: Schema, op: Operation) {
    (op.kind.SetFields? || op.kind.UpdateFields?) ==>
      forall f | f in op.kind.setFields && op.kind.setFields[f] != [] :: sch.unpacks(f, op.kind.setFields[f])
  }

  lemma ExecuteKeepsUnpacking(sch: Schema, store: Store, op: Operation)
    requires StoreUnpacks(sch, store) && WritesUnpacked(sch, op)
    ensures StoreUnpacks(sch, Execute(sch, store, op).0)
  {
    var after := Execute(sch, store, op).0;
    forall d, f | d in after && f in after[d].fields ensures sch.unpacks(f, after[d].fields[f]) {
      if d != op.doid {
        assert after[d] == store[d];
      }
    }
  }

  lemma {:induction false} SerialStoreUnpacks(sch: Schema, store: Store, ops: seq<Operation>)
    requires StoreUnpacks(sch, store) && forall op | op in ops :: WritesUnpacked(sch, op)
    ensures StoreUnpacks(sch, SerialStore(sch, store, ops))
    decreases |ops|
  {
    if ops != [] {
      hide Execute, StoreUnpacks, WritesUnpacked;
      assert ops[|ops|-1] in ops;
      SerialStoreUnpacks(sch, store, ops[..|ops|-1]);
      ExecuteKeepsUnpacking(sch, SerialStore(sch, store, ops[..|ops|-1]), ops[|ops|-1]);
    }
  }

  /** The fields a get asks for, as far as the object has them. */
  function Asked(get: Operation, fields: FieldValues): FieldValues
    requires get.kind.GetObject? || get.kind.GetFields?
  {
    if get.kind.GetObject? then fields else map f | f in get.kind.getFields && f in fields :: fields[f]
  }

  /** The answer to a get with nothing but what is stored; only a single field that is not
      there makes it a failure. */
  function Told(get: Operation, obj: Object): Message
    requires get.kind.GetObject? || get.kind.GetFields?
  {
    var fields := Asked(get, obj.fields);
    if get.kind.GetObject? then GetAllReply(get.sender, get.context, obj.dclass, fields)
    else if !get.kind.single then GetFieldsReply(get.sender, get.context, fields)
    else if fields == map[] then GetFailure(get.sender, get.context)
    else GetFieldReply(get.sender, get.context, fields)
  }

  /** The validation on reading rejects nothing if all that is stored unpacks. */
  lemma FindsWhatIsStored(sch: Schema, store: Store, get: Operation)
    requires StoreUnpacks(sch, store) && (get.kind.GetObject? || get.kind.GetFields?)
    requires get.doid in store && store[get.doid].dclass in sch.classes
    ensures Execute(sch, store, get).1 == [Told(get, store[get.doid])]
  {
    var obj := store[get.doid];
    assert forall f | f in obj.fields :: sch.unpacks(f, obj.fields[f]);
    assert GetReply(sch, get, obj) == Told(get, obj);
  }
}
