/** What each operation does to the stored objects, and what it answers. */
module DatabaseBackend {
  import opened DBOperation

  datatype Object = Object(dclass: ClassId, fields: FieldValues)
  type Store = map<Doid, Object>

  /** What an operation needs to know of its server: the fields of each class of the
      loaded file, which stored values unpack as their field's type, and whether
      changes are announced on the object's channel. */
  datatype Schema = Schema(classes: map<ClassId, set<FieldId>>, unpacks: (FieldId, Value) -> bool, broadcast: bool)

  /** The value of a field, where an absent field reads as blank. */
  function FieldOrBlank(fields: FieldValues, f: FieldId): Value {
    if f in fields then fields[f] else []
  }

  /** set_field for each value, del_field for each blank one. */
  function Apply(fields: FieldValues, changes: FieldValues): FieldValues {
    map f | f in fields.Keys + changes.Keys && (f in changes ==> changes[f] != []) ::
      if f in changes then changes[f] else fields[f]
  }

  predicate Satisfies(fields: FieldValues, criteria: FieldValues) {
    forall f | f in criteria :: FieldOrBlank(fields, f) == criteria[f]
  }

  /** announce_fields. */
  function Announce(sch: Schema, op: Operation, changes: FieldValues): seq<Message> {
    var gone := set f | f in changes && changes[f] == [];
    var changed := map f | f in changes && changes[f] != [] :: changes[f];
    var deletions := if gone == {} then [] else [FieldsDeleted(op.doid, op.sender, gone)];
    var updates := if changed == map[] then [] else [FieldsChanged(op.doid, op.sender, changed)];
    if sch.broadcast then deletions + updates else []
  }

  /** The reply to a get that found its object. */
  function GetReply(sch: Schema, op: Operation, obj: Object): Message
    requires op.kind.GetObject? || op.kind.GetFields?
  {
    var fields := if op.kind.GetObject? then obj.fields
                  else map f | f in op.kind.getFields && f in obj.fields :: obj.fields[f];
    if exists f | f in fields :: !sch.unpacks(f, fields[f]) then GetFailure(op.sender, op.context)
    else if op.kind.GetObject? then GetAllReply(op.sender, op.context, obj.dclass, fields)
    else if !op.kind.single then GetFieldsReply(op.sender, op.context, fields)
    else if fields == map[] then GetFailure(op.sender, op.context)
    else GetFieldReply(op.sender, op.context, fields)
  }

  /** The reply to a conditional update whose criteria do not hold: the fields it
      tested that are not blank, with their stored values. */
  function Mismatch(op: Operation, fields: FieldValues): Message
    requires op.kind.UpdateFields?
  {
    UpdateMismatch(op.sender, op.context, op.kind.multi,
                   map f | f in op.kind.criteria && FieldOrBlank(fields, f) != [] :: FieldOrBlank(fields, f))
  }

  /** Every field named belongs to the class of the object, and that class exists. */
  predicate Belongs(sch: Schema, dclass: ClassId, fields: set<FieldId>) {
    dclass in sch.classes && fields <= sch.classes[dclass]
  }

  /** An object of the store, or none. */
  datatype Stored = Absent | Present(obj: Object)

  function Fetch(store: Store, doid: Doid): Stored {
    if doid in store then Present(store[doid]) else Absent
  }

  function Put(store: Store, doid: Doid, o: Stored): Store {
    if o.Present? then store[doid := o.obj] else store - {doid}
  }

  lemma PutBack(store: Store, doid: Doid)
    ensures Put(store, doid, Fetch(store, doid)) == store
  {
    assert doid !in store ==> store - {doid} == store;
    assert doid in store ==> store[doid := store[doid]] == store;
  }

  /** The meaning of one operation on the object it names: what is stored
      afterwards, and the messages its completion routes. */
  function ExecuteOn(sch: Schema, o: Stored, op: Operation): (Stored, seq<Message>) {
    match op.kind
    case DeleteObject =>
      (Absent, if sch.broadcast then [DeleteNotice(op.doid, op.sender)] else [])
    case GetObject =>
      if o.Present? && o.obj.dclass in sch.classes
      then (o, [GetReply(sch, op, o.obj)])
      else (o, [GetFailure(op.sender, op.context)])
    case GetFields(_, _) =>
      if o.Present? && o.obj.dclass in sch.classes
      then (o, [GetReply(sch, op, o.obj)])
      else (o, [GetFailure(op.sender, op.context)])
    case SetFields(changes) =>
      if o.Present? && Belongs(sch, o.obj.dclass, changes.Keys)
      then (Change(o, changes), Announce(sch, op, changes))
      else (o, [])
    case UpdateFields(changes, tests, _) =>
      if o.Absent? || !Belongs(sch, o.obj.dclass, changes.Keys + tests.Keys)
      then (o, [UpdateFailure(op.sender, op.context)])
      else if !Satisfies(o.obj.fields, tests)
      then (o, [Mismatch(op, o.obj.fields)])
      else (Change(o, changes), Announce(sch, op, changes) + [UpdateSuccess(op.sender, op.context)])
  }

  function Change(o: Stored, changes: FieldValues): Stored
    requires o.Present?
  {
    Present(o.obj.(fields := Apply(o.obj.fields, changes)))
  }

  /** The meaning of one operation on the whole store. */
  function Execute(sch: Schema, store: Store, op: Operation): (Store, seq<Message>) {
    var (after, messages) := ExecuteOn(sch, Fetch(store, op.doid), op);
    (Put(store, op.doid, after), messages)
  }

  // ----- Commutation -----

  /** Two operations commute on a store: in either order they leave the same store
      and each gives the same messages. */
  predicate Commute(sch: Schema, store: Store, a: Operation, b: Operation) {
    var (sa, ma) := Execute(sch, store, a);
    var (sb, mb) := Execute(sch, store, b);
    var (sab, mb') := Execute(sch, sa, b);
    var (sba, ma') := Execute(sch, sb, a);
    sab == sba && ma == ma' && mb == mb'
  }

  ghost predicate CommuteOn(sch: Schema, o: Stored, a: Operation, b: Operation) {
    var (oa, ma) := ExecuteOn(sch, o, a);
    var (ob, mb) := ExecuteOn(sch, o, b);
    var (oab, mb') := ExecuteOn(sch, oa, b);
    var (oba, ma') := ExecuteOn(sch, ob, a);
    oab == oba && ma == ma' && mb == mb'
  }

  lemma ChangesCommute(o: Stored, c: FieldValues, d: FieldValues)
    requires o.Present? && c.Keys !! d.Keys
    ensures Change(Change(o, c), d) == Change(Change(o, d), c)
  {
    assert Apply(Apply(o.obj.fields, c), d) == Apply(Apply(o.obj.fields, d), c);
  }

  lemma ChangeKeepsGetReply(sch: Schema, op: Operation, o: Stored, changes: FieldValues)
    requires o.Present? && op.kind.GetFields? && op.kind.getFields !! changes.Keys
    ensures GetReply(sch, op, Change(o, changes).obj) == GetReply(sch, op, o.obj)
  {
    var after := Apply(o.obj.fields, changes);
    assert (map f | f in op.kind.getFields && f in after :: after[f])
        == (map f | f in op.kind.getFields && f in o.obj.fields :: o.obj.fields[f]);
  }

  lemma ChangeKeepsCriteria(op: Operation, o: Stored, changes: FieldValues)
    requires o.Present? && op.kind.UpdateFields? && op.kind.criteria.Keys !! changes.Keys
    ensures Satisfies(Change(o, changes).obj.fields, op.kind.criteria) <==> Satisfies(o.obj.fields, op.kind.criteria)
    ensures Mismatch(op, Change(o, changes).obj.fields) == Mismatch(op, o.obj.fields)
  {
    assert forall f | f in op.kind.criteria ::
      FieldOrBlank(Apply(o.obj.fields, changes), f) == FieldOrBlank(o.obj.fields, f);
  }

  lemma GetCommutes(sch: Schema, o: Stored, a: Operation, b: Operation)
    requires a.kind.GetObject? || a.kind.GetFields?
    requires a.doid == b.doid && IsIndependentOf(a, b)
    ensures CommuteOn(sch, o, a, b)
  {
    hide Apply, Announce, Mismatch, Satisfies, GetReply;
    if o.Present? && (b.kind.SetFields? || b.kind.UpdateFields?) {
      ChangeKeepsGetReply(sch, a, o, b.kind.setFields);
    }
  }

  lemma SetCommutes(sch: Schema, o: Stored, a: Operation, b: Operation)
    requires a.kind.SetFields? && (b.kind.SetFields? || b.kind.UpdateFields?)
    requires a.doid == b.doid && IsIndependentOf(a, b)
    ensures CommuteOn(sch, o, a, b)
  {
    hide Apply, Announce, Mismatch, Satisfies;
    if o.Present? {
      ChangesCommute(o, a.kind.setFields, b.kind.setFields);
      if b.kind.UpdateFields? { ChangeKeepsCriteria(b, o, a.kind.setFields); }
    }
  }

  lemma UpdatesCommute(sch: Schema, o: Stored, a: Operation, b: Operation)
    requires a.kind.UpdateFields? && b.kind.UpdateFields?
    requires a.doid == b.doid && IsIndependentOf(a, b)
    ensures CommuteOn(sch, o, a, b)
  {
    hide Apply, Announce, Mismatch, Satisfies;
    if o.Present? {
      ChangesCommute(o, a.kind.setFields, b.kind.setFields);
      ChangeKeepsCriteria(a, o, b.kind.setFields);
      ChangeKeepsCriteria(b, o, a.kind.setFields);
    }
  }

  lemma IndependentOnOneObject(sch: Schema, o: Stored, a: Operation, b: Operation)
    requires a.doid == b.doid && IsIndependentOf(a, b) && Rank(a.kind) <= Rank(b.kind)
    ensures CommuteOn(sch, o, a, b)
  {
    if a.kind.GetObject? || a.kind.GetFields? {
      GetCommutes(sch, o, a, b);
    } else if a.kind.SetFields? {
      SetCommutes(sch, o, a, b);
    } else {
      UpdatesCommute(sch, o, a, b);
    }
  }

  lemma PutTwice(store: Store, doid: Doid, o: Stored, p: Stored)
    ensures Fetch(Put(store, doid, o), doid) == o
    ensures Put(Put(store, doid, o), doid, p) == Put(store, doid, p)
  {
  }

  lemma PutApart(store: Store, d: Doid, o: Stored, e: Doid, p: Stored)
    requires d != e
    ensures Fetch(Put(store, d, o), e) == Fetch(store, e)
    ensures Put(Put(store, d, o), e, p) == Put(Put(store, e, p), d, o)
  {
  }

  /** The safety of the relation: operations that claim to be independent commute on
      every store, replies and criteria mismatches included. */
  lemma IndependentOperationsCommute(sch: Schema, store: Store, a: Operation, b: Operation)
    requires IsIndependentOf(a, b)
    ensures Commute(sch, store, a, b)
  {
    hide ExecuteOn, IsIndependentOf, Put, Fetch;
    var oa, ob := ExecuteOn(sch, Fetch(store, a.doid), a).0, ExecuteOn(sch, Fetch(store, b.doid), b).0;
    if a.doid == b.doid {
      IndependenceIsSymmetric(a, b);
      if Rank(a.kind) <= Rank(b.kind) {
        IndependentOnOneObject(sch, Fetch(store, a.doid), a, b);
      } else {
        IndependentOnOneObject(sch, Fetch(store, a.doid), b, a);
      }
      PutTwice(store, a.doid, oa, ExecuteOn(sch, oa, b).0);
      PutTwice(store, a.doid, ob, ExecuteOn(sch, ob, a).0);
    } else {
      PutApart(store, a.doid, oa, b.doid, ob);
      PutApart(store, b.doid, ob, a.doid, oa);
    }
  }

  // ----- The backend and the callbacks it makes -----

  /** DBOperationGet::on_complete: filter the snapshot, check what is left field by
      field, and reply. */
  method OnGetComplete(sch: Schema, op: Operation, snapshot: Object) returns (reply: Message)
    requires op.kind.GetObject? || op.kind.GetFields?
    ensures reply == GetReply(sch, op, snapshot)
  {
    var response := map[];
    if op.kind.GetObject? {
      response := snapshot.fields;
    } else {
      var todo := op.kind.getFields;
      while todo != {}
        invariant todo <= op.kind.getFields
        invariant response == map f | f in op.kind.getFields - todo && f in snapshot.fields :: snapshot.fields[f]
      {
        var f :| f in todo;
        todo := todo - {f};
        if f in snapshot.fields {
          response := response[f := snapshot.fields[f]];
        }
      }
    }
    var unchecked := response.Keys;
    while unchecked != {}
      invariant unchecked <= response.Keys
      invariant forall f | f in response.Keys - unchecked :: sch.unpacks(f, response[f])
    {
      var f :| f in unchecked;
      unchecked := unchecked - {f};
      if !sch.unpacks(f, response[f]) {
        return GetFailure(op.sender, op.context);
      }
    }
    assert !exists f | f in response :: !sch.unpacks(f, response[f]);
    if op.kind.GetObject? {
      reply := GetAllReply(op.sender, op.context, snapshot.dclass, response);
    } else if !op.kind.single {
      reply := GetFieldsReply(op.sender, op.context, response);
    } else if response == map[] {
      reply := GetFailure(op.sender, op.context);
    } else {
      reply := GetFieldReply(op.sender, op.context, response);
    }
  }

  /** DBOperationUpdate::on_criteria_mismatch. The snapshot may hold blank entries
      that reading it has inserted; they never reach the reply. */
  method OnCriteriaMismatch(op: Operation, snapshot: FieldValues, ghost stored: FieldValues) returns (reply: Message)
    requires op.kind.UpdateFields?
    requires forall f :: FieldOrBlank(snapshot, f) == FieldOrBlank(stored, f)
    ensures reply == Mismatch(op, stored)
  {
    var mismatched: FieldValues := map[];
    var todo := op.kind.criteria.Keys;
    while todo != {}
      invariant todo <= op.kind.criteria.Keys
      invariant mismatched == map f | f in op.kind.criteria.Keys - todo && FieldOrBlank(stored, f) != [] :: FieldOrBlank(stored, f)
    {
      var f :| f in todo;
      todo := todo - {f};
      assert FieldOrBlank(snapshot, f) == FieldOrBlank(stored, f);
      if f in snapshot && snapshot[f] != [] {
        mismatched := mismatched[f := snapshot[f]];
      }
    }
    reply := UpdateMismatch(op.sender, op.context, op.kind.multi, mismatched);
  }

  lemma ApplyOneMore(fields: FieldValues, changes: FieldValues, todo: set<FieldId>, f: FieldId)
    requires f in todo && todo <= changes.Keys
    ensures Apply(fields, changes - (todo - {f}))
         == (if changes[f] != [] then Apply(fields, changes - todo)[f := changes[f]]
             else Apply(fields, changes - todo) - {f})
  {
  }

  /** The adaptor over the synchronous storage, one atomic submit for each operation. */
  class OldDatabaseBackend {
    const sch: Schema
    var objects: Store

    constructor (sch: Schema, objects: Store)
      ensures this.sch == sch && this.objects == objects
    {
      this.sch := sch;
      this.objects := objects;
    }

    /** The loop at the end of SET_FIELDS and UPDATE_FIELDS: one set_field or
        del_field for each entry, in whatever order. */
    method StoreFields(doid: Doid, changes: FieldValues)
      requires doid in objects
      modifies this
      ensures objects == Put(old(objects), doid, Change(Fetch(old(objects), doid), changes))
    {
      ghost var before := objects[doid].fields;
      var todo := changes.Keys;
      assert Apply(before, changes - todo) == before;
      while todo != {}
        invariant todo <= changes.Keys
        invariant doid in objects && objects - {doid} == old(objects) - {doid}
        invariant objects[doid] == old(objects)[doid].(fields := Apply(before, changes - todo))
      {
        var f :| f in todo;
        var now := objects[doid].fields;
        ApplyOneMore(before, changes, todo, f);
        todo := todo - {f};
        if changes[f] != [] {
          objects := objects[doid := objects[doid].(fields := now[f := changes[f]])];
        } else {
          objects := objects[doid := objects[doid].(fields := now - {f})];
        }
      }
      assert changes - {} == changes;
      assert objects == (old(objects) - {doid})[doid := objects[doid]];
      assert old(objects)[doid := objects[doid]] == (old(objects) - {doid})[doid := objects[doid]];
    }

    method Submit(op: Operation) returns (messages: seq<Message>)
      modifies this
      ensures (objects, messages) == Execute(sch, old(objects), op)
    {
      PutBack(objects, op.doid);
      match op.kind
      case DeleteObject =>
        objects := objects - {op.doid};
        messages := if sch.broadcast then [DeleteNotice(op.doid, op.sender)] else [];
      case GetObject =>
        messages := SubmitGet(op);
      case GetFields(_, _) =>
        messages := SubmitGet(op);
      case SetFields(changes) =>
        if op.doid !in objects || !Belongs(sch, objects[op.doid].dclass, changes.Keys) {
          return [];
        }
        StoreFields(op.doid, changes);
        messages := Announce(sch, op, changes);
      case UpdateFields(changes, tests, _) =>
        messages := SubmitUpdate(op, changes, tests);
    }

    method SubmitGet(op: Operation) returns (messages: seq<Message>)
      requires op.kind.GetObject? || op.kind.GetFields?
      ensures (objects, messages) == Execute(sch, objects, op)
    {
      PutBack(objects, op.doid);
      if op.doid !in objects || objects[op.doid].dclass !in sch.classes {
        return [GetFailure(op.sender, op.context)];
      }
      var reply := OnGetComplete(sch, op, objects[op.doid]);
      messages := [reply];
    }

    method SubmitUpdate(op: Operation, changes: FieldValues, tests: FieldValues) returns (messages: seq<Message>)
      requires op.kind.UpdateFields? && op.kind.setFields == changes && op.kind.criteria == tests
      modifies this
      ensures (objects, messages) == Execute(sch, old(objects), op)
    {
      PutBack(objects, op.doid);
      if op.doid !in objects || !Belongs(sch, objects[op.doid].dclass, changes.Keys + tests.Keys) {
        return [UpdateFailure(op.sender, op.context)];
      }
      ghost var stored := objects[op.doid].fields;
      var snapshot := objects[op.doid].fields;
      var todo := tests.Keys;
      while todo != {}
        invariant todo <= tests.Keys
        invariant forall f :: FieldOrBlank(snapshot, f) == FieldOrBlank(stored, f)
        invariant forall f | f in tests.Keys - todo :: FieldOrBlank(stored, f) == tests[f]
      {
        var f :| f in todo;
        todo := todo - {f};
        if f !in snapshot {
          snapshot := snapshot[f := []];
        }
        if snapshot[f] != tests[f] {
          assert FieldOrBlank(snapshot, f) == FieldOrBlank(stored, f) != tests[f];
          var reply := OnCriteriaMismatch(op, snapshot, stored);
          return [reply];
        }
      }
      StoreFields(op.doid, changes);
      messages := Announce(sch, op, changes) + [UpdateSuccess(op.sender, op.context)];
    }
  }
}
