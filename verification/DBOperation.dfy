/** The operations a client may run on one stored object, and when two of them
    may run at the same time. */
module DBOperation {
  import DClass

  type Value = DClass.Bytes
  type FieldId = nat
  type Doid = nat
  type ClassId = nat
  type Channel = nat
  type FieldValues = map<FieldId, Value>

  /** What an operation asks for. A blank value in setFields deletes the field;
      a blank criterion asks that the field be absent or blank. */
  datatype Kind =
    | DeleteObject
    | GetObject
    | GetFields(getFields: set<FieldId>, single: bool)
    | SetFields(setFields: FieldValues)
    | UpdateFields(setFields: FieldValues, criteria: FieldValues, multi: bool)

  /** id stands for the identity of the operation object: no two are equal. */
  datatype Operation = Operation(id: nat, sender: Channel, context: nat, doid: Doid, kind: Kind)

  /** The messages an operation routes when it ends. */
  datatype Message =
    | DeleteNotice(doid: Doid, cause: Channel)
    | FieldsDeleted(doid: Doid, cause: Channel, gone: set<FieldId>)
    | FieldsChanged(doid: Doid, cause: Channel, changed: FieldValues)
    | GetFailure(to: Channel, context: nat)
    | GetAllReply(to: Channel, context: nat, dclass: ClassId, fields: FieldValues)
    | GetFieldReply(to: Channel, context: nat, fields: FieldValues)
    | GetFieldsReply(to: Channel, context: nat, fields: FieldValues)
    | UpdateSuccess(to: Channel, context: nat)
    | UpdateFailure(to: Channel, context: nat)
    | UpdateMismatch(to: Channel, context: nat, multi: bool, current: FieldValues)

  /** The depth of the double dispatch: each kind only defers to kinds of lower rank. */
  function Rank(k: Kind): nat {
    match k
    case DeleteObject => 0
    case GetObject => 0
    case GetFields(_, _) => 0
    case SetFields(_) => 1
    case UpdateFields(_, _, _) => 2
  }

  /** is_independent_of, one branch for each override. */
  predicate IsIndependentOf(a: Operation, b: Operation)
    decreases Rank(a.kind)
  {
    if a.doid != b.doid then
      true
    else match a.kind
      case DeleteObject => false
      case GetObject =>
        b.kind.GetObject? || b.kind.GetFields?
      case GetFields(wanted, _) =>
        (match b.kind
         case GetObject => true
         case GetFields(_, _) => true
         case SetFields(changes) => wanted !! changes.Keys
         case UpdateFields(changes, _, _) => wanted !! changes.Keys
         case DeleteObject => false)
      case SetFields(changes) =>
        (match b.kind
         case GetObject => IsIndependentOf(b, a)
         case GetFields(_, _) => IsIndependentOf(b, a)
         case SetFields(others) => changes.Keys !! others.Keys
         case UpdateFields(others, tested, _) => changes.Keys !! others.Keys && changes.Keys !! tested.Keys
         case DeleteObject => false)
      case UpdateFields(changes, tests, _) =>
        (match b.kind
         case GetObject => IsIndependentOf(b, a)
         case GetFields(_, _) => IsIndependentOf(b, a)
         case SetFields(_) => IsIndependentOf(b, a)
         case UpdateFields(others, tested, _) =>
           changes.Keys !! others.Keys && changes.Keys !! tested.Keys && others.Keys !! tests.Keys
         case DeleteObject => false)
  }

  /** The part of an object an operation looks at, or changes. */
  datatype Footprint = Nothing | Only(fields: set<FieldId>) | Everything

  function Reads(k: Kind): Footprint {
    match k
    case DeleteObject => Nothing
    case GetObject => Everything
    case GetFields(wanted, _) => Only(wanted)
    case SetFields(_) => Nothing
    case UpdateFields(_, tests, _) => Only(tests.Keys)
  }

  function Writes(k: Kind): Footprint {
    match k
    case DeleteObject => Everything
    case GetObject => Nothing
    case GetFields(_, _) => Nothing
    case SetFields(changes) => Only(changes.Keys)
    case UpdateFields(changes, _, _) => Only(changes.Keys)
  }

  predicate Overlap(a: Footprint, b: Footprint) {
    match (a, b)
    case (Nothing, _) => false
    case (_, Nothing) => false
    case (Only(f), Only(g)) => !(f !! g)
    case (_, _) => true
  }

  /** One of the two writes what the other reads or writes. */
  predicate Interfere(j: Kind, k: Kind) {
    Overlap(Writes(j), Writes(k)) || Overlap(Writes(j), Reads(k)) || Overlap(Reads(j), Writes(k))
  }

  /** The three hand-written overrides, double dispatch included, decide exactly
      whether the footprints of the two operations interfere. */
  lemma IndependenceIsNoInterference(a: Operation, b: Operation)
    ensures IsIndependentOf(a, b) <==> a.doid != b.doid || !Interfere(a.kind, b.kind)
  {
    match a.kind
    case DeleteObject =>
    case GetObject =>
    case GetFields(_, _) =>
    case SetFields(_) =>
    case UpdateFields(_, _, _) =>
  }

  /** The contract stated in the header: a->is_independent_of(b) == b->is_independent_of(a). */
  lemma IndependenceIsSymmetric(a: Operation, b: Operation)
    ensures IsIndependentOf(a, b) <==> IsIndependentOf(b, a)
  {
    IndependenceIsNoInterference(a, b);
    IndependenceIsNoInterference(b, a);
  }
}
