/** The fields of a set or update request, as the database reads them from the datagram,
    and what a get tells of them later. */
module RequestFields {
  import DClass
  import opened DatagramIterator
  import opened DatagramReader
  import opened Unpacking
  import opened DBOperation
  import opened DatabaseBackend
  import opened SerialExecution
  import opened StoredValues
  import opened Scheduler
  import opened Serializability

  /** A field of the class file: its type, whether databases store it, and its default. */
  datatype FileField = FileField(dtype: DClass.DType, db: bool, default: DClass.Option<Value>)

  type ClassFile = map<FieldId, FileField>

  /** How reading the fields ends. names lists the fields whose values were taken, in the
      order of the request. Endless: the reading of a value goes on forever. */
  datatype Populated =
    | Taken(sets: FieldValues, criteria: FieldValues, names: seq<FieldId>)
    | Refused
    | Endless

  datatype Stage = Stage(sets: FieldValues, criteria: FieldValues, names: seq<FieldId>, at: nat)

  const NO_FIELDS := Stage(map[], map[], [], 0)

  /** unpack_field into the buffer of a field, which starts blank. */
  function UnpackInto(file: ClassFile, values: FieldValues, f: FieldId, data: Value, at: nat): Reading
    requires f in file
  {
    Unpack(file[f].dtype, data, at, FieldOrBlank(values, f))
  }

  /** One round of populate_set_fields. None when the request is refused. */
  datatype Round = Next(stage: Stage) | Stop(end: Populated)

  function Failed(r: Reading): Populated {
    if r.Forever? then Endless else Refused
  }

  function ReadField(file: ClassFile, data: Value, s: Stage, deleting: bool, checking: bool): (r: Round)
    requires s.at <= |data|
    ensures r.Next? ==> s.at <= r.stage.at <= |data|
    ensures r.Stop? ==> !r.end.Taken?
  {
    if s.at + 2 > |data| then Stop(Refused)
    else
      var f, at := SizeAt(data, s.at), s.at + 2;
      if f !in file then Stop(Refused)
      else if !file[f].db then
        if deleting then (if checking then Stop(Refused) else Next(s.(at := at)))
        else
          match Skip(file[f].dtype, data, at)
          case PastEnd => Stop(Refused)
          case Skipped(next) => if checking then Stop(Refused) else Next(s.(at := next))
      else if !checking then ReadValue(file, data, s.(at := at), f, deleting)
      else
        match UnpackInto(file, s.criteria, f, data, at)
        case Done(next, tested) => ReadValue(file, data, s.(criteria := s.criteria[f := tested], at := next), f, deleting)
        case failed => Stop(Failed(failed))
  }

  /** The value to store: read from the request, or the default of a field to delete. */
  function ReadValue(file: ClassFile, data: Value, s: Stage, f: FieldId, deleting: bool): (r: Round)
    requires s.at <= |data| && f in file
    ensures r.Next? ==> s.at <= r.stage.at <= |data|
    ensures r.Stop? ==> !r.end.Taken?
  {
    if deleting then
      Next(s.(sets := s.sets[f := if file[f].default.Some? then file[f].default.value else []], names := s.names + [f]))
    else
      match UnpackInto(file, s.sets, f, data, s.at)
      case Done(next, value) => Next(s.(sets := s.sets[f := value], names := s.names + [f], at := next))
      case failed => Stop(Failed(failed))
  }

  function ReadFields(file: ClassFile, data: Value, s: Stage, count: nat, deleting: bool, checking: bool): Populated
    requires s.at <= |data|
    decreases count
  {
    if count == 0 then
      if s.sets == map[] then Refused else Taken(s.sets, s.criteria, s.names)
    else
      match ReadField(file, data, s, deleting, checking)
      case Next(next) => ReadFields(file, data, next, count - 1, deleting, checking)
      case Stop(end) => end
  }

  /** populate_set_fields, at the fields of a request. */
  function Populate(file: ClassFile, data: Value, count: nat, deleting: bool, checking: bool): Populated {
    ReadFields(file, data, NO_FIELDS, count, deleting, checking)
  }

  // ----- What is taken from a request unpacks -----

  /** The check on reading: the bytes begin with a value of the field's type. */
  function Unpacks(file: ClassFile): (FieldId, Value) -> bool {
    (f: FieldId, v: Value) => f in file && Unpack(file[f].dtype, v, 0, []).Done?
  }

  ghost predicate DefaultsUnpack(file: ClassFile) {
    forall f | f in file && file[f].default.Some? && file[f].default.value != [] :: Unpacks(file)(f, file[f].default.value)
  }

  ghost predicate ValuesUnpack(file: ClassFile, values: FieldValues) {
    forall f | f in values && values[f] != [] :: Unpacks(file)(f, values[f])
  }

  /** Appending a value to bytes that begin with one, or to none. */
  lemma AppendedUnpacks(t: DClass.DType, data: Value, at: nat, buffer: Value)
    requires at <= |data| && Unpack(t, data, at, buffer).Done?
    requires buffer == [] || Unpack(t, buffer, 0, []).Done?
    ensures Unpack(t, Unpack(t, data, at, buffer).buffer, 0, []).Done?
  {
    UnpackedReadsBack(t, data, at, buffer);
    var v := data[at..Unpack(t, data, at, buffer).offset];
    if buffer == [] {
      assert [] + v == v;
    } else {
      UnpackedReadsBack(t, buffer, 0, []);
      var first := buffer[0..Unpack(t, buffer, 0, []).offset];
      assert (buffer + v)[0..0 + |first|] == first;
      ValueIsFound(t, first, buffer + v, 0, []);
    }
  }

  lemma ReadFieldUnpacks(file: ClassFile, data: Value, s: Stage, deleting: bool, checking: bool)
    requires s.at <= |data| && ValuesUnpack(file, s.sets) && (deleting ==> DefaultsUnpack(file))
    ensures var r := ReadField(file, data, s, deleting, checking);
            r.Next? ==> ValuesUnpack(file, r.stage.sets)
  {
    hide Unpack, Skip;
    var r := ReadField(file, data, s, deleting, checking);
    if r.Next? && r.stage.sets != s.sets && !deleting {
      var f := SizeAt(data, s.at);
      var at := if checking then UnpackInto(file, s.criteria, f, data, s.at + 2).offset else s.at + 2;
      AppendedUnpacks(file[f].dtype, data, at, FieldOrBlank(s.sets, f));
    }
  }

  lemma {:induction false} TakenUnpacks(file: ClassFile, data: Value, s: Stage, count: nat, deleting: bool, checking: bool)
    requires s.at <= |data| && ValuesUnpack(file, s.sets) && (deleting ==> DefaultsUnpack(file))
    ensures var p := ReadFields(file, data, s, count, deleting, checking);
            p.Taken? ==> ValuesUnpack(file, p.sets)
    decreases count
  {
    if count > 0 {
      hide ReadField, ValuesUnpack;
      ReadFieldUnpacks(file, data, s, deleting, checking);
      var r := ReadField(file, data, s, deleting, checking);
      if r.Next? { TakenUnpacks(file, data, r.stage, count - 1, deleting, checking); }
    }
  }

  /** The operation comes from a request: a set or a deletion of fields, or an update. */
  ghost predicate Requested(file: ClassFile, op: Operation) {
    match op.kind
    case SetFields(changes) => exists r :: IsSet(file, r, changes)
    case UpdateFields(changes, _, _) => exists r, checking :: IsUpdate(file, r, checking, changes)
    case _ => true
  }

  datatype Request = Request(data: Value, count: nat, deleting: bool)

  predicate IsSet(file: ClassFile, r: Request, changes: FieldValues) {
    var p := Populate(file, r.data, r.count, r.deleting, false);
    p.Taken? && p.sets == changes
  }

  predicate IsUpdate(file: ClassFile, r: Request, checking: bool, changes: FieldValues) {
    var p := Populate(file, r.data, r.count, false, checking);
    p.Taken? && p.sets == changes
  }

  lemma RequestedUnpacks(file: ClassFile, sch: Schema, op: Operation)
    requires sch.unpacks == Unpacks(file) && DefaultsUnpack(file) && Requested(file, op)
    ensures WritesUnpacked(sch, op)
  {
    hide ReadFields;
    if op.kind.SetFields? {
      var r :| IsSet(file, r, op.kind.setFields);
      TakenUnpacks(file, r.data, NO_FIELDS, r.count, r.deleting, false);
    } else if op.kind.UpdateFields? {
      var r, checking :| IsUpdate(file, r, checking, op.kind.setFields);
      TakenUnpacks(file, r.data, NO_FIELDS, r.count, false, checking);
    }
  }

  // ----- Every get tells what is stored -----

  /** The messages of one operation in a serial run are those it gives when its turn comes. */
  lemma RepliesWhenTurnComes(sch: Schema, store: Store, ops: seq<Operation>, i: nat)
    requires i < |ops| && forall j | 0 <= j < |ops| :: ops[j].id == j
    ensures i in SerialReplies(sch, store, ops)
    ensures SerialReplies(sch, store, ops)[i] == Execute(sch, SerialStore(sch, store, ops[..i]), ops[i]).1
  {
    hide SerialReplies, SerialStore, Execute;
    SerialOneMore(sch, store, ops[..i], ops[i]);
    assert ops[..i] + [ops[i]] == ops[..i + 1];
    RepliesStand(sch, store, ops[..i + 1], ops[i + 1..], i);
    assert ops[..i + 1] + ops[i + 1..] == ops;
  }

  /** In every run whose writes come from requests, every get that finishes tells exactly
      what the earlier arrivals, run one at a time, leave stored: of the whole object, of
      some fields, or of one. The validation on reading rejects none of it. */
  lemma GetsTellWhatIsStored(file: ClassFile, sch: Schema, store: Store, run: seq<Event>, get: Operation)
    requires Possible(sch, Start(store), run)
    requires sch.unpacks == Unpacks(file) && DefaultsUnpack(file) && StoreUnpacks(sch, store)
    requires forall op | op in After(sch, Start(store), run).arrivals :: Requested(file, op)
    requires get in After(sch, Start(store), run).finished && (get.kind.GetObject? || get.kind.GetFields?)
    ensures var s := After(sch, Start(store), run);
            && get.id < |s.arrivals| && get.id in s.routed
            && var before := SerialStore(sch, store, s.arrivals[..get.id]);
               s.routed[get.id] ==
                 if get.doid in before && before[get.doid].dclass in sch.classes then [Told(get, before[get.doid])]
                 else [GetFailure(get.sender, get.context)]
  {
    hide Possible, After, SerialStore, SerialReplies;
    var s := After(sch, Start(store), run);
    StartIsGood(sch, store);
    RunKeepsGood(sch, store, Start(store), run);
    RunsAreSerializable(sch, store, run);
    FinishedHasArrived(sch, store, s, get);
    var before := SerialStore(sch, store, s.arrivals[..get.id]);
    RepliesWhenTurnComes(sch, store, s.arrivals, get.id);
    forall op | op in s.arrivals[..get.id] ensures WritesUnpacked(sch, op) {
      assert op in s.arrivals;
      RequestedUnpacks(file, sch, op);
    }
    SerialStoreUnpacks(sch, store, s.arrivals[..get.id]);
    AnswerOf(sch, before, get);
  }

  lemma FinishedHasArrived(sch: Schema, store: Store, s: System, op: Operation)
    requires Good(sch, store, s) && op in s.finished
    ensures op.id < |s.arrivals| && s.arrivals[op.id] == op && op.id in s.routed
    ensures forall j | 0 <= j < |s.arrivals| :: s.arrivals[j].id == j
  {
    assert op in s.executed && op in s.arrivals;
  }

  lemma AnswerOf(sch: Schema, store: Store, get: Operation)
    requires StoreUnpacks(sch, store) && (get.kind.GetObject? || get.kind.GetFields?)
    ensures Execute(sch, store, get).1 ==
              if get.doid in store && store[get.doid].dclass in sch.classes then [Told(get, store[get.doid])]
              else [GetFailure(get.sender, get.context)]
  {
    hide GetReply, StoreUnpacks;
    if get.doid in store && store[get.doid].dclass in sch.classes { FindsWhatIsStored(sch, store, get); }
  }

  // ----- When a stored value is one value -----

  /** How often a field is named among those taken. */
  function Mentions(names: seq<FieldId>, f: FieldId): nat {
    if names == [] then 0
    else Mentions(names[..|names|-1], f) + (if names[|names|-1] == f then 1 else 0)
  }

  /** The bytes are some values of the type, one after the other. */
  ghost predicate Row(t: DClass.DType, v: Value, n: nat)
    decreases n
  {
    if n == 0 then v == []
    else exists k | 0 <= k <= |v| :: Row(t, v[..k], n - 1) && IsValue(t, v[k..])
  }

  lemma RowGrows(t: DClass.DType, v: Value, n: nat, w: Value)
    requires Row(t, v, n) && IsValue(t, w)
    ensures Row(t, v + w, n + 1)
  {
    assert (v + w)[..|v|] == v && (v + w)[|v|..] == w;
  }

  /** A field holds as many values as it is named. */
  ghost predicate JoinedAt(file: ClassFile, values: FieldValues, names: seq<FieldId>, f: FieldId) {
    && (f in values <==> Mentions(names, f) > 0)
    && (f in values ==> f in file && Row(file[f].dtype, values[f], Mentions(names, f)))
  }

  ghost predicate Joined(file: ClassFile, values: FieldValues, names: seq<FieldId>) {
    forall f :: JoinedAt(file, values, names, f)
  }

  lemma OneMoreJoins(file: ClassFile, values: FieldValues, names: seq<FieldId>, f: FieldId, data: Value, at: nat)
    requires Joined(file, values, names) && f in file && at <= |data| && UnpackInto(file, values, f, data, at).Done?
    ensures Joined(file, values[f := UnpackInto(file, values, f, data, at).buffer], names + [f])
  {
    hide Row, Mentions, IsValue, Unpack;
    var t, buffer := file[f].dtype, FieldOrBlank(values, f);
    var r := Unpack(t, data, at, buffer);
    UnpackedReadsBack(t, data, at, buffer);
    assert JoinedAt(file, values, names, f);
    NoneIsRow(t);
    RowGrows(t, buffer, Mentions(names, f), data[at..r.offset]);
    MentionsGrow(names, f);
    var values', names' := values[f := r.buffer], names + [f];
    forall g ensures JoinedAt(file, values', names', g) {
      assert JoinedAt(file, values, names, g);
    }
  }

  lemma ReadFieldJoins(file: ClassFile, data: Value, s: Stage, checking: bool)
    requires s.at <= |data| && Joined(file, s.sets, s.names) && (checking ==> Joined(file, s.criteria, s.names))
    ensures var r := ReadField(file, data, s, false, checking);
            r.Next? ==> Joined(file, r.stage.sets, r.stage.names) && (checking ==> Joined(file, r.stage.criteria, r.stage.names))
  {
    hide UnpackInto, Skip, Joined;
    var r := ReadField(file, data, s, false, checking);
    if r.Next? && r.stage.names != s.names {
      var f, at := SizeAt(data, s.at), s.at + 2;
      if checking {
        OneMoreJoins(file, s.criteria, s.names, f, data, at);
        OffsetInside(file, s.criteria, f, data, at);
        at := UnpackInto(file, s.criteria, f, data, at).offset;
      }
      OneMoreJoins(file, s.sets, s.names, f, data, at);
    }
  }

  lemma OffsetInside(file: ClassFile, values: FieldValues, f: FieldId, data: Value, at: nat)
    requires f in file && at <= |data| && UnpackInto(file, values, f, data, at).Done?
    ensures at <= UnpackInto(file, values, f, data, at).offset <= |data|
  {
  }

  lemma MentionsGrow(names: seq<FieldId>, f: FieldId)
    ensures forall g :: Mentions(names + [f], g) == Mentions(names, g) + if g == f then 1 else 0
  {
    assert (names + [f])[..|names|] == names;
  }

  lemma NoneIsRow(t: DClass.DType)
    ensures Row(t, [], 0)
  {
  }

  lemma {:induction false} TakenJoins(file: ClassFile, data: Value, s: Stage, count: nat, checking: bool)
    requires s.at <= |data| && Joined(file, s.sets, s.names) && (checking ==> Joined(file, s.criteria, s.names))
    ensures var p := ReadFields(file, data, s, count, false, checking);
            p.Taken? ==> Joined(file, p.sets, p.names) && (checking ==> Joined(file, p.criteria, p.names))
    decreases count
  {
    hide ReadField, Joined;
    if count > 0 {
      ReadFieldJoins(file, data, s, checking);
      var r := ReadField(file, data, s, false, checking);
      if r.Next? { TakenJoins(file, data, r.stage, count - 1, checking); }
    }
  }

  /** The names in a request, found by passing over what stands between them. */
  function NamesIn(file: ClassFile, data: Value, at: nat, count: nat, checking: bool): seq<FieldId>
    requires at <= |data|
    decreases count
  {
    if count == 0 || at + 2 > |data| || SizeAt(data, at) !in file then []
    else
      var f := SizeAt(data, at);
      if file[f].db then
        match EndOfValues(file[f].dtype, data, at + 2, if checking then 2 else 1)
        case Skipped(next) => [f] + NamesIn(file, data, next, count - 1, checking)
        case PastEnd => []
      else
        match Skip(file[f].dtype, data, at + 2)
        case Skipped(next) => NamesIn(file, data, next, count - 1, checking)
        case PastEnd => []
  }

  /** Where one value or several in a row end. */
  function EndOfValues(t: DClass.DType, data: Value, at: nat, n: nat): (r: Skipping)
    requires at <= |data|
    ensures r.Skipped? ==> at <= r.offset <= |data|
    decreases n
  {
    if n == 0 then Skipped(at)
    else
      match Unpack(t, data, at, [])
      case Done(next, _) => EndOfValues(t, data, next, n - 1)
      case _ => PastEnd
  }

  lemma BufferIsNoMatter(t: DClass.DType, data: Value, at: nat, buffer: Value)
    requires at <= |data| && Unpack(t, data, at, buffer).Done?
    ensures Unpack(t, data, at, []).Done? && Unpack(t, data, at, []).offset == Unpack(t, data, at, buffer).offset
  {
    Relocates(t, data, at, buffer, data, at, []);
  }

  lemma ReadFieldNames(file: ClassFile, data: Value, s: Stage, count: nat, checking: bool)
    requires s.at <= |data| && count > 0 && ReadField(file, data, s, false, checking).Next?
    ensures var next := ReadField(file, data, s, false, checking).stage;
            next.names + NamesIn(file, data, next.at, count - 1, checking) == s.names + NamesIn(file, data, s.at, count, checking)
  {
    hide Unpack, Skip;
    var f, at := SizeAt(data, s.at), s.at + 2;
    var t, next := file[f].dtype, ReadField(file, data, s, false, checking).stage;
    if file[f].db {
      if checking {
        BufferIsNoMatter(t, data, at, FieldOrBlank(s.criteria, f));
        at := Unpack(t, data, at, []).offset;
      }
      BufferIsNoMatter(t, data, at, FieldOrBlank(s.sets, f));
      assert EndOfValues(t, data, at, 1) == Skipped(next.at);
      assert EndOfValues(t, data, s.at + 2, if checking then 2 else 1) == Skipped(next.at);
      assert s.names + ([f] + NamesIn(file, data, next.at, count - 1, checking)) == s.names + [f] + NamesIn(file, data, next.at, count - 1, checking);
    }
  }

  /** The names taken are the names in the request. */
  lemma {:induction false} NamesAreRead(file: ClassFile, data: Value, s: Stage, count: nat, checking: bool)
    requires s.at <= |data| && ReadFields(file, data, s, count, false, checking).Taken?
    ensures ReadFields(file, data, s, count, false, checking).names == s.names + NamesIn(file, data, s.at, count, checking)
    decreases count
  {
    if count > 0 {
      hide ReadField, NamesIn;
      ReadFieldNames(file, data, s, count, checking);
      NamesAreRead(file, data, ReadField(file, data, s, false, checking).stage, count - 1, checking);
    }
  }

  lemma ValueHasBytes(t: DClass.DType, v: Value)
    requires IsValue(t, v)
    ensures v == [] <==> CanBeEmpty(t)
  {
    MakesProgress(t, v, 0, []);
  }

  lemma {:induction false} RowOfEmpty(t: DClass.DType, v: Value, n: nat)
    requires Row(t, v, n) && CanBeEmpty(t)
    ensures v == []
    decreases n
  {
    hide IsValue, CanBeEmpty;
    if n > 0 {
      var k :| 0 <= k <= |v| && Row(t, v[..k], n - 1) && IsValue(t, v[k..]);
      RowOfEmpty(t, v[..k], n - 1);
      ValueHasBytes(t, v[k..]);
    }
  }

  /** A row starts with a value, and what follows has bytes if the type is never empty. */
  lemma {:induction false} RowBegins(t: DClass.DType, v: Value, n: nat) returns (k: nat)
    requires Row(t, v, n) && n > 0
    ensures k <= |v| && IsValue(t, v[..k]) && (n == 1 ==> k == |v|) && (n > 1 && !CanBeEmpty(t) ==> k < |v|)
    decreases n
  {
    hide IsValue, CanBeEmpty;
    var m :| 0 <= m <= |v| && Row(t, v[..m], n - 1) && IsValue(t, v[m..]);
    if n == 1 {
      k := |v|;
      assert v[..m] == [] && v[m..] == v && v[..k] == v;
    } else {
      k := RowBegins(t, v[..m], n - 1);
      assert v[..m][..k] == v[..k];
      ValueHasBytes(t, v[m..]);
    }
  }

  /** A row of values is itself one value exactly if there is one of them, or if they have
      no bytes. */
  lemma RowIsValue(t: DClass.DType, v: Value, n: nat)
    requires Row(t, v, n) && n > 0
    ensures IsValue(t, v) <==> n == 1 || CanBeEmpty(t)
  {
    hide IsValue, CanBeEmpty, Row;
    var k := RowBegins(t, v, n);
    assert v == v[..k] + v[k..];
    if CanBeEmpty(t) {
      RowOfEmpty(t, v, n);
      assert v[..k] == v;
    } else if n == 1 {
      assert v[..k] == v;
    } else if IsValue(t, v) {
      ValuesArePrefixFree(t, v[..k], v, v[k..]);
    }
  }

  /** What a set or update request stores for a field, and what it tests the field for, is
      one value of its type exactly if the request names the field once, or the type has
      values without bytes. Otherwise the encodings are joined: a later get tells all of
      them as the field, and the test compares with all of them. */
  lemma StoredIsOneValue(file: ClassFile, data: Value, count: nat, checking: bool, f: FieldId)
    requires Populate(file, data, count, false, checking).Taken?
    ensures var p := Populate(file, data, count, false, checking);
            var named := Mentions(NamesIn(file, data, 0, count, checking), f);
            && (f in p.sets <==> named > 0) && (checking ==> (f in p.criteria <==> named > 0))
            && (named > 0 ==>
                  && f in file
                  && (IsValue(file[f].dtype, p.sets[f]) <==> named == 1 || CanBeEmpty(file[f].dtype))
                  && (checking ==> (IsValue(file[f].dtype, p.criteria[f]) <==> named == 1 || CanBeEmpty(file[f].dtype))))
  {
    hide ReadFields, Row, NamesIn, IsValue, CanBeEmpty;
    NothingIsJoined(file);
    TakenJoins(file, data, NO_FIELDS, count, checking);
    NamesAreRead(file, data, NO_FIELDS, count, checking);
    var p := Populate(file, data, count, false, checking);
    assert p.names == NamesIn(file, data, 0, count, checking);
    assert JoinedAt(file, p.sets, p.names, f) && (checking ==> JoinedAt(file, p.criteria, p.names, f));
    if Mentions(p.names, f) > 0 {
      RowIsValue(file[f].dtype, p.sets[f], Mentions(p.names, f));
      if checking { RowIsValue(file[f].dtype, p.criteria[f], Mentions(p.names, f)); }
    }
  }

  lemma NothingIsJoined(file: ClassFile)
    ensures Joined(file, map[], [])
  {
  }

  /** A 16-bit field named twice, with the values 7 and 8, is stored with four bytes. */
  lemma NamedTwiceIsJoined()
    ensures var file := map[1 := FileField(DClass.Numeric(DClass.UInt16, DClass.None), true, DClass.None)];
            var p := Populate(file, [1, 0, 7, 0, 1, 0, 8, 0], 2, false, false);
            p == Taken(map[1 := [7, 0, 8, 0]], map[], [1, 1]) && !IsValue(file[1].dtype, p.sets[1])
  {
    var t := DClass.Numeric(DClass.UInt16, DClass.None);
    var file := map[1 := FileField(t, true, DClass.None)];
    var data: Value := [1, 0, 7, 0, 1, 0, 8, 0];
    assert Unpack(t, data, 2, []) == Done(4, [7, 0]) by { assert [] + data[2..4] == [7, 0]; }
    assert Unpack(t, data, 6, [7, 0]) == Done(8, [7, 0, 8, 0]) by { assert [7, 0] + data[6..8] == [7, 0, 8, 0]; }
    var s1 := Stage(map[1 := [7, 0]], map[], [1], 4);
    var s2 := Stage(map[1 := [7, 0, 8, 0]], map[], [1, 1], 8);
    assert ReadField(file, data, NO_FIELDS, false, false) == Next(s1);
    assert SizeAt(data, 4) == 1 && FieldOrBlank(s1.sets, 1) == [7, 0] && s1.sets[1 := [7, 0, 8, 0]] == s2.sets;
    assert ReadField(file, data, s1, false, false) == Next(s2);
    assert ReadFields(file, data, s2, 0, false, false) == Taken(s2.sets, map[], [1, 1]);
    assert ReadFields(file, data, s1, 1, false, false) == Taken(s2.sets, map[], [1, 1]);
    assert Unpack(t, s2.sets[1], 0, []).offset == 2;
  }

  // ----- The loop itself -----

  /** The part of an operation that its request fills in. */
  class OperationFields {
    const file: ClassFile
    const reader: DatagramReader
    var setFields: FieldValues
    var criteriaFields: FieldValues
    ghost var names: seq<FieldId>

    constructor (file: ClassFile, reader: DatagramReader)
      ensures this.file == file && this.reader == reader
      ensures setFields == map[] && criteriaFields == map[] && names == []
    {
      this.file, this.reader := file, reader;
      setFields, criteriaFields, names := map[], map[], [];
    }

    ghost function Now(): Stage
      reads this, reader
    {
      Stage(setFields, criteriaFields, names, reader.offset)
    }

    method PopulateSetFields(count: nat, deleting: bool, checking: bool) returns (ok: bool)
      requires reader.offset <= |reader.data|
      requires !ReadFields(file, reader.data, Now(), count, deleting, checking).Endless?
      modifies this, reader
      ensures var p := old(ReadFields(file, reader.data, Now(), count, deleting, checking));
              if ok then p == Taken(setFields, criteriaFields, names) else p == Refused
    {
      hide ReadField;
      var i := 0;
      while i < count
        invariant i <= count && reader.offset <= |reader.data|
        invariant ReadFields(file, reader.data, Now(), count - i, deleting, checking)
               == old(ReadFields(file, reader.data, Now(), count, deleting, checking))
      {
        ok := PopulateOne(deleting, checking);
        if !ok {
          return;
        }
        i := i + 1;
      }
      ok := setFields != map[];
    }

    method PopulateOne(deleting: bool, checking: bool) returns (ok: bool)
      requires reader.offset <= |reader.data| && ReadField(file, reader.data, Now(), deleting, checking) != Stop(Endless)
      modifies this, reader
      ensures reader.offset <= |reader.data|
      ensures var r := old(ReadField(file, reader.data, Now(), deleting, checking));
              r == if ok then Next(Now()) else Stop(Refused)
    {
      hide Unpack, Skip, SizeAt, ReadValue;
      var f;
      ok, f := reader.ReadSize();
      if !ok {
        return;
      }
      if f !in file {
        return false;
      }
      if file[f].db {
        if checking {
          var tested := reader.UnpackDtype(file[f].dtype, FieldOrBlank(criteriaFields, f));
          if !tested.Done? {
            return false;
          }
          criteriaFields := criteriaFields[f := tested.buffer];
        }
        ok := PopulateValue(f, deleting);
      } else {
        if !deleting {
          ok := reader.SkipDtype(file[f].dtype);
          if !ok {
            return;
          }
        }
        ok := !checking;
      }
    }

    method PopulateValue(f: FieldId, deleting: bool) returns (ok: bool)
      requires f in file && reader.offset <= |reader.data|
      requires ReadValue(file, reader.data, Now(), f, deleting) != Stop(Endless)
      modifies this, reader
      ensures reader.offset <= |reader.data|
      ensures var r := old(ReadValue(file, reader.data, Now(), f, deleting));
              r == if ok then Next(Now()) else Stop(Refused)
    {
      hide Unpack;
      if !deleting {
        var value := reader.UnpackDtype(file[f].dtype, FieldOrBlank(setFields, f));
        if !value.Done? {
          return false;
        }
        setFields := setFields[f := value.buffer];
      } else if file[f].default.Some? {
        setFields := setFields[f := file[f].default.value];
      } else {
        setFields := setFields[f := []];
      }
      names := names + [f];
      ok := true;
    }
  }
}
