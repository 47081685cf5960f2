/** What a request that somebody has put together asks for: which of its values are
    tested, and which are stored. */
module EncodedRequests {
  import DClass
  import opened DatagramIterator
  import opened Unpacking
  import opened DBOperation
  import opened DatabaseBackend
  import opened RequestFields

  type FieldNumber = n: nat | n < DClass.SIZE_LIMIT

  predicate Db(file: ClassFile, f: FieldId) {
    f in file && file[f].db
  }

  /** A field as it stands in a request: its number, the value it is to have before, if
      that is tested, and the value it is to get, unless it is to be deleted. */
  datatype Entry = Entry(field: FieldNumber, tested: Value, stored: Value)

  /** A field that is not stored may stand in a request that tests nothing, with bytes
      that are only passed over. */
  predicate Encodable(file: ClassFile, e: Entry, deleting: bool, checking: bool) {
    && e.field in file
    && (checking ==> file[e.field].db)
    && (if checking then IsValue(file[e.field].dtype, e.tested) else e.tested == [])
    && (if deleting then e.stored == []
        else if file[e.field].db then IsValue(file[e.field].dtype, e.stored)
        else Skip(file[e.field].dtype, e.stored, 0) == Skipped(|e.stored|))
  }

  /** The fields of a request, at least one of which is stored. */
  predicate Encodes(file: ClassFile, entries: seq<Entry>, deleting: bool, checking: bool) {
    && (forall e | e in entries :: Encodable(file, e, deleting, checking))
    && SomeStored(file, entries)
  }

  predicate SomeStored(file: ClassFile, entries: seq<Entry>) {
    entries != [] && (Db(file, entries[0].field) || SomeStored(file, entries[1..]))
  }

  function Encoded(e: Entry): Value {
    [e.field % 0x100, e.field / 0x100] + e.tested + e.stored
  }

  function EncodedAll(entries: seq<Entry>): Value {
    if entries == [] then [] else Encoded(entries[0]) + EncodedAll(entries[1..])
  }

  /** The values a request gives for one field, in order. */
  function StoredOf(entries: seq<Entry>, f: FieldId): Value {
    if entries == [] then [] else (if entries[0].field == f then entries[0].stored else []) + StoredOf(entries[1..], f)
  }

  function TestedOf(entries: seq<Entry>, f: FieldId): Value {
    if entries == [] then [] else (if entries[0].field == f then entries[0].tested else []) + TestedOf(entries[1..], f)
  }

  predicate Named(entries: seq<Entry>, f: FieldId) {
    exists i :: 0 <= i < |entries| && entries[i].field == f
  }

  function Default(file: ClassFile, f: FieldId): Value {
    if f in file && file[f].default.Some? then file[f].default.value else []
  }

  // ----- Passing over bytes -----

  /** Skipping looks at no byte behind those it passes over. */
  lemma {:induction false} SkipRelocates(t: DClass.DType, data: Value, at: nat, data': Value, at': nat)
    requires at <= |data| && Skip(t, data, at).Skipped?
    requires SameBytes(data, at, data', at', Skip(t, data, at).offset - at)
    ensures Skip(t, data', at') == Skipped(at' + Skip(t, data, at).offset - at)
    decreases t, 2, 0
  {
    var n := Skip(t, data, at).offset - at;
    if DClass.Size(t) == 0 {
      if IsGroup(t) {
        PartsSkipRelocate(t, 0, data, at, data', at');
      } else if n >= 2 {
        SameSize(data, at, data', at', n);
      }
    }
  }

  lemma {:induction false} PartsSkipRelocate(t: DClass.DType, i: nat, data: Value, at: nat, data': Value, at': nat)
    requires IsGroup(t) && i <= |t.parts| && at <= |data| && SkipParts(t, i, data, at).Skipped?
    requires SameBytes(data, at, data', at', SkipParts(t, i, data, at).offset - at)
    ensures SkipParts(t, i, data', at') == Skipped(at' + SkipParts(t, i, data, at).offset - at)
    decreases t, 1, |t.parts| - i
  {
    hide Skip, SameBytes;
    if i < |t.parts| {
      var n := SkipParts(t, i, data, at).offset - at;
      var m := Skip(t.parts[i], data, at).offset - at;
      SameInside(data, at, data', at', n, 0, m);
      SameInside(data, at, data', at', n, m, n - m);
      SkipRelocates(t.parts[i], data, at, data', at');
      PartsSkipRelocate(t, i + 1, data, at + m, data', at' + m);
    }
  }

  lemma SkippedStands(t: DClass.DType, v: Value, data: Value, at: nat)
    requires Skip(t, v, 0) == Skipped(|v|) && at + |v| <= |data| && data[at..at + |v|] == v
    ensures Skip(t, data, at) == Skipped(at + |v|)
  {
    hide Skip;
    assert v[0..|v|] == v;
    SkipRelocates(t, v, 0, data, at);
  }

  lemma SkippedIsTaken(t: DClass.DType, data: Value, at: nat)
    requires at <= |data| && Skip(t, data, at).Skipped?
    ensures var v := data[at..Skip(t, data, at).offset];
            Skip(t, v, 0) == Skipped(|v|)
  {
    hide Skip;
    var v := data[at..Skip(t, data, at).offset];
    assert v[0..|v|] == v;
    SkipRelocates(t, data, at, v, 0);
  }

  // ----- Reading what was put together -----

  lemma EntryStands(data: Value, at: nat, e: Entry)
    requires at + |Encoded(e)| <= |data| && data[at..at + |Encoded(e)|] == Encoded(e)
    ensures |Encoded(e)| == 2 + |e.tested| + |e.stored| && SizeAt(data, at) == e.field
    ensures data[at + 2..at + 2 + |e.tested|] == e.tested
    ensures data[at + 2 + |e.tested|..at + 2 + |e.tested| + |e.stored|] == e.stored
  {
    var here, n := Encoded(e), 2 + |e.tested|;
    assert data[at] == here[0] && data[at + 1] == here[1];
    assert here[2..n] == e.tested && here[n..|here|] == e.stored;
    SliceOfSlice(data, at, |here|, 2, n - 2);
    SliceOfSlice(data, at, |here|, n, |here| - n);
  }

  /** One entry is read where it stands: first the test, then what is to be stored. */
  lemma EntryIsRead(file: ClassFile, data: Value, s: Stage, e: Entry, deleting: bool, checking: bool)
    requires Encodable(file, e, deleting, checking)
    requires s.at + |Encoded(e)| <= |data| && data[s.at..s.at + |Encoded(e)|] == Encoded(e)
    ensures ReadField(file, data, s, deleting, checking) == Next(Reached(file, s, e, deleting, checking))
  {
    hide Unpack, IsValue, Skip, Encoded, SizeAt;
    var f, t := e.field, file[e.field].dtype;
    var first, second := s.at + 2, s.at + 2 + |e.tested|;
    EntryStands(data, s.at, e);
    if checking {
      ValueIsFound(t, e.tested, data, first, FieldOrBlank(s.criteria, f));
    }
    if !deleting {
      if file[f].db { ValueIsFound(t, e.stored, data, second, FieldOrBlank(s.sets, f)); }
      else { SkippedStands(t, e.stored, data, second); }
    }
  }

  /** The stage after one entry. */
  function Reached(file: ClassFile, s: Stage, e: Entry, deleting: bool, checking: bool): Stage {
    if !Db(file, e.field) then s.(at := s.at + |Encoded(e)|)
    else Stage(
      s.sets[e.field := if deleting then Default(file, e.field) else FieldOrBlank(s.sets, e.field) + e.stored],
      if checking then s.criteria[e.field := FieldOrBlank(s.criteria, e.field) + e.tested] else s.criteria,
      s.names + [e.field],
      s.at + |Encoded(e)|)
  }

  /** What one field is set to and tested for, after entries that were read from a stage on. */
  predicate Means(file: ClassFile, s: Stage, entries: seq<Entry>, p: Populated, deleting: bool, checking: bool, f: FieldId) {
    && p.Taken?
    && (Db(file, f) ==>
          && (f in p.sets <==> f in s.sets || Named(entries, f))
          && FieldOrBlank(p.sets, f) == (
               if !deleting then FieldOrBlank(s.sets, f) + StoredOf(entries, f)
               else if Named(entries, f) then Default(file, f) else FieldOrBlank(s.sets, f))
          && (f in p.criteria <==> f in s.criteria || (checking && Named(entries, f)))
          && FieldOrBlank(p.criteria, f) == FieldOrBlank(s.criteria, f) + if checking then TestedOf(entries, f) else [])
    && (!Db(file, f) ==> (f in p.sets <==> f in s.sets) && (f in p.criteria <==> f in s.criteria))
  }

  lemma Assoc(a: Value, b: Value, c: Value)
    ensures a + b + c == a + (b + c)
    ensures a + [] == a
  {
  }

  /** The entry for a field, or nothing. */
  function At(v: Value, here: bool): Value {
    if here then v else []
  }

  lemma ValuesOneMore(entries: seq<Entry>, f: FieldId)
    requires entries != []
    ensures StoredOf(entries, f) == At(entries[0].stored, entries[0].field == f) + StoredOf(entries[1..], f)
    ensures TestedOf(entries, f) == At(entries[0].tested, entries[0].field == f) + TestedOf(entries[1..], f)
  {
  }

  lemma ReachedAt(file: ClassFile, s: Stage, e: Entry, deleting: bool, checking: bool, f: FieldId)
    requires Db(file, f)
    ensures var next := Reached(file, s, e, deleting, checking);
            && (f in next.sets <==> f in s.sets || e.field == f)
            && (f in next.criteria <==> f in s.criteria || (checking && e.field == f))
            && (!deleting ==> FieldOrBlank(next.sets, f) == FieldOrBlank(s.sets, f) + At(e.stored, e.field == f))
            && (deleting ==> FieldOrBlank(next.sets, f) == if e.field == f then Default(file, f) else FieldOrBlank(s.sets, f))
            && (checking ==> FieldOrBlank(next.criteria, f) == FieldOrBlank(s.criteria, f) + At(e.tested, e.field == f))
            && (!checking ==> next.criteria == s.criteria)
  {
    hide Encoded, Default, Db;
    Assoc(FieldOrBlank(s.sets, f), [], []);
    Assoc(FieldOrBlank(s.criteria, f), [], []);
  }

  lemma NotReached(file: ClassFile, s: Stage, e: Entry, deleting: bool, checking: bool, f: FieldId)
    requires !Db(file, f)
    ensures var next := Reached(file, s, e, deleting, checking);
            (f in next.sets <==> f in s.sets) && (f in next.criteria <==> f in s.criteria)
  {
  }

  lemma MeansOneMore(file: ClassFile, s: Stage, entries: seq<Entry>, p: Populated, deleting: bool, checking: bool, f: FieldId)
    requires entries != [] && Means(file, Reached(file, s, entries[0], deleting, checking), entries[1..], p, deleting, checking, f)
    ensures Means(file, s, entries, p, deleting, checking, f)
  {
    hide Reached, Named, StoredOf, TestedOf, At, FieldOrBlank, Default, Db;
    var e, rest, here := entries[0], entries[1..], entries[0].field == f;
    if !Db(file, f) {
      NotReached(file, s, e, deleting, checking, f);
      return;
    }
    NamedOneMore(entries, f);
    ReachedAt(file, s, e, deleting, checking, f);
    ValuesOneMore(entries, f);
    Assoc(FieldOrBlank(s.sets, f), At(e.stored, here), StoredOf(rest, f));
    Assoc(FieldOrBlank(s.criteria, f), At(e.tested, here), TestedOf(rest, f));
  }

  lemma {:induction false} EntriesAreRead(file: ClassFile, data: Value, s: Stage, entries: seq<Entry>, deleting: bool, checking: bool, f: FieldId)
    requires forall e | e in entries :: Encodable(file, e, deleting, checking)
    requires s.at <= |data| && EncodedAll(entries) <= data[s.at..]
    requires s.sets != map[] || SomeStored(file, entries)
    ensures Means(file, s, entries, ReadFields(file, data, s, |entries|, deleting, checking), deleting, checking, f)
    decreases |entries|
  {
    hide ReadField, Encodable, Encoded, Means;
    if entries == [] {
      NothingRead(file, s, deleting, checking, f);
    } else {
      var e, rest := entries[0], entries[1..];
      assert e in entries && forall r | r in rest :: r in entries;
      assert data[s.at..][..|Encoded(e)|] == Encoded(e);
      EntryIsRead(file, data, s, e, deleting, checking);
      var next := Reached(file, s, e, deleting, checking);
      assert data[next.at..] == data[s.at..][|Encoded(e)|..];
      assert Db(file, e.field) ==> e.field in next.sets;
      EntriesAreRead(file, data, next, rest, deleting, checking, f);
      MeansOneMore(file, s, entries, ReadFields(file, data, s, |entries|, deleting, checking), deleting, checking, f);
    }
  }

  lemma NothingRead(file: ClassFile, s: Stage, deleting: bool, checking: bool, f: FieldId)
    ensures Means(file, s, [], Taken(s.sets, s.criteria, s.names), deleting, checking, f)
  {
  }

  lemma NamedOneMore(entries: seq<Entry>, f: FieldId)
    requires entries != []
    ensures Named(entries, f) <==> entries[0].field == f || Named(entries[1..], f)
  {
    if Named(entries[1..], f) {
      var i :| 0 <= i < |entries[1..]| && entries[1..][i].field == f;
      assert entries[i + 1].field == f;
    }
  }

  /** A request put together from fields and values, whatever follows it, is taken, and
      means what it says: what is tested are the old values, what is stored are the new
      ones, and what is deleted gets its default, or is blank. Values for the same field
      are joined, and fields that are not stored do not matter. */
  lemma RequestMeansWhatItSays(file: ClassFile, entries: seq<Entry>, rest: Value, deleting: bool, checking: bool, f: FieldId)
    requires Encodes(file, entries, deleting, checking)
    ensures var p := Populate(file, EncodedAll(entries) + rest, |entries|, deleting, checking);
            && p.Taken?
            && (f in p.sets <==> Db(file, f) && Named(entries, f))
            && (f in p.sets ==> p.sets[f] == if deleting then Default(file, f) else StoredOf(entries, f))
            && (f in p.criteria <==> checking && Db(file, f) && Named(entries, f))
            && (f in p.criteria ==> p.criteria[f] == TestedOf(entries, f))
  {
    var data := EncodedAll(entries) + rest;
    assert data[0..] == data;
    EntriesAreRead(file, data, NO_FIELDS, entries, deleting, checking, f);
    assert [] + StoredOf(entries, f) == StoredOf(entries, f) && [] + TestedOf(entries, f) == TestedOf(entries, f);
  }

  lemma {:induction false} NotNamed(entries: seq<Entry>, f: FieldId)
    requires forall i | 0 <= i < |entries| :: entries[i].field != f
    ensures StoredOf(entries, f) == [] && TestedOf(entries, f) == []
  {
    if entries != [] {
      NotNamed(entries[1..], f);
    }
  }

  lemma {:induction false} NamedOnce(entries: seq<Entry>, k: nat)
    requires k < |entries| && forall i | 0 <= i < |entries| && i != k :: entries[i].field != entries[k].field
    ensures StoredOf(entries, entries[k].field) == entries[k].stored && TestedOf(entries, entries[k].field) == entries[k].tested
  {
    if k == 0 {
      NotNamed(entries[1..], entries[k].field);
    } else {
      NamedOnce(entries[1..], k - 1);
    }
  }

  /** If no field is named twice, each is tested for its old value and set to its new one. */
  lemma OldIsTestedNewIsStored(file: ClassFile, entries: seq<Entry>, rest: Value, checking: bool, k: nat)
    requires k < |entries| && Encodes(file, entries, false, checking) && Db(file, entries[k].field)
    requires forall i, j | 0 <= i < j < |entries| :: entries[i].field != entries[j].field
    ensures var p := Populate(file, EncodedAll(entries) + rest, |entries|, false, checking);
            var e := entries[k];
            && p.Taken? && e.field in p.sets && p.sets[e.field] == e.stored
            && (if checking then e.field in p.criteria && p.criteria[e.field] == e.tested else p.criteria == map[])
  {
    hide Populate;
    var e := entries[k];
    RequestMeansWhatItSays(file, entries, rest, false, checking, e.field);
    NamedOnce(entries, k);
    assert Named(entries, e.field);
    if !checking {
      forall f ensures f !in Populate(file, EncodedAll(entries) + rest, |entries|, false, checking).criteria {
        RequestMeansWhatItSays(file, entries, rest, false, checking, f);
      }
    }
  }

  // ----- Nothing else is taken -----

  lemma EntryWasRead(file: ClassFile, data: Value, s: Stage, deleting: bool, checking: bool) returns (e: Entry)
    requires s.at <= |data| && ReadField(file, data, s, deleting, checking).Next?
    ensures Encodable(file, e, deleting, checking)
    ensures s.at + |Encoded(e)| <= |data| && data[s.at..s.at + |Encoded(e)|] == Encoded(e)
  {
    hide Unpack, IsValue, Skip, Encoded, SizeAt;
    var f, first := SizeAt(data, s.at), s.at + 2;
    var t, second := file[f].dtype, first;
    if checking {
      var r := UnpackInto(file, s.criteria, f, data, first);
      UnpackedReadsBack(t, data, first, FieldOrBlank(s.criteria, f));
      second := r.offset;
    }
    var third := second;
    if !deleting {
      if file[f].db {
        UnpackedReadsBack(t, data, second, FieldOrBlank(s.sets, f));
        third := UnpackInto(file, s.sets, f, data, second).offset;
      } else {
        SkippedIsTaken(t, data, second);
        third := Skip(t, data, second).offset;
      }
    }
    e := Entry(f, data[first..second], data[second..third]);
    EntryBytes(data, s.at, second, third);
  }

  lemma EntryBytes(data: Value, at: nat, second: nat, third: nat)
    requires at + 2 <= second <= third <= |data|
    ensures Encoded(Entry(SizeAt(data, at), data[at + 2..second], data[second..third])) == data[at..third]
  {
    assert data[at..third] == data[at..at + 2] + data[at + 2..second] + data[second..third];
    assert data[at..at + 2] == [SizeAt(data, at) % 0x100, SizeAt(data, at) / 0x100];
  }

  lemma {:induction false} EntriesWereRead(file: ClassFile, data: Value, s: Stage, count: nat, deleting: bool, checking: bool) returns (entries: seq<Entry>)
    requires s.at <= |data| && ReadFields(file, data, s, count, deleting, checking).Taken?
    ensures |entries| == count && (forall e | e in entries :: Encodable(file, e, deleting, checking))
    ensures EncodedAll(entries) <= data[s.at..]
    ensures s.sets != map[] || SomeStored(file, entries)
    decreases count
  {
    hide ReadField, Encodable, Encoded;
    entries := [];
    if count > 0 {
      var e := EntryWasRead(file, data, s, deleting, checking);
      EntryIsRead(file, data, s, e, deleting, checking);
      var next := Reached(file, s, e, deleting, checking);
      var rest := EntriesWereRead(file, data, next, count - 1, deleting, checking);
      entries := [e] + rest;
      assert entries[1..] == rest;
      assert data[s.at..] == data[s.at..next.at] + data[next.at..];
    }
  }

  ghost predicate IsRequest(file: ClassFile, data: Value, entries: seq<Entry>, count: nat, deleting: bool, checking: bool) {
    |entries| == count && Encodes(file, entries, deleting, checking) && EncodedAll(entries) <= data
  }

  /** A request is taken exactly if its bytes begin with so many fields with their values,
      at least one of which is stored. */
  lemma TakenExactly(file: ClassFile, data: Value, count: nat, deleting: bool, checking: bool)
    ensures Populate(file, data, count, deleting, checking).Taken?
       <==> exists entries :: IsRequest(file, data, entries, count, deleting, checking)
  {
    assert data[0..] == data;
    if Populate(file, data, count, deleting, checking).Taken? {
      var entries := EntriesWereRead(file, data, NO_FIELDS, count, deleting, checking);
      assert IsRequest(file, data, entries, count, deleting, checking);
    }
    if entries :| IsRequest(file, data, entries, count, deleting, checking) {
      EntriesAreRead(file, data, NO_FIELDS, entries, deleting, checking, 0);
    }
  }
}
