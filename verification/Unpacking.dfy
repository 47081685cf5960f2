/** What unpacking promises: its copies read back alone, it ends where skipping ends, and
    it does end. */
module Unpacking {
  import opened DClass
  import opened DatagramIterator

  // ----- A copied value reads back -----

  /** The same bytes at two places. */
  predicate SameBytes(data: Bytes, at: nat, data': Bytes, at': nat, n: nat) {
    at + n <= |data| && at' + n <= |data'| && data[at..at + n] == data'[at'..at' + n]
  }

  lemma SameInside(data: Bytes, at: nat, data': Bytes, at': nat, n: nat, from: nat, m: nat)
    requires SameBytes(data, at, data', at', n) && from + m <= n
    ensures SameBytes(data, at + from, data', at' + from, m)
  {
    SliceOfSlice(data, at, n, from, m);
    SliceOfSlice(data', at', n, from, m);
  }

  lemma SliceOfSlice(s: Bytes, at: nat, n: nat, from: nat, m: nat)
    requires at + n <= |s| && from + m <= n
    ensures s[at..at + n][from..from + m] == s[at + from..at + from + m]
  {
    var a, b := s[at..at + n][from..from + m], s[at + from..at + from + m];
    forall k | 0 <= k < m ensures a[k] == b[k] {
      assert a[k] == s[at..at + n][from + k] == s[at + from + k];
    }
  }

  lemma SameSize(data: Bytes, at: nat, data': Bytes, at': nat, n: nat)
    requires SameBytes(data, at, data', at', n) && n >= 2
    ensures SizeAt(data, at) == SizeAt(data', at')
  {
    assert data[at..at + n][0] == data[at] && data'[at'..at' + n][0] == data'[at'];
    assert data[at..at + n][1] == data[at + 1] && data'[at'..at' + n][1] == data'[at' + 1];
  }

  /** Unpacking looks at no byte but those it copies. */
  lemma {:induction false} Relocates(t: DType, data: Bytes, at: nat, buffer: Bytes, data': Bytes, at': nat, buffer': Bytes)
    requires at <= |data| && Unpack(t, data, at, buffer).Done?
    requires SameBytes(data, at, data', at', Unpack(t, data, at, buffer).offset - at)
    ensures var n := Unpack(t, data, at, buffer).offset - at;
            Unpack(t, data', at', buffer') == Done(at' + n, buffer' + data'[at'..at' + n])
    decreases t, 2, 0
  {
    hide Size, HasRange, KindOf, UnpackRepeated, UnpackPlain, UnpackBytes, UnpackVariable, UnpackParts, SameBytes;
    KindsOfArray(t);
    if Size(t) > 0 && !(IsGroup(t) && HasRange(t)) {
      if KindOf(t) == T_ARRAY && HasRange(t.element) {
        RepeatedRelocates(t, 0, data, at, buffer, data', at', buffer');
      } else {
        PlainRelocates(t, data, at, buffer, data', at', buffer');
      }
    } else {
      match KindOf(t) {
        case T_VARARRAY => VariableRelocates(t, data, at, buffer, data', at', buffer');
        case T_STRUCT => PartsRelocate(t, 0, data, at, buffer, data', at', buffer');
        case T_METHOD => PartsRelocate(t, 0, data, at, buffer, data', at', buffer');
        case T_VARSTRING => BytesRelocate(t, data, at, buffer, data', at', buffer');
        case T_VARBLOB => BytesRelocate(t, data, at, buffer, data', at', buffer');
        case _ => NothingCopied(data, at, data', at', buffer');
      }
    }
  }

  lemma KindsOfArray(t: DType)
    ensures KindOf(t) in {T_ARRAY, T_VARARRAY, T_STRING, T_VARSTRING, T_BLOB, T_VARBLOB} <==> t.Array?
    ensures KindOf(t) == T_STRUCT <==> t.Struct?
    ensures KindOf(t) == T_METHOD <==> t.Method?
  {
  }

  lemma NothingCopied(data: Bytes, at: nat, data': Bytes, at': nat, buffer: Bytes)
    requires SameBytes(data, at, data', at', 0)
    ensures at' <= |data'| && buffer + data'[at'..at'] == buffer
  {
  }

  lemma PlainRelocates(t: DType, data: Bytes, at: nat, buffer: Bytes, data': Bytes, at': nat, buffer': Bytes)
    requires at <= |data| && UnpackPlain(t, data, at, buffer).Done?
    requires SameBytes(data, at, data', at', UnpackPlain(t, data, at, buffer).offset - at)
    ensures var n := UnpackPlain(t, data, at, buffer).offset - at;
            at' + n <= |data'| && UnpackPlain(t, data', at', buffer') == Done(at' + n, buffer' + data'[at'..at' + n])
  {
    hide Size, KindOf;
  }

  lemma BytesRelocate(t: DType, data: Bytes, at: nat, buffer: Bytes, data': Bytes, at': nat, buffer': Bytes)
    requires t.Array? && UnpackBytes(t, data, at, buffer).Done?
    requires SameBytes(data, at, data', at', UnpackBytes(t, data, at, buffer).offset - at)
    ensures var n := UnpackBytes(t, data, at, buffer).offset - at;
            UnpackBytes(t, data', at', buffer') == Done(at' + n, buffer' + data'[at'..at' + n])
  {
    var n := UnpackBytes(t, data, at, buffer).offset - at;
    SameSize(data, at, data', at', n);
    SameInside(data, at, data', at', n, 2, n - 2);
    assert data'[at'..at' + n] == data'[at'..at' + 2] + data'[at' + 2..at' + n];
  }

  lemma {:induction false} RepeatedRelocates(t: DType, i: nat, data: Bytes, at: nat, buffer: Bytes, data': Bytes, at': nat, buffer': Bytes)
    requires t.Array? && at <= |data| && UnpackRepeated(t, i, data, at, buffer).Done?
    requires SameBytes(data, at, data', at', UnpackRepeated(t, i, data, at, buffer).offset - at)
    ensures var n := UnpackRepeated(t, i, data, at, buffer).offset - at;
            UnpackRepeated(t, i, data', at', buffer') == Done(at' + n, buffer' + data'[at'..at' + n])
    decreases t, 1, ArraySize(t.sizes) - i
  {
    hide Unpack, SameBytes;
    if i < ArraySize(t.sizes) {
      var n := UnpackRepeated(t, i, data, at, buffer).offset - at;
      var first := Unpack(t.element, data, at, buffer);
      var m := first.offset - at;
      SameInside(data, at, data', at', n, 0, m);
      SameInside(data, at, data', at', n, m, n - m);
      Relocates(t.element, data, at, buffer, data', at', buffer');
      RepeatedRelocates(t, i + 1, data, first.offset, first.buffer, data', at' + m, buffer' + data'[at'..at' + m]);
      Inside(data, at, data', at', n);
      Joins(data', at', m, n, buffer');
    } else {
      NothingCopied(data, at, data', at', buffer');
    }
  }

  lemma Inside(data: Bytes, at: nat, data': Bytes, at': nat, n: nat)
    requires SameBytes(data, at, data', at', n)
    ensures at + n <= |data| && at' + n <= |data'|
  {
  }

  lemma Joins(data: Bytes, at: nat, m: nat, n: nat, buffer: Bytes)
    requires m <= n && at + n <= |data|
    ensures buffer + data[at..at + m] + data[at + m..at + n] == buffer + data[at..at + n]
  {
  }

  lemma {:induction false} PartsRelocate(t: DType, i: nat, data: Bytes, at: nat, buffer: Bytes, data': Bytes, at': nat, buffer': Bytes)
    requires IsGroup(t) && i <= |t.parts| && at <= |data| && UnpackParts(t, i, data, at, buffer).Done?
    requires SameBytes(data, at, data', at', UnpackParts(t, i, data, at, buffer).offset - at)
    ensures var n := UnpackParts(t, i, data, at, buffer).offset - at;
            UnpackParts(t, i, data', at', buffer') == Done(at' + n, buffer' + data'[at'..at' + n])
    decreases t, 1, |t.parts| - i
  {
    hide Unpack, SameBytes;
    if i < |t.parts| {
      var n := UnpackParts(t, i, data, at, buffer).offset - at;
      var first := Unpack(t.parts[i], data, at, buffer);
      var m := first.offset - at;
      SameInside(data, at, data', at', n, 0, m);
      SameInside(data, at, data', at', n, m, n - m);
      Relocates(t.parts[i], data, at, buffer, data', at', buffer');
      PartsRelocate(t, i + 1, data, first.offset, first.buffer, data', at' + m, buffer' + data'[at'..at' + m]);
      Inside(data, at, data', at', n);
      Joins(data', at', m, n, buffer');
    } else {
      NothingCopied(data, at, data', at', buffer');
    }
  }

  lemma {:induction false} VariableRelocates(t: DType, data: Bytes, at: nat, buffer: Bytes, data': Bytes, at': nat, buffer': Bytes)
    requires t.Array? && at <= |data| && UnpackVariable(t, data, at, buffer).Done?
    requires SameBytes(data, at, data', at', UnpackVariable(t, data, at, buffer).offset - at)
    ensures var n := UnpackVariable(t, data, at, buffer).offset - at;
            UnpackVariable(t, data', at', buffer') == Done(at' + n, buffer' + data'[at'..at' + n])
    decreases t, 1, |data| + 2
  {
    var n := UnpackVariable(t, data, at, buffer).offset - at;
    SameSize(data, at, data', at', n);
    SameInside(data, at, data', at', n, 2, n - 2);
    ElementsRelocate(t, 0, SizeAt(data, at), data, at + 2, buffer + data[at..at + 2], |buffer| + 2,
                     data', at' + 2, buffer' + data'[at'..at' + 2], |buffer'| + 2);
    Joins(data', at', 2, n, buffer');
  }

  lemma {:induction false} ElementsRelocate(t: DType, count: nat, len: nat, data: Bytes, at: nat, buffer: Bytes, start: nat,
                                            data': Bytes, at': nat, buffer': Bytes, start': nat)
    requires t.Array? && at <= |data| && UnpackElements(t, count, len, data, at, buffer, start).Done?
    requires SameBytes(data, at, data', at', UnpackElements(t, count, len, data, at, buffer, start).offset - at)
    requires |buffer| - start == |buffer'| - start'
    ensures var n := UnpackElements(t, count, len, data, at, buffer, start).offset - at;
            UnpackElements(t, count, len, data', at', buffer', start') == Done(at' + n, buffer' + data'[at'..at' + n])
    decreases t, 1, |data| - at
  {
    hide Unpack, SameBytes, CountInRange;
    if |buffer| - start < len {
      var n := UnpackElements(t, count, len, data, at, buffer, start).offset - at;
      var first := Unpack(t.element, data, at, buffer);
      UnpackCopies(t.element, data, at, buffer);
      var m := first.offset - at;
      SameInside(data, at, data', at', n, 0, m);
      SameInside(data, at, data', at', n, m, n - m);
      Relocates(t.element, data, at, buffer, data', at', buffer');
      ElementsRelocate(t, count + 1, len, data, first.offset, first.buffer, start, data', at' + m, buffer' + data'[at'..at' + m], start');
      Inside(data, at, data', at', n);
      Joins(data', at', m, n, buffer');
    } else {
      NothingCopied(data, at, data', at', buffer');
    }
  }

  /** The whole of a byte string is one value of the type. A database that validates a
      stored field asks only that the bytes begin with one. */
  predicate IsValue(t: DType, v: Bytes) {
    Unpack(t, v, 0, []) == Done(|v|, v)
  }

  /** A value unpacked from anywhere is exactly the bytes passed over, and unpacking them
      alone succeeds and uses them up. */
  lemma UnpackedReadsBack(t: DType, data: Bytes, at: nat, buffer: Bytes)
    requires at <= |data| && Unpack(t, data, at, buffer).Done?
    ensures var r := Unpack(t, data, at, buffer);
            && at <= r.offset <= |data|
            && r.buffer == buffer + data[at..r.offset]
            && IsValue(t, data[at..r.offset])
  {
    var r := Unpack(t, data, at, buffer);
    UnpackCopies(t, data, at, buffer);
    var v := data[at..r.offset];
    assert v[0..|v|] == v;
    Relocates(t, data, at, buffer, v, 0, []);
    assert [] + v[0..|v|] == v;
  }

  /** Conversely a value is found wherever its bytes stand. */
  lemma ValueIsFound(t: DType, v: Bytes, data: Bytes, at: nat, buffer: Bytes)
    requires IsValue(t, v) && at + |v| <= |data| && data[at..at + |v|] == v
    ensures Unpack(t, data, at, buffer) == Done(at + |v|, buffer + v)
  {
    assert v[0..|v|] == v;
    Relocates(t, v, 0, [], data, at, buffer);
  }

  /** No value of a type begins another: a row of values can be taken apart in one way. */
  lemma ValuesArePrefixFree(t: DType, v: Bytes, w: Bytes, rest: Bytes)
    requires IsValue(t, v) && IsValue(t, w) && w == v + rest
    ensures rest == []
  {
    ValueIsFound(t, v, w, 0, []);
  }

  // ----- Ending -----

  /** Types with a value of no bytes: structs and methods of nothing else, and arrays whose
      cached size has wrapped around to 0. */
  predicate CanBeEmpty(t: DType)
    decreases t
  {
    match t
    case Numeric(_, _) => false
    case Array(_, _) =>
      if Size(t) == 0 then KindOf(t) in {T_ARRAY, T_STRING, T_BLOB} else KindOf(t) == T_ARRAY && HasRange(t.element) && CanBeEmpty(t.element)
    case _ =>
      (Size(t) == 0 || HasRange(t)) && forall k | 0 <= k < |t.parts| :: CanBeEmpty(t.parts[k])
  }

  /** No array of variable length has elements that can be empty. */
  predicate ElementsHaveWidth(t: DType)
    decreases t
  {
    match t
    case Numeric(_, _) => true
    case Array(e, _) => (KindOf(t) == T_VARARRAY ==> !CanBeEmpty(e)) && ElementsHaveWidth(e)
    case _ => forall k | 0 <= k < |t.parts| :: ElementsHaveWidth(t.parts[k])
  }

  /** A value is empty exactly if its type can be. */
  lemma {:induction false} MakesProgress(t: DType, data: Bytes, at: nat, buffer: Bytes)
    requires at <= |data|
    ensures Unpack(t, data, at, buffer).Done? ==> (Unpack(t, data, at, buffer).offset == at <==> CanBeEmpty(t))
    ensures CanBeEmpty(t) ==> Unpack(t, data, at, buffer).Done?
    decreases t, 2, 0
  {
    if Size(t) > 0 && !(IsGroup(t) && HasRange(t)) {
      if KindOf(t) == T_ARRAY && HasRange(t.element) {
        FixedArrayRepeats(t);
        RepeatedProgress(t, 0, data, at, buffer);
      }
    } else if IsGroup(t) {
      PartsProgress(t, 0, data, at, buffer);
    }
  }

  lemma FixedArrayRepeats(t: DType)
    requires t.Array? && Size(t) > 0
    ensures ArraySize(t.sizes) > 0
  {
  }

  lemma {:induction false} RepeatedProgress(t: DType, i: nat, data: Bytes, at: nat, buffer: Bytes)
    requires t.Array? && at <= |data| && i <= ArraySize(t.sizes)
    ensures UnpackRepeated(t, i, data, at, buffer).Done? ==>
              (UnpackRepeated(t, i, data, at, buffer).offset == at <==> (i == ArraySize(t.sizes) || CanBeEmpty(t.element)))
    ensures CanBeEmpty(t.element) ==> UnpackRepeated(t, i, data, at, buffer).Done?
    decreases t, 1, ArraySize(t.sizes) - i
  {
    if i < ArraySize(t.sizes) {
      MakesProgress(t.element, data, at, buffer);
      var first := Unpack(t.element, data, at, buffer);
      if first.Done? { RepeatedProgress(t, i + 1, data, first.offset, first.buffer); }
    }
  }

  lemma {:induction false} PartsProgress(t: DType, i: nat, data: Bytes, at: nat, buffer: Bytes)
    requires IsGroup(t) && i <= |t.parts| && at <= |data|
    ensures var r := UnpackParts(t, i, data, at, buffer);
            && (r.Done? ==> (r.offset == at <==> forall k | i <= k < |t.parts| :: CanBeEmpty(t.parts[k])))
            && ((forall k | i <= k < |t.parts| :: CanBeEmpty(t.parts[k])) ==> r.Done?)
    decreases t, 1, |t.parts| - i
  {
    if i < |t.parts| {
      MakesProgress(t.parts[i], data, at, buffer);
      var first := Unpack(t.parts[i], data, at, buffer);
      if first.Done? { PartsProgress(t, i + 1, data, first.offset, first.buffer); }
    }
  }

  /** With elements that can be empty, any payload at all keeps the loop going forever. */
  lemma EmptyElementsLoop(t: DType, data: Bytes, at: nat, buffer: Bytes)
    requires t.Array? && KindOf(t) == T_VARARRAY && CanBeEmpty(t.element)
    requires at + 2 <= |data| && SizeAt(data, at) > 0
    ensures Unpack(t, data, at, buffer) == Forever
  {
    var head := buffer + data[at..at + 2];
    MakesProgress(t.element, data, at + 2, head);
    assert Size(t) == 0;
    assert Unpack(t, data, at, buffer) == UnpackVariable(t, data, at, buffer);
    assert UnpackElements(t, 0, SizeAt(data, at), data, at + 2, head, |buffer| + 2) == Forever;
  }

  // ----- The types that some input keeps busy forever -----

  ghost predicate Inhabited(t: DType) {
    exists v :: IsValue(t, v)
  }

  /** Somewhere the reading can reach there is a variable array with elements that can be
      empty: as an element of variable arrays, or as a part after parts that have values. */
  ghost predicate Loops(t: DType)
    decreases t
  {
    match t
    case Numeric(_, _) => false
    case Array(e, _) => KindOf(t) == T_VARARRAY && (CanBeEmpty(e) || Loops(e))
    case _ => exists k :: 0 <= k < |t.parts| && Loops(t.parts[k]) && forall j | 0 <= j < k :: Inhabited(t.parts[j])
  }

  lemma {:induction false} LoopsHasNoSize(t: DType)
    requires Loops(t)
    ensures Size(t) == 0
    decreases t
  {
    if IsGroup(t) {
      var k :| 0 <= k < |t.parts| && Loops(t.parts[k]);
      LoopsHasNoSize(t.parts[k]);
      PartWithoutSize(t, k, |t.parts|);
    }
  }

  lemma {:induction false} PartWithoutSize(t: DType, k: nat, n: nat)
    requires IsGroup(t) && k < n <= |t.parts| && Size(t.parts[k]) == 0
    ensures SizeOfParts(t, n) == 0
    decreases n
  {
    if k < n - 1 { PartWithoutSize(t, k, n - 1); }
  }

  /** A type that does not loop ends on every input. */
  lemma {:induction false} EndsUnlessLoops(t: DType, data: Bytes, at: nat, buffer: Bytes)
    requires at <= |data| && Unpack(t, data, at, buffer).Forever?
    ensures Loops(t)
    decreases t, 2, 0
  {
    if Size(t) > 0 && !(IsGroup(t) && HasRange(t)) {
      if KindOf(t) == T_ARRAY && HasRange(t.element) { RepeatedLoops(t, 0, data, at, buffer); }
    } else if IsGroup(t) {
      PartsLoop(t, 0, data, at, buffer);
    } else if KindOf(t) == T_VARARRAY {
      ElementsLoop(t, 0, SizeAt(data, at), data, at + 2, buffer + data[at..at + 2], |buffer| + 2);
    }
  }

  lemma {:induction false} RepeatedLoops(t: DType, i: nat, data: Bytes, at: nat, buffer: Bytes)
    requires t.Array? && KindOf(t) == T_ARRAY && at <= |data|
    ensures !UnpackRepeated(t, i, data, at, buffer).Forever?
    decreases t, 1, ArraySize(t.sizes) - i
  {
    if i < ArraySize(t.sizes) {
      var first := Unpack(t.element, data, at, buffer);
      if first.Forever? {
        EndsUnlessLoops(t.element, data, at, buffer);
        LoopsHasNoSize(t.element);
      }
      if first.Done? { RepeatedLoops(t, i + 1, data, first.offset, first.buffer); }
    }
  }

  lemma {:induction false} ElementsLoop(t: DType, count: nat, len: nat, data: Bytes, at: nat, buffer: Bytes, start: nat)
    requires t.Array? && at <= |data| && UnpackElements(t, count, len, data, at, buffer, start).Forever?
    ensures CanBeEmpty(t.element) || Loops(t.element)
    decreases t, 1, |data| - at
  {
    var first := Unpack(t.element, data, at, buffer);
    MakesProgress(t.element, data, at, buffer);
    if first.Forever? {
      EndsUnlessLoops(t.element, data, at, buffer);
    } else if first.offset != at {
      ElementsLoop(t, count + 1, len, data, first.offset, first.buffer, start);
    }
  }

  lemma {:induction false} PartsLoop(t: DType, i: nat, data: Bytes, at: nat, buffer: Bytes)
    requires IsGroup(t) && i <= |t.parts| && at <= |data| && UnpackParts(t, i, data, at, buffer).Forever?
    requires forall j | 0 <= j < i :: Inhabited(t.parts[j])
    ensures Loops(t)
    decreases t, 1, |t.parts| - i
  {
    var first := Unpack(t.parts[i], data, at, buffer);
    if first.Forever? {
      EndsUnlessLoops(t.parts[i], data, at, buffer);
    } else {
      UnpackedReadsBack(t.parts[i], data, at, buffer);
      PartsLoop(t, i + 1, data, first.offset, first.buffer);
    }
  }

  /** Bytes on which a type keeps the reader busy, wherever they stand at the end. */
  ghost predicate Hangs(t: DType, w: Bytes) {
    forall before: Bytes, buffer: Bytes :: Unpack(t, before + w, |before|, buffer) == Forever
  }

  lemma {:induction false} LoopsHangs(t: DType) returns (w: Bytes)
    requires Loops(t)
    ensures Hangs(t, w)
    decreases t
  {
    hide Unpack, UnpackParts, Hangs, PartsHang;
    LoopsHasNoSize(t);
    if t.Array? {
      var inner: Bytes := [];
      if !CanBeEmpty(t.element) { inner := LoopsHangs(t.element); }
      w := [1, 0] + inner;
      ArrayAlwaysHangs(t, inner);
    } else {
      var k :| 0 <= k < |t.parts| && Loops(t.parts[k]) && forall j | 0 <= j < k :: Inhabited(t.parts[j]);
      w := LoopsHangs(t.parts[k]);
      PartItselfHangs(t, k, w);
      w := EarlierPartsHang(t, k, w);
      GroupHangs(t, w);
    }
  }

  lemma ArrayAlwaysHangs(t: DType, inner: Bytes)
    requires t.Array? && KindOf(t) == T_VARARRAY && Size(t) == 0
    requires CanBeEmpty(t.element) || Hangs(t.element, inner)
    ensures Hangs(t, [1, 0] + inner)
  {
    hide Unpack;
    forall before: Bytes, buffer: Bytes ensures Unpack(t, before + ([1, 0] + inner), |before|, buffer) == Forever {
      ArrayHangs(t, inner, before, buffer);
    }
  }

  lemma GroupHangs(t: DType, w: Bytes)
    requires IsGroup(t) && Size(t) == 0 && PartsHang(t, 0, w)
    ensures Hangs(t, w)
  {
    hide UnpackParts;
    forall before: Bytes, buffer: Bytes ensures Unpack(t, before + w, |before|, buffer) == Forever {
      assert UnpackParts(t, 0, before + w, |before|, buffer) == Forever;
    }
  }

  ghost predicate PartsHang(t: DType, i: nat, w: Bytes)
    requires IsGroup(t) && i <= |t.parts|
  {
    forall before: Bytes, buffer: Bytes :: UnpackParts(t, i, before + w, |before|, buffer) == Forever
  }

  lemma PartItselfHangs(t: DType, k: nat, w: Bytes)
    requires IsGroup(t) && k < |t.parts| && Hangs(t.parts[k], w)
    ensures PartsHang(t, k, w)
  {
    forall before: Bytes, buffer: Bytes ensures UnpackParts(t, k, before + w, |before|, buffer) == Forever {
      assert Unpack(t.parts[k], before + w, |before|, buffer) == Forever;
    }
  }

  lemma {:induction false} EarlierPartsHang(t: DType, k: nat, w: Bytes) returns (w': Bytes)
    requires IsGroup(t) && k <= |t.parts| && PartsHang(t, k, w)
    requires forall j | 0 <= j < k :: Inhabited(t.parts[j])
    ensures PartsHang(t, 0, w')
    decreases k
  {
    hide PartsHang, IsValue;
    if k == 0 {
      w' := w;
    } else {
      assert Inhabited(t.parts[k - 1]);
      var v :| IsValue(t.parts[k - 1], v);
      OneMorePartHangs(t, k - 1, v, w);
      w' := EarlierPartsHang(t, k - 1, v + w);
    }
  }

  lemma OneMorePartHangs(t: DType, j: nat, v: Bytes, w: Bytes)
    requires IsGroup(t) && j < |t.parts| && IsValue(t.parts[j], v) && PartsHang(t, j + 1, w)
    ensures PartsHang(t, j, v + w)
  {
    hide Unpack, UnpackParts, IsValue;
    forall before: Bytes, buffer: Bytes ensures UnpackParts(t, j, before + (v + w), |before|, buffer) == Forever {
      PartHangs(t, j, v, w, before, buffer);
    }
  }

  lemma ArrayHangs(t: DType, inner: Bytes, before: Bytes, buffer: Bytes)
    requires t.Array? && KindOf(t) == T_VARARRAY && Size(t) == 0
    requires CanBeEmpty(t.element) || Hangs(t.element, inner)
    ensures Unpack(t, before + ([1, 0] + inner), |before|, buffer) == Forever
  {
    var data, at := before + ([1, 0] + inner), |before|;
    assert SizeAt(data, at) == 1;
    if CanBeEmpty(t.element) {
      EmptyElementsLoop(t, data, at, buffer);
    } else {
      var head := buffer + data[at..at + 2];
      assert data == (before + [1, 0]) + inner;
      assert Unpack(t.element, (before + [1, 0]) + inner, |before + [1, 0]|, head) == Forever;
      assert Unpack(t, data, at, buffer) == UnpackElements(t, 0, 1, data, at + 2, head, |buffer| + 2);
    }
  }

  lemma PartHangs(t: DType, i: nat, v: Bytes, w: Bytes, before: Bytes, buffer: Bytes)
    requires IsGroup(t) && i < |t.parts| && IsValue(t.parts[i], v)
    requires PartsHang(t, i + 1, w)
    ensures UnpackParts(t, i, before + (v + w), |before|, buffer) == Forever
  {
    var data := before + (v + w);
    assert data[|before|..|before| + |v|] == v;
    ValueIsFound(t.parts[i], v, data, |before|, buffer);
    assert data == (before + v) + w;
    assert UnpackParts(t, i + 1, (before + v) + w, |before + v|, buffer + v) == Forever;
  }

  /** Unpacking ends on every input exactly if the type does not loop. */
  lemma UnpackEndsExactly(t: DType)
    ensures (forall data: Bytes, at: nat | at <= |data| :: !Unpack(t, data, at, []).Forever?) <==> !Loops(t)
  {
    if Loops(t) {
      var w := LoopsHangs(t);
      var none: Bytes := [];
      assert none + w == w;
      assert Unpack(t, none + w, |none|, none) == Forever;
      assert Unpack(t, w, 0, []).Forever?;
    } else {
      forall data: Bytes, at: nat | at <= |data| ensures !Unpack(t, data, at, []).Forever? {
        if Unpack(t, data, at, []).Forever? { EndsUnlessLoops(t, data, at, []); }
      }
    }
  }

  /** In particular it ends if the elements of all variable arrays have some width. */
  lemma UnpackEnds(t: DType, data: Bytes, at: nat, buffer: Bytes)
    requires ElementsHaveWidth(t) && at <= |data|
    ensures !Unpack(t, data, at, buffer).Forever?
  {
    WidthNeverLoops(t);
    if Unpack(t, data, at, buffer).Forever? { EndsUnlessLoops(t, data, at, buffer); }
  }

  lemma {:induction false} WidthNeverLoops(t: DType)
    requires ElementsHaveWidth(t)
    ensures !Loops(t)
    decreases t
  {
    match t {
      case Numeric(_, _) =>
      case Array(e, _) => WidthNeverLoops(e);
      case _ =>
        forall k | 0 <= k < |t.parts| ensures !Loops(t.parts[k]) { WidthNeverLoops(t.parts[k]); }
    }
  }
}
