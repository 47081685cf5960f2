/** Which bytes are a value of a type, said of the bytes alone: in range, text where text
    is asked for, the right number of elements, part after part. */
module Values {
  import opened DClass
  import opened DatagramIterator
  import opened Unpacking

  /** Two bytes that tell how many follow, and those. */
  predicate Tagged(v: Bytes) {
    |v| >= 2 && |v| == 2 + v[0] as int + 0x100 * v[1] as int
  }

  predicate Text(v: Bytes) {
    forall b | b in v :: b < 128
  }

  /** quick: a value of known size without anything to check, inside it or about it, is
      any bytes of that size. */
  ghost predicate Valid(t: DType, v: Bytes, quick: bool)
    decreases t, 2, 0
  {
    match t
    case Numeric(n, range) => |v| == NumberSize(n) && (range.Some? ==> v in range.value)
    case Array(e, sizes) =>
      (match KindOf(t)
       case T_STRING => |v| == Size(t) && Text(v)
       case T_BLOB => |v| == Size(t)
       case T_ARRAY => if quick && (Size(t) == 0 || !HasRange(e)) then |v| == Size(t) else InARow(e, v, ArraySize(sizes), quick)
       case T_VARSTRING => Tagged(v) && CountInRange(sizes, |v| - 2) && Text(v[2..])
       case T_VARBLOB => Tagged(v) && CountInRange(sizes, |v| - 2)
       case _ => |v| >= 2 && exists n :: CountInRange(sizes, n) && Filling(e, v[2..], v[0] as int + 0x100 * v[1] as int, n, quick))
    case _ => if quick && Size(t) > 0 && !HasRange(t) then |v| == Size(t) else PartsInARow(t, 0, v, quick)
  }

  /** n values of one type, one after the other. */
  ghost predicate InARow(t: DType, v: Bytes, n: nat, quick: bool)
    decreases t, 3, n
  {
    if n == 0 then v == [] else exists k :: 0 <= k <= |v| && Valid(t, v[..k], quick) && InARow(t, v[k..], n - 1, quick)
  }

  /** n values one after the other, the last of which makes up the bytes announced. */
  ghost predicate Filling(t: DType, v: Bytes, len: int, n: nat, quick: bool)
    decreases t, 3, n
  {
    if n == 0 then v == [] && len <= 0
    else len > 0 && exists k :: 0 < k <= |v| && Valid(t, v[..k], quick) && Filling(t, v[k..], len - k, n - 1, quick)
  }

  ghost predicate PartsInARow(t: DType, i: nat, v: Bytes, quick: bool)
    requires IsGroup(t) && i <= |t.parts|
    decreases t, 1, |t.parts| - i
  {
    if i == |t.parts| then v == []
    else exists k :: 0 <= k <= |v| && Valid(t.parts[i], v[..k], quick) && PartsInARow(t, i + 1, v[k..], quick)
  }

  /** The reading goes to the end. */
  predicate ToTheEnd(r: Reading, v: Bytes) {
    r.Done? && r.offset == |v|
  }

  lemma WholeIsValue(t: DType, v: Bytes)
    ensures IsValue(t, v) <==> ToTheEnd(Unpack(t, v, 0, []), v)
  {
    hide Unpack;
    UnpackCopies(t, v, 0, []);
    assert v[0..|v|] == v && [] + v == v;
  }

  /** Exactly what is valid by its type unpacks, as a whole. */
  lemma {:induction false} ValuesAreValid(t: DType, v: Bytes)
    ensures IsValue(t, v) <==> Valid(t, v, true)
    decreases t, 2, 0
  {
    hide IsValue, UnpackRepeated, UnpackParts, UnpackVariable, UnpackPlain, UnpackBytes, InARow, Filling, PartsInARow, Size, HasRange, KindOf;
    WholeIsValue(t, v);
    KindsOfArray(t);
    SizesOfKinds(t);
    PlainIsValid(t, v);
    assert v[0..] == v;
    match t {
      case Numeric(_, _) =>
      case Array(_, _) =>
        BytesAreValid(t, v);
        VariableIsValid(t, v);
        RepeatedInARow(t, 0, v, 0, []);
      case _ =>
        PartsAreInARow(t, 0, v, 0, []);
    }
  }

  lemma SizesOfKinds(t: DType)
    ensures t.Numeric? ==> Size(t) == NumberSize(t.number) && KindOf(t) == T_NUMERIC
    ensures KindOf(t) in {T_VARSTRING, T_VARBLOB, T_VARARRAY} ==> Size(t) == 0
  {
  }

  lemma TextByByte(s: Bytes)
    ensures IsText(s) <==> Text(s)
  {
    forall k | 0 <= k < |s| ensures s[k] in s {}
  }

  lemma PlainIsValid(t: DType, v: Bytes)
    ensures ToTheEnd(UnpackPlain(t, v, 0, []), v)
       <==> |v| == Size(t) && (t.Numeric? && t.range.Some? ==> v in t.range.value) && (KindOf(t) == T_STRING ==> Text(v))
  {
    hide Size, KindOf, IsText;
    TextByByte(v);
    if |v| == Size(t) {
      assert v[0..0 + Size(t)] == v;
    }
  }

  lemma BytesAreValid(t: DType, v: Bytes)
    requires t.Array?
    ensures ToTheEnd(UnpackBytes(t, v, 0, []), v)
       <==> Tagged(v) && CountInRange(t.sizes, |v| - 2) && (KindOf(t) == T_VARSTRING ==> Text(v[2..]))
  {
    hide KindOf, CountInRange, IsText;
    if Tagged(v) {
      TextByByte(v[2..]);
      assert v[2..2 + SizeAt(v, 0)] == v[2..];
    }
  }

  /** One value stands at a place, and what is left is read from behind it. */
  lemma ValueStands(t: DType, v: Bytes, at: nat, k: nat, buffer: Bytes)
    requires at <= at + k <= |v| && IsValue(t, v[at..][..k])
    ensures Unpack(t, v, at, buffer) == Done(at + k, buffer + v[at..at + k])
    ensures v[at..][k..] == v[at + k..]
  {
    assert v[at..][..k] == v[at..at + k];
    ValueIsFound(t, v[at..][..k], v, at, buffer);
  }

  lemma ValueRead(t: DType, v: Bytes, at: nat, buffer: Bytes) returns (k: nat)
    requires at <= |v| && Unpack(t, v, at, buffer).Done?
    ensures at + k == Unpack(t, v, at, buffer).offset <= |v|
    ensures Unpack(t, v, at, buffer).buffer == buffer + v[at..at + k]
    ensures IsValue(t, v[at..][..k]) && v[at..][k..] == v[at + k..]
  {
    k := Unpack(t, v, at, buffer).offset - at;
    UnpackedReadsBack(t, v, at, buffer);
    assert v[at..][..k] == v[at..at + k];
  }

  lemma {:induction false} RepeatedInARow(t: DType, i: nat, v: Bytes, at: nat, buffer: Bytes)
    requires t.Array? && at <= |v| && i <= ArraySize(t.sizes)
    ensures ToTheEnd(UnpackRepeated(t, i, v, at, buffer), v) <==> InARow(t.element, v[at..], ArraySize(t.sizes) - i, true)
    decreases t, 1, ArraySize(t.sizes) - i
  {
    hide Unpack, Valid, IsValue, ArraySize;
    var e, n := t.element, ArraySize(t.sizes) - i;
    if n > 0 {
      if ToTheEnd(UnpackRepeated(t, i, v, at, buffer), v) {
        var k := ValueRead(e, v, at, buffer);
        ValuesAreValid(e, v[at..][..k]);
        RepeatedInARow(t, i + 1, v, at + k, buffer + v[at..at + k]);
      }
      if InARow(e, v[at..], n, true) {
        var k :| 0 <= k <= |v[at..]| && Valid(e, v[at..][..k], true) && InARow(e, v[at..][k..], n - 1, true);
        ValuesAreValid(e, v[at..][..k]);
        ValueStands(e, v, at, k, buffer);
        RepeatedInARow(t, i + 1, v, at + k, buffer + v[at..at + k]);
      }
    }
  }

  lemma {:induction false} PartsAreInARow(t: DType, i: nat, v: Bytes, at: nat, buffer: Bytes)
    requires IsGroup(t) && i <= |t.parts| && at <= |v|
    ensures ToTheEnd(UnpackParts(t, i, v, at, buffer), v) <==> PartsInARow(t, i, v[at..], true)
    decreases t, 1, |t.parts| - i
  {
    hide Unpack, Valid, IsValue;
    if i < |t.parts| {
      var p := t.parts[i];
      if ToTheEnd(UnpackParts(t, i, v, at, buffer), v) {
        var k := ValueRead(p, v, at, buffer);
        ValuesAreValid(p, v[at..][..k]);
        PartsAreInARow(t, i + 1, v, at + k, buffer + v[at..at + k]);
      }
      if PartsInARow(t, i, v[at..], true) {
        var k :| 0 <= k <= |v[at..]| && Valid(p, v[at..][..k], true) && PartsInARow(t, i + 1, v[at..][k..], true);
        ValuesAreValid(p, v[at..][..k]);
        ValueStands(p, v, at, k, buffer);
        PartsAreInARow(t, i + 1, v, at + k, buffer + v[at..at + k]);
      }
    }
  }

  lemma VariableIsValid(t: DType, v: Bytes)
    requires t.Array?
    ensures ToTheEnd(UnpackVariable(t, v, 0, []), v)
       <==> |v| >= 2 && exists n :: CountInRange(t.sizes, n) && Filling(t.element, v[2..], v[0] as int + 0x100 * v[1] as int, n, true)
    decreases t, 1, |v| + 2
  {
    hide UnpackElements, CountInRange, Filling;
    if |v| >= 2 {
      var len, head := SizeAt(v, 0), v[0..2];
      assert [] + head == head;
      var r := UnpackElements(t, 0, len, v, 2, head, 2);
      assert UnpackVariable(t, v, 0, []) == r;
      if ToTheEnd(r, v) {
        var n := ElementsFill(t, 0, len, v, 2, head, 2);
      }
      if exists n :: CountInRange(t.sizes, n) && Filling(t.element, v[2..], len, n, true) {
        var n :| CountInRange(t.sizes, n) && Filling(t.element, v[2..], len, n, true);
        FillingIsRead(t, 0, len, v, 2, head, 2, n);
      }
    }
  }

  lemma {:induction false} ElementsFill(t: DType, count: nat, len: nat, v: Bytes, at: nat, buffer: Bytes, start: nat) returns (n: nat)
    requires t.Array? && at <= |v| && start <= |buffer| && ToTheEnd(UnpackElements(t, count, len, v, at, buffer, start), v)
    ensures CountInRange(t.sizes, count + n) && Filling(t.element, v[at..], len - (|buffer| - start), n, true)
    decreases t, 1, |v| - at
  {
    hide Unpack, Valid, IsValue, CountInRange;
    if |buffer| - start >= len {
      n := 0;
    } else {
      var k := ValueRead(t.element, v, at, buffer);
      ValuesAreValid(t.element, v[at..][..k]);
      n := ElementsFill(t, count + 1, len, v, at + k, buffer + v[at..at + k], start);
      n := n + 1;
    }
  }

  lemma {:induction false} FillingIsRead(t: DType, count: nat, len: nat, v: Bytes, at: nat, buffer: Bytes, start: nat, n: nat)
    requires t.Array? && at <= |v| && start <= |buffer| && CountInRange(t.sizes, count + n)
    requires Filling(t.element, v[at..], len - (|buffer| - start), n, true)
    ensures ToTheEnd(UnpackElements(t, count, len, v, at, buffer, start), v)
    decreases t, 1, |v| - at
  {
    hide Unpack, Valid, IsValue, CountInRange;
    if n > 0 {
      var left := len - (|buffer| - start);
      var k :| 0 < k <= |v[at..]| && Valid(t.element, v[at..][..k], true) && Filling(t.element, v[at..][k..], left - k, n - 1, true);
      ValuesAreValid(t.element, v[at..][..k]);
      ValueStands(t.element, v, at, k, buffer);
      FillingIsRead(t, count + 1, len, v, at + k, buffer + v[at..at + k], start, n - 1);
    }
  }

  // ----- Reading in one go -----

  /** Wherever bytes are taken without looking inside, the size kept for them is their width. */
  predicate Sized(t: DType)
    decreases t
  {
    match t
    case Numeric(_, _) => true
    case Array(e, _) => Sized(e) && (KindOf(t) == T_ARRAY && (Size(t) == 0 || !HasRange(e)) ==> Width(t) == Some(Size(t)))
    case _ =>
      (forall k | 0 <= k < |t.parts| :: Sized(t.parts[k])) && (Size(t) > 0 && !HasRange(t) ==> Width(t) == Some(Size(t)))
  }

  /** A type of fixed width with nothing to check: any bytes of that width are a value. */
  lemma {:induction false} UncheckedIsWidth(t: DType, v: Bytes)
    requires Width(t).Some? && !HasRange(t)
    ensures Valid(t, v, false) <==> |v| == Width(t).value
    decreases t, 2, 0
  {
    if IsGroup(t) {
      UncheckedParts(t, 0, v);
    }
  }

  lemma {:induction false} UncheckedParts(t: DType, i: nat, v: Bytes)
    requires IsGroup(t) && i <= |t.parts| && Width(t).Some? && !HasRange(t)
    ensures WidthOfParts(t, i).Some? && (PartsInARow(t, i, v, false) <==> |v| == Width(t).value - WidthOfParts(t, i).value)
    decreases t, 1, |t.parts| - i
  {
    if i < |t.parts| {
      WidthBefore(t, i + 1, |t.parts|);
      var p, w := t.parts[i], Width(t.parts[i]).value;
      if PartsInARow(t, i, v, false) {
        var k :| 0 <= k <= |v| && Valid(p, v[..k], false) && PartsInARow(t, i + 1, v[k..], false);
        UncheckedIsWidth(p, v[..k]);
        UncheckedParts(t, i + 1, v[k..]);
      }
      UncheckedParts(t, i + 1, []);
      if |v| == Width(t).value - WidthOfParts(t, i).value {
        UncheckedIsWidth(p, v[..w]);
        UncheckedParts(t, i + 1, v[w..]);
      }
    }
  }

  lemma {:induction false} WidthBefore(t: DType, i: nat, n: nat)
    requires IsGroup(t) && i <= n <= |t.parts| && WidthOfParts(t, n).Some? && !HasConstraint(t, n)
    ensures WidthOfParts(t, i).Some? && WidthOfParts(t, i).value <= WidthOfParts(t, n).value && !HasConstraint(t, i)
    decreases n
  {
    if i < n {
      WidthBefore(t, i, n - 1);
    }
  }

  lemma OneMoreTime(n: nat, w: nat)
    requires n > 0
    ensures n * w == w + (n - 1) * w >= w
  {
    assert (n - 1) * w >= 0;
  }

  lemma {:induction false} UncheckedRow(t: DType, v: Bytes, n: nat)
    requires Width(t).Some? && !HasRange(t)
    ensures InARow(t, v, n, false) <==> |v| == n * Width(t).value
    decreases n
  {
    hide Valid, Width, HasRange;
    if n > 0 {
      var w := Width(t).value;
      OneMoreTime(n, w);
      if InARow(t, v, n, false) {
        var k :| 0 <= k <= |v| && Valid(t, v[..k], false) && InARow(t, v[k..], n - 1, false);
        UncheckedIsWidth(t, v[..k]);
        UncheckedRow(t, v[k..], n - 1);
      }
      if |v| == n * w {
        UncheckedIsWidth(t, v[..w]);
        UncheckedRow(t, v[w..], n - 1);
      }
    }
  }

  /** The fast path lets nothing through that would be refused otherwise, and refuses
      nothing: what it does not look at has nothing to check in it. */
  lemma {:induction false} FastPathAgrees(t: DType, v: Bytes)
    requires Sized(t)
    ensures Valid(t, v, true) <==> Valid(t, v, false)
    decreases t, 2, 0
  {
    hide InARow, Filling, PartsInARow;
    if t.Array? && KindOf(t) == T_ARRAY {
      if Size(t) == 0 || !HasRange(t.element) {
        ArrayWidth(t);
        UncheckedRow(t.element, v, ArraySize(t.sizes));
      } else {
        RowsAgree(t, v, ArraySize(t.sizes));
      }
    } else if t.Array? && KindOf(t) == T_VARARRAY {
      if |v| >= 2 {
        var payload, len := v[2..], v[0] as int + 0x100 * v[1] as int;
        forall n: nat ensures Filling(t.element, payload, len, n, true) <==> Filling(t.element, payload, len, n, false) {
          FillingsAgree(t, payload, len, n);
        }
      }
    } else if IsGroup(t) {
      if Size(t) > 0 && !HasRange(t) { UncheckedIsWidth(t, v); } else { PartsAgree(t, 0, v); }
    }
  }

  lemma ArrayWidth(t: DType)
    requires t.Array? && KindOf(t) == T_ARRAY && Sized(t) && (Size(t) == 0 || !HasRange(t.element))
    ensures Size(t) > 0 && !HasRange(t.element) && Width(t.element).Some?
    ensures Size(t) == ArraySize(t.sizes) * Width(t.element).value
  {
  }

  lemma {:induction false} RowsAgree(t: DType, v: Bytes, n: nat)
    requires t.Array? && Sized(t)
    ensures InARow(t.element, v, n, true) <==> InARow(t.element, v, n, false)
    decreases t, 1, n
  {
    hide Valid;
    if n > 0 {
      forall k | 0 <= k <= |v|
        ensures Valid(t.element, v[..k], true) <==> Valid(t.element, v[..k], false)
        ensures InARow(t.element, v[k..], n - 1, true) <==> InARow(t.element, v[k..], n - 1, false)
      {
        FastPathAgrees(t.element, v[..k]);
        RowsAgree(t, v[k..], n - 1);
      }
    }
  }

  lemma {:induction false} FillingsAgree(t: DType, v: Bytes, len: int, n: nat)
    requires t.Array? && Sized(t)
    ensures Filling(t.element, v, len, n, true) <==> Filling(t.element, v, len, n, false)
    decreases t, 1, n
  {
    hide Valid;
    if n > 0 {
      forall k | 0 < k <= |v|
        ensures Valid(t.element, v[..k], true) <==> Valid(t.element, v[..k], false)
        ensures Filling(t.element, v[k..], len - k, n - 1, true) <==> Filling(t.element, v[k..], len - k, n - 1, false)
      {
        FastPathAgrees(t.element, v[..k]);
        FillingsAgree(t, v[k..], len - k, n - 1);
      }
    }
  }

  lemma {:induction false} PartsAgree(t: DType, i: nat, v: Bytes)
    requires IsGroup(t) && i <= |t.parts| && Sized(t)
    ensures PartsInARow(t, i, v, true) <==> PartsInARow(t, i, v, false)
    decreases t, 1, |t.parts| - i
  {
    hide Valid;
    if i < |t.parts| {
      forall k | 0 <= k <= |v|
        ensures Valid(t.parts[i], v[..k], true) <==> Valid(t.parts[i], v[..k], false)
        ensures PartsInARow(t, i + 1, v[k..], true) <==> PartsInARow(t, i + 1, v[k..], false)
      {
        FastPathAgrees(t.parts[i], v[..k]);
        PartsAgree(t, i + 1, v[k..]);
      }
    }
  }

  /** A size that is not 0 is that of parts or elements which all have one. */
  lemma {:induction false} SizeHasWidth(t: DType)
    requires Size(t) > 0
    ensures Width(t).Some? && Width(t).value > 0
    decreases t, 2, 0
  {
    if t.Array? {
      SizeHasWidth(t.element);
    } else if IsGroup(t) {
      PartsHaveWidth(t, |t.parts|);
    }
  }

  lemma {:induction false} PartsHaveWidth(t: DType, n: nat)
    requires IsGroup(t) && 0 < n <= |t.parts| && SizeOfParts(t, n) > 0
    ensures WidthOfParts(t, n).Some? && WidthOfParts(t, n).value > 0
    decreases t, 1, n
  {
    SizeHasWidth(t.parts[n - 1]);
    if n > 1 {
      PartsHaveWidth(t, n - 1);
    } else {
      assert WidthOfParts(t, 0) == Some(0);
    }
  }

  lemma {:induction false} SizeIsNotEmpty(t: DType)
    requires Size(t) > 0
    ensures !Valid(t, [], false)
    decreases t
  {
    if t.Array? && KindOf(t) == T_ARRAY {
      SizeIsNotEmpty(t.element);
      var none: Bytes := [];
      assert forall k | 0 <= k <= |none| :: none[..k] == [];
    } else if IsGroup(t) {
      FirstHasSize(t, |t.parts|);
      SizeIsNotEmpty(t.parts[0]);
      var none: Bytes := [];
      assert forall k | 0 <= k <= |none| :: none[..k] == [];
    }
  }

  lemma {:induction false} FirstHasSize(t: DType, n: nat)
    requires IsGroup(t) && n <= |t.parts| && SizeOfParts(t, n) > 0
    ensures n > 0 && Size(t.parts[0]) > 0
    decreases n
  {
    if n > 1 {
      FirstHasSize(t, n - 1);
    }
  }

  /** Where everything inside is in order, a size that is not the width lets something
      through that is no value, or refuses one. */
  lemma FastPathAgreesExactly(t: DType)
    requires t.Array? ==> Sized(t.element)
    requires IsGroup(t) ==> forall k | 0 <= k < |t.parts| :: Sized(t.parts[k])
    ensures (forall v :: Valid(t, v, true) <==> Valid(t, v, false)) <==> Sized(t)
  {
    if Sized(t) {
      forall v ensures Valid(t, v, true) <==> Valid(t, v, false) {
        FastPathAgrees(t, v);
      }
    } else {
      var v: Bytes := seq(Size(t), _ => 0);
      if IsGroup(t) {
        SizeHasWidth(t);
        UncheckedIsWidth(t, v);
      } else {
        RowIsMissized(t, v);
      }
      assert !(Valid(t, v, true) <==> Valid(t, v, false));
    }
  }

  lemma RowIsMissized(t: DType, v: Bytes)
    requires t.Array? && Sized(t.element) && !Sized(t) && |v| == Size(t)
    ensures Valid(t, v, true) && !Valid(t, v, false)
  {
    hide InARow;
    var e, n := t.element, ArraySize(t.sizes);
    SizeHasWidth(e);
    if HasRange(e) {
      SizeIsNotEmpty(e);
      assert v == [];
      RowIsNotEmpty(e, n);
    } else {
      UncheckedRow(e, v, n);
    }
  }

  lemma RowIsNotEmpty(e: DType, n: nat)
    requires !Valid(e, [], false) && n > 0
    ensures !InARow(e, [], n, false)
  {
    var none: Bytes := [];
    assert forall k | 0 <= k <= |none| :: none[..k] == [];
  }

  /** The count is checked as it is declared, unless it is a single one that does not fit
      into the 32 bits in which the type keeps it. */
  lemma CountIsBetween(sizes: Sizes)
    ensures (forall n: nat :: CountInRange(sizes, n) <==> sizes.AnySize? || sizes.min <= n <= sizes.max)
       <==> sizes.AnySize? || sizes.min < sizes.max || sizes.max < sizes.min || sizes.min < UINT_LIMIT || sizes.min % UINT_LIMIT == 0
  {
    if sizes.Sizes? && sizes.min == sizes.max && sizes.min >= UINT_LIMIT && sizes.min % UINT_LIMIT > 0 {
      assert !CountInRange(sizes, sizes.min);
    }
  }
}
