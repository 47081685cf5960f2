/** Whether unpacking and skipping a value end at the same place. A datagram holds fewer
    than 64K bytes, which is why the 16-bit sizes that types cache do not lead astray. */
module UnpackingAndSkipping {
  import opened DClass
  import opened DatagramIterator
  import opened Unpacking

  // ----- Types with a size -----

  /** If the cached size is not 0, it is the size of all the parts up to here, once around
      or more, and the next part has a size as well. */
  lemma {:induction false} PartsHaveSize(t: DType, n: nat)
    requires IsGroup(t) && 0 < n <= |t.parts| && Size(t) > 0
    ensures SizeOfParts(t, n) > 0 && Size(t.parts[n-1]) > 0
    ensures SizeOfParts(t, n) == (SizeOfParts(t, n - 1) + Size(t.parts[n-1])) % SIZE_LIMIT
    decreases |t.parts| - n
  {
    if n < |t.parts| { PartsHaveSize(t, n + 1); }
  }

  /** Reading a type of a size takes as many bytes, in one go or one by one: what wraps
      around does not fit the datagram. */
  lemma {:induction false} UnpackCovers(t: DType, data: Bytes, at: nat, buffer: Bytes)
    requires |data| < SIZE_LIMIT && Size(t) > 0 && at <= |data| && Unpack(t, data, at, buffer).Done?
    ensures Unpack(t, data, at, buffer).offset == at + Size(t)
    decreases t, 2, 0
  {
    if IsGroup(t) {
      GroupSize(t);
      if HasRange(t) { PartsCover(t, 0, data, at, buffer, at); }
    } else if KindOf(t) == T_ARRAY && HasRange(t.element) {
      RepeatedCovers(t, 0, data, at, buffer);
      NoWrap(ArraySize(t.sizes) * Size(t.element));
    }
  }

  lemma GroupSize(t: DType)
    requires IsGroup(t)
    ensures Size(t) == SizeOfParts(t, |t.parts|) && SizeOfParts(t, 0) == 0
  {
  }

  lemma NoWrap(n: nat)
    ensures n < SIZE_LIMIT ==> n % SIZE_LIMIT == n
  {
  }

  lemma {:induction false} RepeatedCovers(t: DType, i: nat, data: Bytes, at: nat, buffer: Bytes)
    requires |data| < SIZE_LIMIT && t.Array? && Size(t.element) > 0 && i <= ArraySize(t.sizes) && at <= |data|
    requires UnpackRepeated(t, i, data, at, buffer).Done?
    ensures UnpackRepeated(t, i, data, at, buffer).offset == at + (ArraySize(t.sizes) - i) * Size(t.element)
    decreases t, 1, ArraySize(t.sizes) - i
  {
    hide Unpack, Size;
    if i < ArraySize(t.sizes) {
      UnpackCovers(t.element, data, at, buffer);
      var first := Unpack(t.element, data, at, buffer);
      RepeatedCovers(t, i + 1, data, first.offset, first.buffer);
      OneElementLess(ArraySize(t.sizes) - i, Size(t.element));
    }
  }

  lemma OneElementLess(n: int, w: nat)
    ensures n * w == w + (n - 1) * w
  {
  }

  lemma {:induction false} PartsCover(t: DType, i: nat, data: Bytes, at: nat, buffer: Bytes, from: nat)
    requires |data| < SIZE_LIMIT && IsGroup(t) && Size(t) > 0 && i <= |t.parts| && at <= |data|
    requires at == from + SizeOfParts(t, i) && UnpackParts(t, i, data, at, buffer).Done?
    ensures UnpackParts(t, i, data, at, buffer).offset == from + Size(t)
    decreases t, 1, |t.parts| - i
  {
    hide Unpack, Size, SizeOfParts;
    GroupSize(t);
    if i < |t.parts| {
      var first := Unpack(t.parts[i], data, at, buffer);
      PartsHaveSize(t, i + 1);
      UnpackCovers(t.parts[i], data, at, buffer);
      NoWrap(SizeOfParts(t, i) + Size(t.parts[i]));
      PartsCover(t, i + 1, data, first.offset, first.buffer, from);
    }
  }

  // ----- Where the two meet -----

  /** The payload of each variable array that is met ends where an element ends, arrays
      inside arrays excepted. */
  predicate Aligned(t: DType, data: Bytes, at: nat, buffer: Bytes)
    decreases t, 2, 0
  {
    match KindOf(t)
    case T_VARARRAY =>
      at + 2 <= |data| && Unpack(t, data, at, buffer).Done? ==>
        Unpack(t, data, at, buffer).offset == at + 2 + SizeAt(data, at)
    case T_STRUCT => Size(t) > 0 || AlignedParts(t, 0, data, at, buffer)
    case T_METHOD => Size(t) > 0 || AlignedParts(t, 0, data, at, buffer)
    case _ => true
  }

  predicate AlignedParts(t: DType, i: nat, data: Bytes, at: nat, buffer: Bytes)
    requires IsGroup(t) && i <= |t.parts|
    decreases t, 1, |t.parts| - i
  {
    i < |t.parts| ==>
      && Aligned(t.parts[i], data, at, buffer)
      && match Unpack(t.parts[i], data, at, buffer)
         case Done(next, more) => AlignedParts(t, i + 1, data, next, more)
         case _ => true
  }

  /** A successful unpack and a skip end at the same place. */
  lemma {:induction false} UnpackMeetsSkip(t: DType, data: Bytes, at: nat, buffer: Bytes)
    requires |data| < SIZE_LIMIT && Aligned(t, data, at, buffer) && at <= |data| && Unpack(t, data, at, buffer).Done?
    ensures Skip(t, data, at) == Skipped(Unpack(t, data, at, buffer).offset)
    decreases t, 2, 0
  {
    if Size(t) > 0 {
      UnpackCovers(t, data, at, buffer);
    } else if IsGroup(t) {
      PartsMeetSkip(t, 0, data, at, buffer);
    }
  }

  lemma {:induction false} PartsMeetSkip(t: DType, i: nat, data: Bytes, at: nat, buffer: Bytes)
    requires IsGroup(t) && |data| < SIZE_LIMIT && i <= |t.parts| && at <= |data|
    requires AlignedParts(t, i, data, at, buffer) && UnpackParts(t, i, data, at, buffer).Done?
    ensures SkipParts(t, i, data, at) == Skipped(UnpackParts(t, i, data, at, buffer).offset)
    decreases t, 1, |t.parts| - i
  {
    if i < |t.parts| {
      UnpackMeetsSkip(t.parts[i], data, at, buffer);
      var first := Unpack(t.parts[i], data, at, buffer);
      PartsMeetSkip(t, i + 1, data, first.offset, first.buffer);
    }
  }

  /** Elements of one size end with the payload exactly if they divide it. */
  lemma ElementsAlign(t: DType, data: Bytes, at: nat, buffer: Bytes)
    requires t.Array? && KindOf(t) == T_VARARRAY && |data| < SIZE_LIMIT && Size(t.element) > 0
    requires at + 2 <= |data| && Unpack(t, data, at, buffer).Done?
    ensures Aligned(t, data, at, buffer) <==> SizeAt(data, at) % Size(t.element) == 0
  {
    var head := buffer + data[at..at + 2];
    var n := ElementsFill(t, 0, SizeAt(data, at), data, at + 2, head, |head|);
    Divides(SizeAt(data, at), n, Size(t.element));
  }

  /** For arrays of elements of one size the remainder decides whether the two meet. */
  lemma ArraysMeetExactly(t: DType, data: Bytes, at: nat, buffer: Bytes)
    requires t.Array? && KindOf(t) == T_VARARRAY && |data| < SIZE_LIMIT && Size(t.element) > 0
    requires at + 2 <= |data| && Unpack(t, data, at, buffer).Done?
    ensures Skip(t, data, at) == Skipped(Unpack(t, data, at, buffer).offset) <==> SizeAt(data, at) % Size(t.element) == 0
  {
    hide Unpack;
    ElementsAlign(t, data, at, buffer);
  }

  /** What skipping meets fits: each payload is filled by its elements, one skipped after
      the other. Nothing but the sizes on the way is looked at. */
  predicate Tiled(t: DType, data: Bytes, at: nat)
    requires at <= |data|
    decreases t, 2, 0
  {
    match KindOf(t)
    case T_VARARRAY =>
      at + 2 <= |data| && at + 2 + SizeAt(data, at) <= |data| && ElementsTile(t, data, at + 2, at + 2 + SizeAt(data, at))
    case T_STRUCT => Size(t) > 0 || PartsTile(t, 0, data, at)
    case T_METHOD => Size(t) > 0 || PartsTile(t, 0, data, at)
    case _ => true
  }

  predicate ElementsTile(t: DType, data: Bytes, at: nat, end: nat)
    requires t.Array? && at <= end <= |data|
    decreases t, 1, end - at
  {
    at == end ||
    (Tiled(t.element, data, at) &&
     match Skip(t.element, data, at)
     case Skipped(next) => at < next <= end && ElementsTile(t, data, next, end)
     case PastEnd => false)
  }

  predicate PartsTile(t: DType, i: nat, data: Bytes, at: nat)
    requires IsGroup(t) && i <= |t.parts| && at <= |data|
    decreases t, 1, |t.parts| - i
  {
    i < |t.parts| ==>
      Tiled(t.parts[i], data, at) &&
      match Skip(t.parts[i], data, at)
      case Skipped(next) => PartsTile(t, i + 1, data, next)
      case PastEnd => false
  }

  /** Then a successful unpack ends where skipping does. */
  lemma {:induction false} TiledMeetsSkip(t: DType, data: Bytes, at: nat, buffer: Bytes)
    requires at <= |data| && |data| < SIZE_LIMIT && Tiled(t, data, at) && Unpack(t, data, at, buffer).Done?
    ensures Aligned(t, data, at, buffer)
    ensures Skip(t, data, at) == Skipped(Unpack(t, data, at, buffer).offset)
    decreases t, 2, 0
  {
    if IsGroup(t) {
      if Size(t) == 0 { TiledParts(t, 0, data, at, buffer); }
    } else if KindOf(t) == T_VARARRAY {
      var len, head := SizeAt(data, at), buffer + data[at..at + 2];
      TiledElements(t, 0, len, data, at + 2, head, |head|, at + 2 + len);
    }
    UnpackMeetsSkip(t, data, at, buffer);
  }

  lemma {:induction false} TiledElements(t: DType, count: nat, len: nat, data: Bytes, at: nat, buffer: Bytes, start: nat, end: nat)
    requires t.Array? && |data| < SIZE_LIMIT && at <= end <= |data| && start <= |buffer|
    requires end - at == len - (|buffer| - start) && ElementsTile(t, data, at, end)
    requires UnpackElements(t, count, len, data, at, buffer, start).Done?
    ensures UnpackElements(t, count, len, data, at, buffer, start).offset == end
    decreases t, 1, end - at
  {
    if at < end {
      var first := Unpack(t.element, data, at, buffer);
      TiledMeetsSkip(t.element, data, at, buffer);
      UnpackCopies(t.element, data, at, buffer);
      TiledElements(t, count + 1, len, data, first.offset, first.buffer, start, end);
    }
  }

  lemma {:induction false} TiledParts(t: DType, i: nat, data: Bytes, at: nat, buffer: Bytes)
    requires IsGroup(t) && |data| < SIZE_LIMIT && i <= |t.parts| && at <= |data|
    requires PartsTile(t, i, data, at) && UnpackParts(t, i, data, at, buffer).Done?
    ensures AlignedParts(t, i, data, at, buffer)
    decreases t, 1, |t.parts| - i
  {
    if i < |t.parts| {
      TiledMeetsSkip(t.parts[i], data, at, buffer);
      var first := Unpack(t.parts[i], data, at, buffer);
      TiledParts(t, i + 1, data, first.offset, first.buffer);
    }
  }

  lemma Divides(len: nat, n: nat, w: nat)
    requires w > 0 && len <= n * w < len + w
    ensures n * w == len <==> len % w == 0
  {
    var m, r := len / w, len % w;
    assert len == m * w + r;
    if n > m {
      Multiples(n - m, w);
      assert n * w == m * w + (n - m) * w;
    } else if n < m {
      Multiples(m - n, w);
    }
  }

  lemma Multiples(n: nat, w: nat)
    requires n > 0
    ensures n * w >= w
  {
    assert n * w - w == (n - 1) * w >= 0;
  }

  lemma {:induction false} ElementsFill(t: DType, count: nat, len: nat, data: Bytes, at: nat, buffer: Bytes, start: nat) returns (n: nat)
    requires t.Array? && |data| < SIZE_LIMIT && Size(t.element) > 0 && start <= |buffer| && at <= |data|
    requires |buffer| - start == count * Size(t.element) < len + Size(t.element)
    requires UnpackElements(t, count, len, data, at, buffer, start).Done?
    ensures n * Size(t.element) == |buffer| - start + UnpackElements(t, count, len, data, at, buffer, start).offset - at
    ensures len <= n * Size(t.element) < len + Size(t.element)
    decreases |data| - at
  {
    n := count;
    if |buffer| - start < len {
      var first := Unpack(t.element, data, at, buffer);
      UnpackCovers(t.element, data, at, buffer);
      UnpackCopies(t.element, data, at, buffer);
      OneElementLess(count + 1, Size(t.element));
      n := ElementsFill(t, count + 1, len, data, first.offset, first.buffer, start);
    }
  }

  /** Where the last element runs past the payload the two part ways: of a three-byte
      payload of 16-bit numbers, skipping passes over three bytes and unpacking over four. */
  lemma MisalignedDiffer(buffer: Bytes)
    ensures var t, data := Array(Numeric(UInt16, None), AnySize), [3, 0, 7, 7, 7, 7];
            && Skip(t, data, 0) == Skipped(5)
            && Unpack(t, data, 0, buffer) == Done(6, buffer + data)
  {
    var e := Numeric(UInt16, None);
    var t, data: Bytes := Array(e, AnySize), [3, 0, 7, 7, 7, 7];
    var b2, b4, b6 := buffer + data[0..2], buffer + data[0..4], buffer + data;
    assert Unpack(e, data, 2, b2) == Done(4, b2 + data[2..4]) && b2 + data[2..4] == b4;
    assert Unpack(e, data, 4, b4) == Done(6, b4 + data[4..6]) && b4 + data[4..6] == b6;
    assert UnpackElements(t, 2, 3, data, 6, b6, |buffer| + 2) == Done(6, b6);
    assert UnpackElements(t, 1, 3, data, 4, b4, |buffer| + 2) == Done(6, b6);
    assert UnpackElements(t, 0, 3, data, 2, b2, |buffer| + 2) == Done(6, b6);
  }

  // ----- Exactly when they meet -----

  /** No variable array is part of this type. */
  predicate Flat(t: DType)
    decreases t
  {
    match t
    case Numeric(_, _) => true
    case Array(_, _) => KindOf(t) != T_VARARRAY
    case _ => forall k | 0 <= k < |t.parts| :: Flat(t.parts[k])
  }

  /** A variable array of such elements, or no variable array at all. */
  predicate Simple(t: DType) {
    Flat(t) || (t.Array? && Flat(t.element))
  }

  /** Nothing can be out of step where there is no variable array. */
  lemma {:induction false} FlatIsTiled(t: DType, data: Bytes, at: nat, buffer: Bytes)
    requires |data| < SIZE_LIMIT && Flat(t) && at <= |data| && Unpack(t, data, at, buffer).Done?
    ensures Tiled(t, data, at)
    ensures Skip(t, data, at) == Skipped(Unpack(t, data, at, buffer).offset)
    decreases t, 2, 0
  {
    if IsGroup(t) && Size(t) == 0 { FlatPartsTile(t, 0, data, at, buffer); }
    TiledMeetsSkip(t, data, at, buffer);
  }

  lemma {:induction false} FlatPartsTile(t: DType, i: nat, data: Bytes, at: nat, buffer: Bytes)
    requires |data| < SIZE_LIMIT && IsGroup(t) && Flat(t) && i <= |t.parts| && at <= |data|
    requires UnpackParts(t, i, data, at, buffer).Done?
    ensures PartsTile(t, i, data, at)
    decreases t, 1, |t.parts| - i
  {
    if i < |t.parts| {
      FlatIsTiled(t.parts[i], data, at, buffer);
      var first := Unpack(t.parts[i], data, at, buffer);
      FlatPartsTile(t, i + 1, data, first.offset, first.buffer);
    }
  }

  lemma {:induction false} ReadElementsTile(t: DType, count: nat, len: nat, data: Bytes, at: nat, buffer: Bytes, start: nat)
    requires |data| < SIZE_LIMIT && t.Array? && Flat(t.element) && at <= |data|
    requires UnpackElements(t, count, len, data, at, buffer, start).Done?
    ensures ElementsTile(t, data, at, UnpackElements(t, count, len, data, at, buffer, start).offset)
    decreases |data| - at
  {
    if |buffer| - start < len {
      FlatIsTiled(t.element, data, at, buffer);
      var first := Unpack(t.element, data, at, buffer);
      ReadElementsTile(t, count + 1, len, data, first.offset, first.buffer, start);
    }
  }

  /** For what is no variable array, or one whose elements hold none, the sizes on the way
      decide: skipping meets a successful unpack exactly if they fit. */
  lemma SimpleMeetsExactly(t: DType, data: Bytes, at: nat, buffer: Bytes)
    requires |data| < SIZE_LIMIT && Simple(t) && at <= |data| && Unpack(t, data, at, buffer).Done?
    ensures Skip(t, data, at) == Skipped(Unpack(t, data, at, buffer).offset) <==> Tiled(t, data, at)
  {
    if Flat(t) {
      FlatIsTiled(t, data, at, buffer);
    } else if Tiled(t, data, at) {
      TiledMeetsSkip(t, data, at, buffer);
    } else {
      var head := buffer + data[at..at + 2];
      ReadElementsTile(t, 0, SizeAt(data, at), data, at + 2, head, |head|);
    }
  }

  /** At every part of a struct or method the two end at the same place. */
  predicate PartsMeet(t: DType, i: nat, data: Bytes, at: nat, buffer: Bytes)
    requires IsGroup(t) && i <= |t.parts|
    decreases |t.parts| - i
  {
    i < |t.parts| ==>
      match Unpack(t.parts[i], data, at, buffer)
      case Done(next, more) => Skip(t.parts[i], data, at) == Skipped(next) && PartsMeet(t, i + 1, data, next, more)
      case _ => false
  }

  /** And for structs and methods of these they meet at every part exactly if the sizes
      on the way fit. */
  lemma {:induction false} PartsMeetExactly(t: DType, i: nat, data: Bytes, at: nat, buffer: Bytes)
    requires |data| < SIZE_LIMIT && IsGroup(t) && i <= |t.parts| && at <= |data|
    requires (forall k | 0 <= k < |t.parts| :: Simple(t.parts[k])) && UnpackParts(t, i, data, at, buffer).Done?
    ensures PartsMeet(t, i, data, at, buffer) <==> PartsTile(t, i, data, at)
    decreases |t.parts| - i
  {
    if i < |t.parts| {
      var first := Unpack(t.parts[i], data, at, buffer);
      SimpleMeetsExactly(t.parts[i], data, at, buffer);
      PartsMeetExactly(t, i + 1, data, first.offset, first.buffer);
    }
  }
}
