/** Reading typed values out of a datagram: unpacking copies the bytes of a value and
    checks its constraints, skipping only moves past them. */
module DatagramIterator {
  import opened DClass

  /** How a read ends. Forever: the loop over the elements of an array makes no progress. */
  datatype Reading =
    | Done(offset: nat, buffer: Bytes)
    | EndOfData
    | Violation
    | Forever

  datatype Skipping = Skipped(offset: nat) | PastEnd

  /** read_size of two bytes, the lower first. */
  function SizeAt(data: Bytes, at: nat): (n: nat)
    requires at + 2 <= |data|
    ensures n < SIZE_LIMIT
  {
    (data[at] as int) + 0x100 * (data[at + 1] as int)
  }

  predicate IsText(s: Bytes) {
    forall k | 0 <= k < |s| :: s[k] < 128
  }

  /** The checks on a value of fixed size that is read in one go. */
  predicate PlainValueAllowed(t: DType, s: Bytes) {
    && (t.Numeric? && t.range.Some? ==> s in t.range.value)
    && (KindOf(t) == T_STRING ==> IsText(s))
  }

  predicate IsGroup(t: DType) {
    t.Struct? || t.Method?
  }

  /** unpack_dtype. */
  function Unpack(t: DType, data: Bytes, at: nat, buffer: Bytes): (r: Reading)
    ensures r.Done? ==> at <= r.offset && (at <= |data| ==> r.offset <= |data|)
    decreases t, 2, 0
  {
    if Size(t) > 0 && !(IsGroup(t) && HasRange(t)) then
      if KindOf(t) == T_ARRAY && HasRange(t.element) then UnpackRepeated(t, 0, data, at, buffer)
      else UnpackPlain(t, data, at, buffer)
    else
      match KindOf(t)
      case T_VARSTRING => UnpackBytes(t, data, at, buffer)
      case T_VARBLOB => UnpackBytes(t, data, at, buffer)
      case T_VARARRAY => UnpackVariable(t, data, at, buffer)
      case T_STRUCT => UnpackParts(t, 0, data, at, buffer)
      case T_METHOD => UnpackParts(t, 0, data, at, buffer)
      case _ => Done(at, buffer)
  }

  function UnpackPlain(t: DType, data: Bytes, at: nat, buffer: Bytes): (r: Reading)
    ensures r.Done? ==> at <= r.offset <= |data|
  {
    if at + Size(t) > |data| then EndOfData
    else if !PlainValueAllowed(t, data[at..at + Size(t)]) then Violation
    else Done(at + Size(t), buffer + data[at..at + Size(t)])
  }

  /** The elements from the i-th on of an array of fixed size. */
  function UnpackRepeated(t: DType, i: nat, data: Bytes, at: nat, buffer: Bytes): (r: Reading)
    requires t.Array?
    ensures r.Done? ==> at <= r.offset && (at <= |data| ==> r.offset <= |data|)
    decreases t, 1, ArraySize(t.sizes) - i
  {
    if i >= ArraySize(t.sizes) then Done(at, buffer)
    else
      match Unpack(t.element, data, at, buffer)
      case Done(next, more) => UnpackRepeated(t, i + 1, data, next, more)
      case failed => failed
  }

  /** A string or a blob, whose elements are its bytes. */
  function UnpackBytes(t: DType, data: Bytes, at: nat, buffer: Bytes): (r: Reading)
    requires t.Array?
    ensures r.Done? ==> at <= r.offset <= |data|
  {
    if at + 2 > |data| then EndOfData
    else
      var len := SizeAt(data, at);
      if at + 2 + len > |data| then EndOfData
      else
        var s := data[at + 2..at + 2 + len];
        if KindOf(t) == T_VARSTRING && !IsText(s) then Violation
        else if !CountInRange(t.sizes, len) then Violation
        else Done(at + 2 + len, buffer + data[at..at + 2] + s)
  }

  function UnpackVariable(t: DType, data: Bytes, at: nat, buffer: Bytes): (r: Reading)
    requires t.Array?
    ensures r.Done? ==> at <= r.offset <= |data|
    decreases t, 1, |data| + 2
  {
    if at + 2 > |data| then EndOfData
    else UnpackElements(t, 0, SizeAt(data, at), data, at + 2, buffer + data[at..at + 2], |buffer| + 2)
  }

  /** Elements until the bytes copied since a point in the buffer are enough. */
  function UnpackElements(t: DType, count: nat, len: nat, data: Bytes, at: nat, buffer: Bytes, start: nat): (r: Reading)
    requires t.Array? && at <= |data|
    ensures r.Done? ==> at <= r.offset <= |data|
    decreases t, 1, |data| - at
  {
    if |buffer| - start >= len then
      if CountInRange(t.sizes, count) then Done(at, buffer) else Violation
    else
      match Unpack(t.element, data, at, buffer)
      case Done(next, more) =>
        if next == at then Forever else UnpackElements(t, count + 1, len, data, next, more, start)
      case failed => failed
  }

  /** The parts of a struct or method from the i-th on. */
  function UnpackParts(t: DType, i: nat, data: Bytes, at: nat, buffer: Bytes): (r: Reading)
    requires IsGroup(t) && i <= |t.parts|
    ensures r.Done? ==> at <= r.offset && (at <= |data| ==> r.offset <= |data|)
    decreases t, 1, |t.parts| - i
  {
    if i == |t.parts| then Done(at, buffer)
    else
      match Unpack(t.parts[i], data, at, buffer)
      case Done(next, more) => UnpackParts(t, i + 1, data, next, more)
      case failed => failed
  }

  /** skip_dtype. */
  function Skip(t: DType, data: Bytes, at: nat): (r: Skipping)
    ensures r.Skipped? ==> at <= r.offset && (at <= |data| ==> r.offset <= |data|)
    decreases t, 2, 0
  {
    if Size(t) > 0 then
      if at + Size(t) > |data| then PastEnd else Skipped(at + Size(t))
    else
      match KindOf(t)
      case T_VARSTRING => SkipVariable(data, at)
      case T_VARBLOB => SkipVariable(data, at)
      case T_VARARRAY => SkipVariable(data, at)
      case T_STRUCT => SkipParts(t, 0, data, at)
      case T_METHOD => SkipParts(t, 0, data, at)
      case _ => Skipped(at)
  }

  function SkipVariable(data: Bytes, at: nat): (r: Skipping)
    ensures r.Skipped? ==> at <= r.offset <= |data|
  {
    if at + 2 > |data| then PastEnd
    else if at + 2 + SizeAt(data, at) > |data| then PastEnd
    else Skipped(at + 2 + SizeAt(data, at))
  }

  function SkipParts(t: DType, i: nat, data: Bytes, at: nat): (r: Skipping)
    requires IsGroup(t) && i <= |t.parts|
    ensures r.Skipped? ==> at <= r.offset && (at <= |data| ==> r.offset <= |data|)
    decreases t, 1, |t.parts| - i
  {
    if i == |t.parts| then Skipped(at)
    else
      match Skip(t.parts[i], data, at)
      case Skipped(next) => SkipParts(t, i + 1, data, next)
      case PastEnd => PastEnd
  }

  // ----- What unpacking copies -----

  /** The reading went from one offset to another and copied what lies between. */
  predicate Copied(r: Reading, data: Bytes, at: nat, buffer: Bytes) {
    r.Done? && at <= |data| ==> at <= r.offset <= |data| && r.buffer == buffer + data[at..r.offset]
  }

  lemma CopiedOn(r: Reading, data: Bytes, at: nat, next: nat, buffer: Bytes)
    requires at <= next <= |data| && Copied(r, data, next, buffer + data[at..next]) && (r.Done? ==> next <= r.offset)
    ensures Copied(r, data, at, buffer)
  {
    if r.Done? { assert data[at..r.offset] == data[at..next] + data[next..r.offset]; }
  }

  lemma {:induction false} UnpackCopies(t: DType, data: Bytes, at: nat, buffer: Bytes)
    requires at <= |data|
    ensures Copied(Unpack(t, data, at, buffer), data, at, buffer)
    decreases t, 2, 0
  {
    if Size(t) > 0 && !(IsGroup(t) && HasRange(t)) {
      if KindOf(t) == T_ARRAY && HasRange(t.element) { RepeatedCopies(t, 0, data, at, buffer); }
    } else {
      assert buffer + data[at..at] == buffer;
      match KindOf(t) {
        case T_VARARRAY => VariableCopies(t, data, at, buffer);
        case T_STRUCT => PartsCopy(t, 0, data, at, buffer);
        case T_METHOD => PartsCopy(t, 0, data, at, buffer);
        case T_VARSTRING => BytesCopy(t, data, at, buffer);
        case T_VARBLOB => BytesCopy(t, data, at, buffer);
        case _ =>
      }
    }
  }

  lemma BytesCopy(t: DType, data: Bytes, at: nat, buffer: Bytes)
    requires t.Array? && at <= |data|
    ensures Copied(UnpackBytes(t, data, at, buffer), data, at, buffer)
  {
    var r := UnpackBytes(t, data, at, buffer);
    if r.Done? { assert data[at..r.offset] == data[at..at + 2] + data[at + 2..r.offset]; }
  }

  lemma {:induction false} RepeatedCopies(t: DType, i: nat, data: Bytes, at: nat, buffer: Bytes)
    requires t.Array? && at <= |data|
    ensures Copied(UnpackRepeated(t, i, data, at, buffer), data, at, buffer)
    decreases t, 1, ArraySize(t.sizes) - i
  {
    if i >= ArraySize(t.sizes) {
      assert buffer + data[at..at] == buffer;
    } else {
      UnpackCopies(t.element, data, at, buffer);
      var first := Unpack(t.element, data, at, buffer);
      if first.Done? {
        RepeatedCopies(t, i + 1, data, first.offset, first.buffer);
        CopiedOn(UnpackRepeated(t, i + 1, data, first.offset, first.buffer), data, at, first.offset, buffer);
      }
    }
  }

  lemma {:induction false} VariableCopies(t: DType, data: Bytes, at: nat, buffer: Bytes)
    requires t.Array? && at <= |data|
    ensures Copied(UnpackVariable(t, data, at, buffer), data, at, buffer)
    decreases t, 1, |data| + 2
  {
    if at + 2 <= |data| {
      var r := UnpackVariable(t, data, at, buffer);
      ElementsCopy(t, 0, SizeAt(data, at), data, at + 2, buffer + data[at..at + 2], |buffer| + 2);
      CopiedOn(r, data, at, at + 2, buffer);
    }
  }

  lemma {:induction false} ElementsCopy(t: DType, count: nat, len: nat, data: Bytes, at: nat, buffer: Bytes, start: nat)
    requires t.Array? && at <= |data|
    ensures Copied(UnpackElements(t, count, len, data, at, buffer, start), data, at, buffer)
    decreases t, 1, |data| - at
  {
    if |buffer| - start >= len {
      assert buffer + data[at..at] == buffer;
    } else {
      UnpackCopies(t.element, data, at, buffer);
      var first := Unpack(t.element, data, at, buffer);
      if first.Done? && first.offset != at {
        ElementsCopy(t, count + 1, len, data, first.offset, first.buffer, start);
        CopiedOn(UnpackElements(t, count + 1, len, data, first.offset, first.buffer, start), data, at, first.offset, buffer);
      }
    }
  }

  lemma {:induction false} PartsCopy(t: DType, i: nat, data: Bytes, at: nat, buffer: Bytes)
    requires IsGroup(t) && i <= |t.parts| && at <= |data|
    ensures Copied(UnpackParts(t, i, data, at, buffer), data, at, buffer)
    decreases t, 1, |t.parts| - i
  {
    if i == |t.parts| {
      assert buffer + data[at..at] == buffer;
    } else {
      UnpackCopies(t.parts[i], data, at, buffer);
      var first := Unpack(t.parts[i], data, at, buffer);
      if first.Done? {
        PartsCopy(t, i + 1, data, first.offset, first.buffer);
        CopiedOn(UnpackParts(t, i + 1, data, first.offset, first.buffer), data, at, first.offset, buffer);
      }
    }
  }
}
