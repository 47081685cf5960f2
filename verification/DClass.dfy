/** The types of distributed fields: numbers, arrays of them, and structs and methods made
    of them, with the byte size and the constraint flag that each type caches. */
module DClass {
  type Byte = b: int | 0 <= b < 256
  type Bytes = seq<Byte>

  datatype Option<T> = None | Some(value: T)

  const SIZE_LIMIT := 0x1_0000      // sizetag_t is 16 bits wide
  const UINT_LIMIT := 0x1_0000_0000 // unsigned int is 32 bits wide

  datatype Number = Int8 | Int16 | Int32 | Int64 | UInt8 | UInt16 | UInt32 | UInt64 | Char | Float32 | Float64

  datatype Sizes = AnySize | Sizes(min: nat, max: nat)

  /** A number's range is the set of its encodings that are allowed. */
  datatype DType =
    | Numeric(number: Number, range: Option<set<Bytes>>)
    | Array(element: DType, sizes: Sizes)
    | Struct(parts: seq<DType>)
    | Method(parts: seq<DType>)

  datatype Kind = T_NUMERIC | T_STRING | T_VARSTRING | T_BLOB | T_VARBLOB | T_ARRAY | T_VARARRAY | T_STRUCT | T_METHOD

  function NumberSize(n: Number): (w: nat)
    ensures 0 < w <= 8
  {
    match n
    case Int8 | UInt8 | Char => 1
    case Int16 | UInt16 => 2
    case Int32 | UInt32 | Float32 => 4
    case Int64 | UInt64 | Float64 => 8
  }

  /** m_array_size: the one allowed number of elements, or 0. */
  function ArraySize(sizes: Sizes): nat {
    if sizes.Sizes? && sizes.min == sizes.max then sizes.min % UINT_LIMIT else 0
  }

  /** m_size, a 16-bit number: 0 stands for a variable size. */
  function Size(t: DType): (size: nat)
    ensures size < SIZE_LIMIT
    decreases t, 1, 0
  {
    match t
    case Numeric(n, _) => NumberSize(n)
    case Array(e, sizes) =>
      if Size(e) > 0 && ArraySize(sizes) > 0 then ArraySize(sizes) * Size(e) % SIZE_LIMIT else 0
    case _ => SizeOfParts(t, |t.parts|)
  }

  /** m_size after so many calls of add_field or add_parameter. */
  function SizeOfParts(t: DType, n: nat): (size: nat)
    requires (t.Struct? || t.Method?) && n <= |t.parts|
    ensures size < SIZE_LIMIT
    decreases t, 0, n
  {
    if n == 0 then 0
    else WithPart(SizeOfParts(t, n - 1), n, Size(t.parts[n-1]))
  }

  /** m_size when the n-th part is added. */
  function WithPart(size: nat, n: nat, part: nat): nat {
    if size > 0 || n == 1 then
      if part > 0 then (size + part) % SIZE_LIMIT else 0
    else size
  }

  function KindOf(t: DType): Kind {
    match t
    case Numeric(_, _) => T_NUMERIC
    case Struct(_) => T_STRUCT
    case Method(_) => T_METHOD
    case Array(e, sizes) =>
      var fixed := Size(e) > 0 && ArraySize(sizes) > 0;
      if e.Numeric? && e.number == Char then (if fixed then T_STRING else T_VARSTRING)
      else if e.Numeric? && e.number == UInt8 then (if fixed then T_BLOB else T_VARBLOB)
      else if fixed then T_ARRAY else T_VARARRAY
  }

  predicate HasRange(t: DType)
    decreases t, 1, 0
  {
    match t
    case Numeric(_, range) => range.Some?
    case Array(_, sizes) => sizes.Sizes?
    case _ => HasConstraint(t, |t.parts|)
  }

  /** m_has_constraint after so many calls of add_field or add_parameter. */
  predicate HasConstraint(t: DType, n: nat)
    requires (t.Struct? || t.Method?) && n <= |t.parts|
    decreases t, 0, n
  {
    n > 0 && (HasConstraint(t, n - 1) || HasRange(t.parts[n-1]))
  }

  /** within_range, for a number of elements. */
  predicate CountInRange(sizes: Sizes, count: nat) {
    if ArraySize(sizes) > 0 then ArraySize(sizes) == count
    else sizes.Sizes? ==> sizes.min <= count <= sizes.max
  }

  // ----- What the cached size means -----

  /** The width of every encoding of the type, if they all have the same by design: a
      number's, a fixed number of such elements, or a row of such parts. */
  function Width(t: DType): Option<nat>
    decreases t, 1, 0
  {
    match t
    case Numeric(n, _) => Some(NumberSize(n))
    case Array(e, sizes) =>
      if Width(e).Some? && Width(e).value > 0 && ArraySize(sizes) > 0 then Some(ArraySize(sizes) * Width(e).value) else None
    case _ => WidthOfParts(t, |t.parts|)
  }

  function WidthOfParts(t: DType, n: nat): Option<nat>
    requires (t.Struct? || t.Method?) && n <= |t.parts|
    decreases t, 0, n
  {
    if n == 0 then Some(0)
    else
      var before, part := WidthOfParts(t, n - 1), Width(t.parts[n-1]);
      if before.Some? && part.Some? then Some(before.value + part.value) else None
  }

  /** No struct or method without parts is part of this type. */
  predicate NoEmptyParts(t: DType)
    decreases t
  {
    match t
    case Numeric(_, _) => true
    case Array(e, _) => NoEmptyParts(e)
    case _ => t.parts != [] && forall k | 0 <= k < |t.parts| :: NoEmptyParts(t.parts[k])
  }

  lemma {:induction false} VariableHasNoSize(t: DType)
    ensures Width(t).None? ==> Size(t) == 0
    decreases t, 1, 0
  {
    match t {
      case Numeric(_, _) =>
      case Array(e, sizes) =>
        VariableHasNoSize(e);
        EmptyHasNoSize(e);
      case _ => VariablePartsHaveNoSize(t, |t.parts|);
    }
  }

  lemma {:induction false} VariablePartsHaveNoSize(t: DType, n: nat)
    requires (t.Struct? || t.Method?) && n <= |t.parts|
    ensures WidthOfParts(t, n).None? ==> SizeOfParts(t, n) == 0
    ensures WidthOfParts(t, n).None? ==> n > 0
    decreases t, 0, n
  {
    if n > 0 {
      VariablePartsHaveNoSize(t, n - 1);
      VariableHasNoSize(t.parts[n-1]);
      if n == 1 { assert WidthOfParts(t, 0) == Some(0); }
    }
  }

  lemma {:induction false} EmptyHasNoSize(t: DType)
    ensures Width(t) == Some(0) ==> Size(t) == 0
    decreases t, 1, 0
  {
    match t {
      case Numeric(_, _) =>
      case Array(_, _) => Product(ArraySize(t.sizes), Width(t.element));
      case _ => EmptyPartsHaveNoSize(t, |t.parts|);
    }
  }

  lemma Product(n: nat, w: Option<nat>)
    ensures n > 0 && w.Some? && w.value > 0 ==> n * w.value >= n && n * w.value >= w.value
  {
    if n > 0 && w.Some? && w.value > 0 {
      assert n * w.value - n == n * (w.value - 1) >= 0;
      assert n * w.value - w.value == (n - 1) * w.value >= 0;
    }
  }

  lemma {:induction false} EmptyPartsHaveNoSize(t: DType, n: nat)
    requires (t.Struct? || t.Method?) && n <= |t.parts|
    ensures WidthOfParts(t, n) == Some(0) ==> SizeOfParts(t, n) == 0
    decreases t, 0, n
  {
    if n > 0 {
      EmptyPartsHaveNoSize(t, n - 1);
      EmptyHasNoSize(t.parts[n-1]);
    }
  }

  /** The cached size is the width of a type exactly when that width fits the cache and
      no part of the type is empty. */
  lemma {:induction false} SizeIsWidth(t: DType)
    requires Width(t).Some? && Width(t).value > 0
    ensures Size(t) == Width(t).value <==> Width(t).value < SIZE_LIMIT && NoEmptyParts(t)
    ensures !NoEmptyParts(t) ==> Size(t) == 0
    decreases t, 1, 0
  {
    match t {
      case Numeric(_, _) =>
      case Array(e, sizes) =>
        SizeIsWidth(e);
        Product(ArraySize(sizes), Width(e));
        if Width(t).value < SIZE_LIMIT && Size(e) == Width(e).value { assert Size(t) == Width(t).value; }
      case _ => PartsAreWidth(t, |t.parts|);
    }
  }

  predicate NoEmptyPartsUpTo(t: DType, n: nat)
    requires (t.Struct? || t.Method?) && n <= |t.parts|
  {
    n > 0 && forall k | 0 <= k < n :: NoEmptyParts(t.parts[k])
  }

  lemma {:induction false} PartsAreWidth(t: DType, n: nat)
    requires (t.Struct? || t.Method?) && n <= |t.parts| && WidthOfParts(t, n).Some?
    ensures var w := WidthOfParts(t, n).value;
            && (w > 0 ==> (SizeOfParts(t, n) == w <==> w < SIZE_LIMIT && NoEmptyPartsUpTo(t, n)))
            && (!NoEmptyPartsUpTo(t, n) ==> SizeOfParts(t, n) == 0)
    decreases t, 0, n
  {
    hide Size, Width, NoEmptyParts;
    if n > 0 {
      PartsAreWidth(t, n - 1);
      var part := t.parts[n-1];
      var before, w := WidthOfParts(t, n - 1).value, Width(part).value;
      if w > 0 { SizeIsWidth(part); } else { EmptyHasNoSize(part); NothingIsEmpty(part); }
      if before == 0 && n > 1 { EmptyPartsHaveNoSize(t, n - 1); NothingBefore(t, n - 1); }
      PartAdded(n, before, w, SizeOfParts(t, n - 1), Size(part), NoEmptyPartsUpTo(t, n - 1), NoEmptyParts(part));
    }
  }

  /** The arithmetic of one more part; full says that no part so far is empty. */
  lemma PartAdded(n: nat, before: nat, w: nat, size: nat, part: nat, full: bool, fullPart: bool)
    requires n > 0 && size < SIZE_LIMIT && part < SIZE_LIMIT
    requires n == 1 ==> before == 0 && size == 0
    requires n > 1 ==> (before > 0 ==> (size == before <==> before < SIZE_LIMIT && full)) && (!full ==> size == 0) && (before == 0 ==> !full)
    requires (w > 0 ==> (part == w <==> w < SIZE_LIMIT && fullPart)) && (!fullPart ==> part == 0) && (w == 0 ==> !fullPart)
    ensures var all := fullPart && (n > 1 ==> full);
            && (before + w > 0 ==> (WithPart(size, n, part) == before + w <==> before + w < SIZE_LIMIT && all))
            && (!all ==> WithPart(size, n, part) == 0)
  {
    var sum := size + part;
    assert sum < SIZE_LIMIT ==> sum % SIZE_LIMIT == sum;
    assert sum >= SIZE_LIMIT ==> sum % SIZE_LIMIT == sum - SIZE_LIMIT;
  }

  /** What has width zero is a struct or method without parts, or made of such. */
  lemma {:induction false} NothingIsEmpty(t: DType)
    requires Width(t) == Some(0)
    ensures !NoEmptyParts(t)
    decreases t, 1, 0
  {
    match t {
      case Numeric(_, _) =>
      case Array(e, sizes) => Product(ArraySize(sizes), Width(e));
      case _ => if t.parts != [] { NothingBefore(t, |t.parts|); }
    }
  }

  lemma {:induction false} NothingBefore(t: DType, n: nat)
    requires (t.Struct? || t.Method?) && 0 < n <= |t.parts| && WidthOfParts(t, n) == Some(0)
    ensures !NoEmptyParts(t.parts[n-1]) && !NoEmptyPartsUpTo(t, n)
    decreases t, 0, n
  {
    NothingIsEmpty(t.parts[n-1]);
  }

  // ----- Building -----

  datatype Field = Field(name: string, dtype: DType, molecular: bool)

  /** A struct under construction; its own name may not be the name of a field. */
  class StructBuilder {
    const name: string
    var names: set<string>
    var fields: seq<DType>
    var size: nat
    var constrained: bool

    constructor (name: string)
      ensures Valid() && fields == [] && names == {} && this.name == name
    {
      this.name := name;
      names, fields, size, constrained := {}, [], 0, false;
    }

    ghost predicate Valid()
      reads this
    {
      size == Size(Struct(fields)) && (constrained <==> HasRange(Struct(fields)))
    }

    method AddField(f: Field) returns (added: bool)
      requires Valid()
      modifies this
      ensures Valid()
      ensures added <==> !f.molecular && !f.dtype.Method? && (f.name != "" ==> f.name != name && f.name !in old(names))
      ensures fields == if added then old(fields) + [f.dtype] else old(fields)
      ensures names == if added && f.name != "" then old(names) + {f.name} else old(names)
    {
      if f.molecular {
        return false;
      }
      if f.dtype.Method? {
        return false;
      }
      if f.name != "" {
        if f.name == name {
          return false;
        }
        if f.name in names {
          return false;
        }
        names := names + {f.name};
      }
      hide Size, HasRange;
      OneMorePart(Struct(fields), Struct(fields + [f.dtype]), f.dtype);
      fields := fields + [f.dtype];
      if size > 0 || |fields| == 1 {
        if Size(f.dtype) > 0 {
          size := (size + Size(f.dtype)) % SIZE_LIMIT;
        } else {
          size := 0;
        }
      }
      if !constrained && HasRange(f.dtype) {
        constrained := true;
      }
      added := true;
    }
  }

  /** A method under construction. */
  class MethodBuilder {
    var names: set<string>
    var parameters: seq<DType>
    var size: nat
    var constrained: bool

    constructor ()
      ensures Valid() && parameters == [] && names == {}
    {
      names, parameters, size, constrained := {}, [], 0, false;
    }

    ghost predicate Valid()
      reads this
    {
      size == Size(Method(parameters)) && (constrained <==> HasRange(Method(parameters)))
    }

    method AddParameter(f: Field) returns (added: bool)
      requires Valid()
      modifies this
      ensures Valid()
      ensures added <==> (f.name != "" ==> f.name !in old(names))
      ensures parameters == if added then old(parameters) + [f.dtype] else old(parameters)
      ensures names == if added && f.name != "" then old(names) + {f.name} else old(names)
    {
      if f.name != "" {
        if f.name in names {
          return false;
        }
        names := names + {f.name};
      }
      hide Size, HasRange;
      OneMorePart(Method(parameters), Method(parameters + [f.dtype]), f.dtype);
      parameters := parameters + [f.dtype];
      if size > 0 || |parameters| == 1 {
        if Size(f.dtype) > 0 {
          size := (size + Size(f.dtype)) % SIZE_LIMIT;
        } else {
          size := 0;
        }
      }
      if !constrained && HasRange(f.dtype) {
        constrained := true;
      }
      added := true;
    }
  }

  lemma OneMorePart(t: DType, u: DType, part: DType)
    requires (t.Struct? && u.Struct?) || (t.Method? && u.Method?)
    requires u.parts == t.parts + [part]
    ensures Size(u) == WithPart(Size(t), |u.parts|, Size(part))
    ensures HasRange(u) == (HasRange(t) || HasRange(part))
  {
    MorePartsAgree(t, u, |t.parts|);
  }

  lemma {:induction false} MorePartsAgree(t: DType, u: DType, n: nat)
    requires (t.Struct? || t.Method?) && (u.Struct? || u.Method?) && n <= |t.parts| && t.parts <= u.parts
    ensures SizeOfParts(u, n) == SizeOfParts(t, n)
    ensures HasConstraint(u, n) == HasConstraint(t, n)
    decreases n
  {
    if n > 0 { MorePartsAgree(t, u, n - 1); }
  }
}
