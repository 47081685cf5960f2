/** Printing a MessagePack value: strings, binaries, arrays and maps of any nesting. */
module MsgpackDecode {
  import opened EventLog

  /** How a value is printed. RunsShort: the datagram ends first. Elsewhere: numbers and
      extension values, whose printing is not described. */
  datatype Decoded = Printed(out: string, next: nat) | RunsShort | Elsewhere

  datatype Shape = Str | Arr | Map | Word(text: string) | Unmodelled

  /** What a first byte says: a shape, the length inside the byte, and the number of bytes
      of a length that follows it. */
  datatype Head = Head(shape: Shape, length: nat, lengthBytes: nat)

  function HeadOf(msg: Byte): Head {
    if msg < 0x80 then Head(Unmodelled, 0, 0)
    else if msg <= 0x8f then Head(Map, msg - 0x80, 0)
    else if msg <= 0x9f then Head(Arr, msg - 0x90, 0)
    else if msg <= 0xbf then Head(Str, msg - 0xa0, 0)
    else
      match msg
      case 0xc0 => Head(Word("null"), 0, 0)
      case 0xc1 => Head(Word("*INVALID*"), 0, 0)
      case 0xc2 => Head(Word("false"), 0, 0)
      case 0xc3 => Head(Word("true"), 0, 0)
      case 0xc4 | 0xd9 => Head(Str, 0, 1)
      case 0xc5 | 0xda => Head(Str, 0, 2)
      case 0xc6 | 0xdb => Head(Str, 0, 4)
      case 0xdc => Head(Arr, 0, 2)
      case 0xdd => Head(Arr, 0, 4)
      case 0xde => Head(Map, 0, 2)
      case 0xdf => Head(Map, 0, 4)
      case _ => Head(Unmodelled, 0, 0)
  }

  /** A number, its highest byte first. */
  function BigEndian(s: Bytes): nat {
    if s == [] then 0 else 256 * BigEndian(s[..|s|-1]) + s[|s|-1]
  }

  /** A length becomes a signed 32-bit number, and a negative one means no rounds. */
  function Rounds(length: nat): nat {
    if length < 0x8000_0000 then length else 0
  }

  function Decode(data: Bytes, at: nat, out: string): (d: Decoded)
    requires at <= |data|
    ensures d.Printed? ==> at < d.next <= |data|
    decreases |data| - at, 1, 0
  {
    if at == |data| then RunsShort
    else
      var head := HeadOf(data[at]);
      if at + 1 + head.lengthBytes > |data| then RunsShort
      else
        var from := at + 1 + head.lengthBytes;
        var n := Rounds(head.length + BigEndian(data[at + 1..from]));
        match head.shape
        case Unmodelled => Elsewhere
        case Word(text) => Printed(out + text, from)
        case Str => DecodeString(data, from, n, out)
        case Arr => Closed(DecodeItems(data, from, 0, n, false, out + "["), "]")
        case Map => Closed(DecodeItems(data, from, 0, n, true, out + "{"), "}")
  }

  function Closed(d: Decoded, end: string): Decoded {
    match d
    case Printed(out, next) => Printed(out + end, next)
    case _ => d
  }

  function DecodeString(data: Bytes, at: nat, n: nat, out: string): (d: Decoded)
    requires at <= |data|
    ensures d.Printed? ==> at <= d.next <= |data|
  {
    if at + n > |data| then RunsShort else Printed(out + Quote(data[at..at + n]), at + n)
  }

  /** The rounds from the i-th on: one value each, or a key and a value. */
  function DecodeItems(data: Bytes, at: nat, i: nat, n: nat, isMap: bool, out: string): (d: Decoded)
    requires at <= |data|
    ensures d.Printed? ==> at <= d.next <= |data|
    decreases |data| - at, 2, n - i
  {
    if i >= n then Printed(out, at)
    else
      var between := out + (if i != 0 then ", " else "");
      var key := if isMap then Closed(Decode(data, at, between), ": ") else Printed(between, at);
      match key
      case Printed(out1, at1) =>
        (match Decode(data, at1, out1)
         case Printed(out2, at2) => DecodeItems(data, at2, i + 1, n, isMap, out2)
         case failed => failed)
      case failed => failed
  }

  // ----- Printing what was packed -----

  lemma PackedString(s: Bytes, before: Bytes, rest: Bytes, out: string)
    requires Packable(s)
    ensures var data := before + PackString(s) + rest;
            Decode(data, |before|, out) == Printed(out + Quote(s), |before + PackString(s)|)
  {
    hide EscapeAll;
    var data := before + PackString(s) + rest;
    var tag := |PackString(s)| - |s|;
    assert data[|before| + tag..|before| + tag + |s|] == s;
    if |s| < 32 {
      assert data[|before|] == 0xa0 + |s|;
      assert data[|before| + 1..|before| + 1] == [];
      assert HeadOf(data[|before|]) == Head(Str, |s|, 0);
    } else {
      assert data[|before|] == 0xda && HeadOf(0xda) == Head(Str, 0, 2);
      TwoBytes(data[|before| + 1..|before| + 3], |s|);
    }
  }

  lemma TwoBytes(s: Bytes, n: nat)
    requires n < 0x1_0000 && s == [n / 256, n % 256]
    ensures BigEndian(s) == n
  {
    var high: Bytes := [n / 256];
    assert s[..1] == high && high[..0] == [] && BigEndian([]) == 0;
    assert BigEndian(high) == n / 256;
  }

  lemma {:induction false} PackedItems(kv: seq<Pair>, i: nat, n: nat, before: Bytes, rest: Bytes, out: string)
    requires AllPackable(kv) && n == i + |kv|
    ensures var data := before + PackPairs(kv) + rest;
            DecodeItems(data, |before|, i, n, true, out)
              == Printed(out + PrintPairs(kv, i != 0), |before + PackPairs(kv)|)
    decreases |kv|
  {
    if kv == [] {
      assert out + PrintPairs(kv, i != 0) == out;
    } else {
      hide Decode, Quote, PackString;
      var key, value, more := PackString(kv[0].key), PackString(kv[0].value), PackPairs(kv[1..]);
      var data := before + PackPairs(kv) + rest;
      var between := out + (if i != 0 then ", " else "");
      assert PackPairs(kv) == key + value + more;
      Regroup(before, key, value, more, rest);
      PackedString(kv[0].key, before, value + more + rest, between);
      var out1 := between + Quote(kv[0].key) + ": ";
      PackedString(kv[0].value, before + key, more + rest, out1);
      var out2 := out1 + Quote(kv[0].value);
      PackedItems(kv[1..], i + 1, n, before + key + value, rest, out2);
      PrintedSoFar(kv, i != 0, out);
      assert DecodeItems(data, |before|, i, n, true, out)
          == DecodeItems(data, |before + key + value|, i + 1, n, true, out2);
    }
  }

  lemma Regroup(before: Bytes, key: Bytes, value: Bytes, more: Bytes, rest: Bytes)
    ensures before + (key + value + more) + rest == before + key + (value + more + rest)
    ensures before + (key + value + more) + rest == (before + key) + value + (more + rest)
    ensures before + (key + value + more) + rest == (before + key + value) + more + rest
    ensures before + (key + value + more) == before + key + value + more
  {
  }

  lemma PrintedSoFar(kv: seq<Pair>, more: bool, out: string)
    requires kv != []
    ensures out + PrintPairs(kv, more)
         == out + (if more then ", " else "") + Quote(kv[0].key) + ": " + Quote(kv[0].value) + PrintPairs(kv[1..], true)
  {
    hide Quote;
    var a, b, c, d := if more then ", " else "", Quote(kv[0].key), Quote(kv[0].value), PrintPairs(kv[1..], true);
    Associates(out, a, b);
    Associates(out, a + b, ": ");
    Associates(out, a + b + ": ", c);
    Associates(out, a + b + ": " + c, d);
  }

  /** An event that was packed is printed pair by pair, to the last byte of the datagram. */
  lemma PackedIsPrinted(kv: seq<Pair>)
    requires AllPackable(kv) && |Packed(kv)| <= DATAGRAM_MAX
    ensures Decode(Packed(kv), 0, "") == Printed(Print(kv), |Packed(kv)|)
  {
    hide DecodeItems, PackPairs, PrintPairs, PackSize, HeadOf, BigEndian;
    PairsTakeSpace(kv);
    var data, size := Packed(kv), PackSize(|kv|);
    PackedItems(kv, 0, |kv|, size, [], "{");
    assert size + PackPairs(kv) + [] == data;
    assert "" + "{" == "{";
    PackedHead(|kv|, PackPairs(kv));
    Associates("{", PrintPairs(kv, false), "}");
  }

  /** The first bytes of a packed event are a map with as many pairs. */
  lemma PackedHead(n: nat, rest: Bytes)
    requires n < 0x1_0000
    ensures var data := PackSize(n) + rest;
            var head := HeadOf(data[0]);
            && head.shape == Map && 1 + head.lengthBytes == |PackSize(n)|
            && head.length + BigEndian(data[1..|PackSize(n)|]) == n
  {
    var data := PackSize(n) + rest;
    if n < 16 {
      assert data[0] == 0x80 + n && data[1..1] == [];
      assert HeadOf(data[0]) == Head(Map, n, 0);
    } else {
      assert data[0] == 0xde && HeadOf(0xde) == Head(Map, 0, 2);
      assert data[1..3] == [n / 256, n % 256];
      TwoBytes(data[1..3], n);
    }
  }

  /** So the printed line gives back the pairs of the event. */
  lemma EventsReadBack(kv: seq<Pair>)
    requires AllPackable(kv) && |Packed(kv)| <= DATAGRAM_MAX
    ensures var d := Decode(Packed(kv), 0, "");
            d.Printed? && d.next == |Packed(kv)| && ReadPrinted(d.out) == Some(kv)
  {
    PackedIsPrinted(kv);
    PrintedReadsBack(kv);
  }

  // ----- The decoder itself -----

  class Decoder {
    const data: Bytes
    var offset: nat
    var out: string

    constructor (data: Bytes)
      ensures this.data == data && offset == 0 && out == "" && Valid()
    {
      this.data, offset, out := data, 0, "";
    }

    predicate Valid()
      reads this
    {
      offset <= |data|
    }

    /** Whether this is how a value starting at one offset is printed. */
    ghost predicate Agrees(d: Decoded, result: Decoded)
      reads this
    {
      && Valid()
      && d == result
      && (d.Printed? ==> d.out == out && d.next == offset)
    }

    method PrintString(n: nat) returns (d: Decoded)
      requires Valid()
      modifies this
      ensures Agrees(d, DecodeString(data, old(offset), n, old(out)))
    {
      hide EscapeAll, Escape;
      out := out + "\"";
      var i := 0;
      ghost var from := offset;
      NothingEscaped(data[from..from], out);
      while i < n
        invariant i <= n && offset == from + i <= |data|
        invariant out == old(out) + "\"" + EscapeAll(data[from..offset])
      {
        if offset == |data| {
          return RunsShort;
        }
        EscapeOneMore(data[from..offset], data[offset]);
        assert data[from..offset] + [data[offset]] == data[from..offset + 1];
        Associates(old(out) + "\"", EscapeAll(data[from..offset]), Escape(data[offset]));
        out := out + Escape(data[offset]);
        offset := offset + 1;
        i := i + 1;
      }
      Associates(old(out), "\"" + EscapeAll(data[from..offset]), "\"");
      Associates(old(out), "\"", EscapeAll(data[from..offset]));
      out := out + "\"";
      d := Printed(out, offset);
    }

    method PrintValue() returns (d: Decoded)
      requires Valid()
      modifies this
      ensures Agrees(d, Decode(data, old(offset), old(out)))
      decreases |data| - offset, 0
    {
      hide HeadOf, DecodeItems, DecodeString;
      if offset == |data| {
        return RunsShort;
      }
      var head := HeadOf(data[offset]);
      var from := offset + 1 + head.lengthBytes;
      if from > |data| {
        return RunsShort;
      }
      var n := Rounds(head.length + BigEndian(data[offset + 1..from]));
      offset := from;
      match head.shape {
        case Unmodelled =>
          d := Elsewhere;
        case Word(text) =>
          out := out + text;
          d := Printed(out, offset);
        case Str =>
          d := PrintString(n);
        case Arr =>
          d := PrintContainer(n, false);
        case Map =>
          d := PrintContainer(n, true);
      }
    }

    method PrintContainer(n: nat, isMap: bool) returns (d: Decoded)
      requires Valid()
      modifies this
      ensures Agrees(d, if isMap then Closed(DecodeItems(data, old(offset), 0, n, true, old(out) + "{"), "}")
                        else Closed(DecodeItems(data, old(offset), 0, n, false, old(out) + "["), "]"))
      decreases |data| - offset, 1
    {
      hide Decode;
      out := out + (if isMap then "{" else "[");
      ghost var start := out;
      var i := 0;
      while i < n
        invariant i <= n && old(offset) <= offset <= |data|
        invariant DecodeItems(data, old(offset), 0, n, isMap, start) == DecodeItems(data, offset, i, n, isMap, out)
        invariant i == 0 ==> offset == old(offset)
      {
        ghost var out0, at0 := out, offset;
        if i != 0 {
          out := out + ", ";
        }
        assert out == out0 + (if i != 0 then ", " else "");
        if isMap {
          d := PrintValue();
          if !d.Printed? {
            return;
          }
          out := out + ": ";
        }
        d := PrintValue();
        if !d.Printed? {
          return;
        }
        i := i + 1;
      }
      out := out + (if isMap then "}" else "]");
      d := Printed(out, offset);
    }
  }

  lemma NothingEscaped(s: Bytes, out: string)
    requires s == []
    ensures out + EscapeAll(s) == out
  {
  }

  lemma {:induction false} EscapeOneMore(s: Bytes, b: Byte)
    ensures EscapeAll(s + [b]) == EscapeAll(s) + Escape(b)
    decreases |s|
  {
    if s == [] {
      assert s + [b] == [b] && [b][1..] == [];
    } else {
      assert (s + [b])[1..] == s[1..] + [b];
      EscapeOneMore(s[1..], b);
      Associates(Escape(s[0]), EscapeAll(s[1..]), Escape(b));
    }
  }
}
