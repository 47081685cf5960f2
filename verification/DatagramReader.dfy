/** The iterator object, whose offset each read advances. A failed read throws; the offset
    it leaves behind is of no further use. The methods describe the reads that end. */
module DatagramReader {
  import opened DClass
  import opened DatagramIterator

  class DatagramReader {
    const data: Bytes
    var offset: nat

    constructor (data: Bytes, offset: nat)
      requires offset <= |data|
      ensures this.data == data && this.offset == offset
    {
      this.data, this.offset := data, offset;
    }

    method CheckReadLength(length: nat) returns (ok: bool)
      ensures ok <==> offset + length <= |data|
    {
      ok := offset + length <= |data|;
    }

    method ReadData(length: nat) returns (ok: bool, bytes: Bytes)
      modifies this
      ensures ok <==> old(offset) + length <= |data|
      ensures ok ==> offset == old(offset) + length && bytes == data[old(offset)..offset]
      ensures !ok ==> offset == old(offset)
    {
      ok := CheckReadLength(length);
      bytes := [];
      if ok {
        bytes := data[offset..offset + length];
        offset := offset + length;
      }
    }

    method ReadSize() returns (ok: bool, n: nat)
      modifies this
      ensures ok <==> old(offset) + 2 <= |data|
      ensures ok ==> n == SizeAt(data, old(offset)) && offset == old(offset) + 2
      ensures !ok ==> offset == old(offset)
    {
      ok := CheckReadLength(2);
      n := 0;
      if ok {
        n := SizeAt(data, offset);
        offset := offset + 2;
      }
    }

    method UnpackDtype(t: DType, buffer: Bytes) returns (r: Reading)
      requires offset <= |data| && !Unpack(t, data, offset, buffer).Forever?
      modifies this
      ensures r == Unpack(t, data, old(offset), buffer)
      ensures offset <= |data| && (r.Done? ==> offset == r.offset)
      decreases t, 1
    {
      var skipFixed := IsGroup(t) && HasRange(t);
      if Size(t) > 0 && !skipFixed {
        if KindOf(t) == T_ARRAY && HasRange(t.element) {
          r := UnpackEach(t, buffer);
          return;
        }
        r := UnpackInOneGo(t, buffer);
        return;
      }
      match KindOf(t) {
        case T_VARSTRING => r := UnpackStringOrBlob(t, buffer);
        case T_VARBLOB => r := UnpackStringOrBlob(t, buffer);
        case T_VARARRAY => r := UnpackArray(t, buffer);
        case T_STRUCT => r := UnpackMembers(t, buffer);
        case T_METHOD => r := UnpackMembers(t, buffer);
        case _ => r := Done(offset, buffer);
      }
    }

    /** The slow path of an array of fixed size, whose elements have constraints. */
    method UnpackEach(t: DType, buffer: Bytes) returns (r: Reading)
      requires t.Array? && offset <= |data| && !UnpackRepeated(t, 0, data, offset, buffer).Forever?
      modifies this
      ensures r == UnpackRepeated(t, 0, data, old(offset), buffer)
      ensures offset <= |data| && (r.Done? ==> offset == r.offset)
      decreases t, 0
    {
      hide Unpack;
      r := Done(offset, buffer);
      var i := 0;
      while i < ArraySize(t.sizes)
        invariant i <= ArraySize(t.sizes) && r.Done? && r.offset == offset <= |data|
        invariant UnpackRepeated(t, 0, data, old(offset), buffer) == UnpackRepeated(t, i, data, offset, r.buffer)
        decreases ArraySize(t.sizes) - i
      {
        r := UnpackDtype(t.element, r.buffer);
        if !r.Done? {
          return;
        }
        i := i + 1;
      }
    }

    method UnpackInOneGo(t: DType, buffer: Bytes) returns (r: Reading)
      requires offset <= |data|
      modifies this
      ensures r == UnpackPlain(t, data, old(offset), buffer)
      ensures offset <= |data| && (r.Done? ==> offset == r.offset)
    {
      hide Size, KindOf;
      var ok, bytes := ReadData(Size(t));
      if !ok {
        return EndOfData;
      }
      if t.Numeric? && t.range.Some? && bytes !in t.range.value {
        return Violation;
      }
      if KindOf(t) == T_STRING {
        var text := CheckText(bytes);
        if !text {
          return Violation;
        }
      }
      r := Done(offset, buffer + bytes);
    }

    method CheckText(bytes: Bytes) returns (text: bool)
      ensures text <==> IsText(bytes)
    {
      for i := 0 to |bytes|
        invariant forall k | 0 <= k < i :: bytes[k] < 128
      {
        if bytes[i] >= 128 {
          return false;
        }
      }
      text := true;
    }

    method UnpackStringOrBlob(t: DType, buffer: Bytes) returns (r: Reading)
      requires t.Array? && offset <= |data|
      modifies this
      ensures r == UnpackBytes(t, data, old(offset), buffer)
      ensures offset <= |data| && (r.Done? ==> offset == r.offset)
    {
      hide KindOf, CountInRange, SizeAt;
      var start := offset;
      var ok, len := ReadSize();
      if !ok {
        return EndOfData;
      }
      var buffer := buffer + data[start..offset];
      var enough, bytes := ReadData(len);
      if !enough {
        return EndOfData;
      }
      if KindOf(t) == T_VARSTRING {
        var text := CheckText(bytes);
        if !text {
          return Violation;
        }
      }
      buffer := buffer + bytes;
      if !CountInRange(t.sizes, len) {
        return Violation;
      }
      r := Done(offset, buffer);
    }

    method UnpackArray(t: DType, buffer: Bytes) returns (r: Reading)
      requires t.Array? && offset <= |data| && !UnpackVariable(t, data, offset, buffer).Forever?
      modifies this
      ensures r == UnpackVariable(t, data, old(offset), buffer)
      ensures offset <= |data| && (r.Done? ==> offset == r.offset)
      decreases t, 0
    {
      hide Unpack, CountInRange, SizeAt;
      var from := offset;
      var ok, len := ReadSize();
      if !ok {
        return EndOfData;
      }
      r := Done(offset, buffer + data[from..offset]);
      var start := |r.buffer|;
      var count := 0;
      while |r.buffer| - start < len
        invariant r.Done? && r.offset == offset <= |data|
        invariant UnpackVariable(t, data, old(offset), buffer) == UnpackElements(t, count, len, data, offset, r.buffer, start)
        decreases |data| - offset
      {
        r := UnpackDtype(t.element, r.buffer);
        if !r.Done? {
          return;
        }
        count := count + 1;
      }
      if !CountInRange(t.sizes, count) {
        r := Violation;
      }
    }

    method UnpackMembers(t: DType, buffer: Bytes) returns (r: Reading)
      requires IsGroup(t) && offset <= |data| && !UnpackParts(t, 0, data, offset, buffer).Forever?
      modifies this
      ensures r == UnpackParts(t, 0, data, old(offset), buffer)
      ensures offset <= |data| && (r.Done? ==> offset == r.offset)
      decreases t, 0
    {
      hide Unpack;
      r := Done(offset, buffer);
      var i := 0;
      while i < |t.parts|
        invariant i <= |t.parts| && r.Done? && r.offset == offset <= |data|
        invariant UnpackParts(t, 0, data, old(offset), buffer) == UnpackParts(t, i, data, offset, r.buffer)
      {
        r := UnpackDtype(t.parts[i], r.buffer);
        if !r.Done? {
          return;
        }
        i := i + 1;
      }
    }

    method SkipDtype(t: DType) returns (ok: bool)
      requires offset <= |data|
      modifies this
      ensures offset <= |data|
      ensures Skip(t, data, old(offset)) == if ok then Skipped(offset) else PastEnd
      decreases t, 1
    {
      if Size(t) > 0 {
        ok := CheckReadLength(Size(t));
        if ok {
          offset := offset + Size(t);
        }
        return;
      }
      match KindOf(t) {
        case T_VARSTRING => ok := SkipPayload();
        case T_VARBLOB => ok := SkipPayload();
        case T_VARARRAY => ok := SkipPayload();
        case T_STRUCT => ok := SkipMembers(t);
        case T_METHOD => ok := SkipMembers(t);
        case _ => ok := true;
      }
    }

    method SkipPayload() returns (ok: bool)
      requires offset <= |data|
      modifies this
      ensures offset <= |data|
      ensures SkipVariable(data, old(offset)) == if ok then Skipped(offset) else PastEnd
    {
      var length;
      ok, length := ReadSize();
      if !ok {
        return;
      }
      ok := CheckReadLength(length);
      if ok {
        offset := offset + length;
      }
    }

    method SkipMembers(t: DType) returns (ok: bool)
      requires IsGroup(t) && offset <= |data|
      modifies this
      ensures offset <= |data|
      ensures SkipParts(t, 0, data, old(offset)) == if ok then Skipped(offset) else PastEnd
      decreases t, 0
    {
      hide Skip;
      var i := 0;
      while i < |t.parts|
        invariant i <= |t.parts| && offset <= |data|
        invariant SkipParts(t, 0, data, old(offset)) == SkipParts(t, i, data, offset)
      {
        ok := SkipDtype(t.parts[i]);
        if !ok {
          return;
        }
        i := i + 1;
      }
      ok := true;
    }
  }
}
