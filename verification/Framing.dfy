/** Datagrams on a byte stream: each is preceded by its size in two bytes, lower first. */
module Framing {
  type Byte = b: int | 0 <= b < 256
  type Bytes = seq<Byte>
  type Datagram = d: Bytes | |d| < 0x1_0000

  function SizeTag(n: nat): Bytes
    requires n < 0x1_0000
  {
    [n % 256, n / 256]
  }

  function TaggedSize(data: Bytes): (n: nat)
    requires |data| >= 2
    ensures n < 0x1_0000
  {
    (data[0] as int) + 256 * (data[1] as int)
  }

  function Frame(d: Datagram): Bytes {
    SizeTag(|d|) + d
  }

  function Frames(ds: seq<Datagram>): Bytes {
    if ds == [] then [] else Frame(ds[0]) + Frames(ds[1..])
  }

  function TotalSize(ds: seq<Datagram>): nat {
    if ds == [] then 0 else |ds[0]| + TotalSize(ds[1..])
  }

  /** The reading loop waits at what is left: two bytes or less, or part of a frame. */
  predicate Incomplete(data: Bytes) {
    |data| <= 2 || |data| < TaggedSize(data) + 2
  }

  function Concat(chunks: seq<Bytes>): Bytes {
    if chunks == [] then [] else Concat(chunks[..|chunks|-1]) + chunks[|chunks|-1]
  }

  /** What a receiver has made of the bytes so far. */
  datatype Received = Received(delivered: seq<Datagram>, buffer: Bytes)

  /** defragment_input: all the complete frames in the buffer. */
  function Defragmented(r: Received): Received
    decreases |r.buffer|
  {
    if Incomplete(r.buffer) then r
    else
      var n := TaggedSize(r.buffer);
      Defragmented(Received(r.delivered + [r.buffer[2..2 + n]], r.buffer[2 + n..]))
  }

  /** process_datagram: a chunk that is just one frame is not buffered. */
  function Processed(r: Received, chunk: Bytes): Received {
    if r.buffer == [] && |chunk| >= 2 && TaggedSize(chunk) == |chunk| - 2
    then r.(delivered := r.delivered + [chunk[2..]])
    else Defragmented(r.(buffer := r.buffer + chunk))
  }

  function ProcessedAll(chunks: seq<Bytes>): Received {
    if chunks == [] then Received([], [])
    else Processed(ProcessedAll(chunks[..|chunks|-1]), chunks[|chunks|-1])
  }

  // ----- Nothing is lost -----

  lemma {:induction false} FramesConcat(a: seq<Datagram>, b: seq<Datagram>)
    ensures Frames(a + b) == Frames(a) + Frames(b)
  {
    if a == [] {
      assert a + b == b;
    } else {
      assert (a + b)[1..] == a[1..] + b && (a + b)[0] == a[0];
      FramesConcat(a[1..], b);
      assert Frame(a[0]) + (Frames(a[1..]) + Frames(b)) == (Frame(a[0]) + Frames(a[1..])) + Frames(b);
    }
  }

  lemma OneFrame(d: Datagram)
    ensures Frames([d]) == Frame(d)
  {
    assert [d][1..] == [];
    assert Frame(d) + [] == Frame(d);
  }

  /** Taking the first frame off a buffer and putting it back. */
  lemma FrameTakenOff(data: Bytes)
    requires |data| >= 2 && |data| >= TaggedSize(data) + 2
    ensures Frame(data[2..2 + TaggedSize(data)]) + data[2 + TaggedSize(data)..] == data
  {
    var n := TaggedSize(data);
    assert SizeTag(n) == data[..2];
    assert data == data[..2] + data[2..2 + n] + data[2 + n..];
  }

  lemma {:induction false} DefragmentingConserves(r: Received)
    ensures var t := Defragmented(r);
            Frames(t.delivered) + t.buffer == Frames(r.delivered) + r.buffer && Incomplete(t.buffer)
    decreases |r.buffer|
  {
    hide Frames;
    if !Incomplete(r.buffer) {
      var n := TaggedSize(r.buffer);
      DefragmentingConserves(Received(r.delivered + [r.buffer[2..2 + n]], r.buffer[2 + n..]));
      OneFrameConserves(r.delivered, r.buffer);
    }
  }

  lemma OneFrameConserves(delivered: seq<Datagram>, buffer: Bytes)
    requires |buffer| >= 2 && |buffer| >= TaggedSize(buffer) + 2
    ensures var n := TaggedSize(buffer);
            Frames(delivered + [buffer[2..2 + n]]) + buffer[2 + n..] == Frames(delivered) + buffer
  {
    hide Frames, Frame;
    var n := TaggedSize(buffer);
    var d: Datagram := buffer[2..2 + n];
    FrameTakenOff(buffer);
    FramesConcat(delivered, [d]);
    OneFrame(d);
    assert Frames(delivered) + Frame(d) + buffer[2 + n..] == Frames(delivered) + (Frame(d) + buffer[2 + n..]);
  }

  /** Whatever the bytes and whatever the chunks, the datagrams delivered and the bytes kept
      back are the stream, and no complete frame is kept back, save an empty last one. */
  lemma {:induction false} StreamIsConserved(chunks: seq<Bytes>)
    ensures var r := ProcessedAll(chunks);
            Frames(r.delivered) + r.buffer == Concat(chunks) && Incomplete(r.buffer)
    decreases |chunks|
  {
    if chunks != [] {
      var r := ProcessedAll(chunks[..|chunks|-1]);
      var chunk := chunks[|chunks|-1];
      StreamIsConserved(chunks[..|chunks|-1]);
      hide ProcessedAll, Frames, Incomplete;
      ProcessingConserves(r, chunk);
      assert Frames(r.delivered) + (r.buffer + chunk) == Frames(r.delivered) + r.buffer + chunk;
    }
  }

  lemma ProcessingConserves(r: Received, chunk: Bytes)
    ensures var t := Processed(r, chunk);
            Frames(t.delivered) + t.buffer == Frames(r.delivered) + (r.buffer + chunk) && Incomplete(t.buffer)
  {
    hide Frames, Frame, SizeTag;
    if r.buffer == [] && |chunk| >= 2 && TaggedSize(chunk) == |chunk| - 2 {
      FrameTakenOff(chunk);
      assert chunk[2..2 + TaggedSize(chunk)] == chunk[2..] && chunk[|chunk|..] == [];
      FramesConcat(r.delivered, [chunk[2..]]);
      OneFrame(chunk[2..]);
      assert Frame(chunk[2..]) + [] == Frame(chunk[2..]) == chunk == r.buffer + chunk;
      assert Frames(r.delivered) + chunk + [] == Frames(r.delivered) + chunk;
    } else {
      DefragmentingConserves(r.(buffer := r.buffer + chunk));
    }
  }

  // ----- Only one list of datagrams makes a stream -----

  lemma TagOfFrame(d: Datagram, rest: Bytes)
    ensures |Frame(d) + rest| >= 2 && TaggedSize(Frame(d) + rest) == |d|
    ensures (Frame(d) + rest)[2..2 + |d|] == d && (Frame(d) + rest)[2 + |d|..] == rest
  {
  }

  /** The same bytes framed twice, the second time with a rest that is no complete frame. */
  lemma {:induction false} FramesAreUnique(ds: seq<Datagram>, es: seq<Datagram>, rest: Bytes)
    requires Frames(ds) == Frames(es) + rest && Incomplete(rest)
    ensures (es == ds && rest == []) || (ds == es + [[]] && rest == [0, 0])
    decreases |ds|
  {
    if ds == [] {
      assert |Frames(es)| == 0;
    } else if es == [] {
      assert Frames(es) + rest == rest;
      IncompleteFrames(ds);
    } else {
      hide Frames, Incomplete;
      FirstFramesAgree(ds, es, rest);
      FramesAreUnique(ds[1..], es[1..], rest);
      assert ds == [ds[0]] + ds[1..] && es == [es[0]] + es[1..];
      if ds[1..] == es[1..] + [[]] { assert ds == es + [[]]; }
    }
  }

  /** Only an empty datagram makes frames that the reading loop waits at. */
  lemma IncompleteFrames(ds: seq<Datagram>)
    requires ds != [] && Incomplete(Frames(ds))
    ensures ds == [[]] && Frames(ds) == [0, 0]
  {
    TagOfFrame(ds[0], Frames(ds[1..]));
    assert |Frames(ds)| == |ds[0]| + 2 + |Frames(ds[1..])|;
    assert ds == [ds[0]] + ds[1..];
    EmptyFrame();
  }

  lemma FirstFramesAgree(ds: seq<Datagram>, es: seq<Datagram>, rest: Bytes)
    requires ds != [] && es != [] && Frames(ds) == Frames(es) + rest
    ensures ds[0] == es[0] && Frames(ds[1..]) == Frames(es[1..]) + rest
  {
    hide Frame;
    assert Frames(es) + rest == Frame(es[0]) + (Frames(es[1..]) + rest);
    TagOfFrame(ds[0], Frames(ds[1..]));
    TagOfFrame(es[0], Frames(es[1..]) + rest);
  }

  /** However the stream of some datagrams is cut up, the receiver delivers exactly those,
      in order. It can owe one only if the last is empty: then its two bytes are waiting. */
  lemma EveryChunkingDelivers(ds: seq<Datagram>, chunks: seq<Bytes>)
    requires Concat(chunks) == Frames(ds)
    ensures var r := ProcessedAll(chunks);
            || (r.delivered == ds && r.buffer == [])
            || (ds != [] && ds[|ds|-1] == [] && r.delivered == ds[..|ds|-1] && r.buffer == [0, 0])
    ensures (ds != [] ==> ds[|ds|-1] != []) ==> ProcessedAll(chunks) == Received(ds, [])
  {
    var r := ProcessedAll(chunks);
    StreamIsConserved(chunks);
    FramesAreUnique(ds, r.delivered, r.buffer);
  }

  /** A stream with one byte of a next frame behind it: the byte is kept back. */
  lemma {:induction false} OneByteIsKept(ds: seq<Datagram>, es: seq<Datagram>, rest: Bytes)
    requires Frames(ds) + [0] == Frames(es) + rest && Incomplete(rest)
    ensures es == ds && rest == [0]
    decreases |ds|
  {
    if es == [] {
      assert Frames(es) + rest == rest;
      if ds != [] {
        assert Frames(ds) + [0] == Frame(ds[0]) + (Frames(ds[1..]) + [0]);
        TagOfFrame(ds[0], Frames(ds[1..]) + [0]);
      }
    } else {
      assert Frames(es) + rest == Frame(es[0]) + (Frames(es[1..]) + rest);
      TagOfFrame(es[0], Frames(es[1..]) + rest);
      if ds != [] {
        assert Frames(ds) + [0] == Frame(ds[0]) + (Frames(ds[1..]) + [0]);
        TagOfFrame(ds[0], Frames(ds[1..]) + [0]);
        OneByteIsKept(ds[1..], es[1..], rest);
        assert ds == [ds[0]] + ds[1..] && es == [es[0]] + es[1..];
      }
    }
  }

  /** A stream cut into single bytes. */
  function Bytewise(s: Bytes): seq<Bytes> {
    if s == [] then [] else Bytewise(s[..|s|-1]) + [[s[|s|-1]]]
  }

  lemma {:induction false} BytewiseIsWhole(s: Bytes)
    ensures Concat(Bytewise(s)) == s
    decreases |s|
  {
    if s != [] {
      var front := Bytewise(s[..|s|-1]);
      BytewiseIsWhole(s[..|s|-1]);
      assert Bytewise(s)[..|front|] == front;
      assert s == s[..|s|-1] + [s[|s|-1]];
    }
  }

  /** An empty datagram at the end that comes byte by byte is not delivered. */
  lemma EmptyLastWaits(front: seq<Datagram>)
    ensures var chunks := Bytewise(Frames(front + [[]]));
            Concat(chunks) == Frames(front + [[]]) && ProcessedAll(chunks) == Received(front, [0, 0])
  {
    hide Frames, Incomplete;
    var most, stream := Frames(front) + [0], Frames(front + [[]]);
    FramesConcat(front, [[]]);
    EmptyFrame();
    assert stream == most + [0];
    assert stream[..|stream|-1] == most;
    BytewiseIsWhole(stream);
    BytewiseIsWhole(most);
    var chunks := Bytewise(stream);
    assert chunks == Bytewise(most) + [[0]] && chunks[..|chunks|-1] == Bytewise(most);
    var r := ProcessedAll(Bytewise(most));
    StreamIsConserved(Bytewise(most));
    OneByteIsKept(front, r.delivered, r.buffer);
    LastByteWaits(front);
  }

  lemma EmptyFrame()
    ensures Frames([[]]) == [0, 0]
  {
    OneFrame([]);
  }

  lemma LastByteWaits(front: seq<Datagram>)
    ensures Processed(Received(front, [0]), [0]) == Received(front, [0, 0])
  {
    var one: Bytes, two: Bytes := [0], [0, 0];
    assert one + one == two;
  }

  /** Exactly the streams that do not end in an empty datagram are delivered whole however
      they are cut up. */
  lemma EveryChunkingDeliversExactly(ds: seq<Datagram>)
    ensures (forall chunks | Concat(chunks) == Frames(ds) :: ProcessedAll(chunks) == Received(ds, []))
       <==> (ds != [] ==> ds[|ds|-1] != [])
  {
    hide Frames, ProcessedAll, Concat, Bytewise;
    if ds != [] && ds[|ds|-1] == [] {
      var front := ds[..|ds|-1];
      assert ds == front + [[]];
      EmptyLastWaits(front);
      var chunks := Bytewise(Frames(ds));
      assert Concat(chunks) == Frames(ds) && ProcessedAll(chunks) != Received(ds, []);
    } else {
      forall chunks | Concat(chunks) == Frames(ds) ensures ProcessedAll(chunks) == Received(ds, []) {
        EveryChunkingDelivers(ds, chunks);
      }
    }
  }

  /** The fast path does what the buffered path would, for a datagram that is not empty. */
  lemma FastPathAgrees(r: Received, chunk: Bytes)
    requires r.buffer == [] && |chunk| > 2 && TaggedSize(chunk) == |chunk| - 2
    ensures Processed(r, chunk) == Defragmented(r.(buffer := chunk))
  {
    assert chunk[2..2 + TaggedSize(chunk)] == chunk[2..] && chunk[|chunk|..] == [];
    var next := Received(r.delivered + [chunk[2..]], []);
    assert Defragmented(next) == next;
  }

  /** An empty datagram is delivered at once when it comes alone, and waits otherwise. */
  lemma EmptyFrameMayWait()
    ensures ProcessedAll([[0, 0]]) == Received([[]], [])
    ensures ProcessedAll([[0], [0]]) == Received([], [0, 0])
  {
    var whole: Bytes, half: Bytes := [0, 0], [0];
    assert [whole][..0] == [] && whole[2..] == [];
    assert [half, half][..1] == [half] && [half][..0] == [];
    assert [] + half == half && half + half == whole;
    assert ProcessedAll([half]) == Processed(Received([], []), half) == Received([], half);
  }

  // ----- The two ends of a connection -----

  class Receiver {
    var dataBuf: Bytes
    var delivered: seq<Datagram>

    constructor ()
      ensures Now() == Received([], [])
    {
      dataBuf, delivered := [], [];
    }

    ghost function Now(): Received
      reads this
    {
      Received(delivered, dataBuf)
    }

    method DefragmentInput()
      modifies this
      ensures Now() == Defragmented(old(Now()))
    {
      while |dataBuf| > 2
        invariant Defragmented(Now()) == Defragmented(old(Now()))
        decreases |dataBuf|
      {
        var n := TaggedSize(dataBuf);
        if |dataBuf| < n + 2 {
          return;
        }
        var overread := |dataBuf| - n - 2;
        var dg: Datagram := dataBuf[2..2 + n];
        assert dataBuf[2 + n..2 + n + overread] == dataBuf[2 + n..];
        if overread > 0 {
          dataBuf := dataBuf[2 + n..2 + n + overread];
        } else {
          dataBuf := [];
        }
        delivered := delivered + [dg];
      }
    }

    method ProcessDatagram(data: Bytes)
      modifies this
      ensures Now() == Processed(old(Now()), data)
    {
      if |dataBuf| == 0 && |data| >= 2 {
        var n := TaggedSize(data);
        if n == |data| - 2 {
          assert data[2..2 + n] == data[2..];
          delivered := delivered + [data[2..2 + n]];
          return;
        }
      }
      dataBuf := dataBuf + data;
      DefragmentInput();
    }
  }

  class Sender {
    const maxQueueSize: nat  // 0: no limit
    var sendQueue: seq<Datagram>
    var totalQueueSize: nat
    var isSending: bool
    var localDisconnect: bool
    var connected: bool
    var wire: Bytes                    // everything handed to the socket
    ghost var accepted: seq<Datagram>  // everything put into the queue

    constructor (maxQueueSize: nat)
      ensures Valid() && wire == [] && accepted == [] && connected && !localDisconnect
    {
      this.maxQueueSize := maxQueueSize;
      sendQueue, totalQueueSize, isSending := [], 0, false;
      localDisconnect, connected, wire, accepted := false, true, [], [];
    }

    /** What is on the wire and what is queued are the datagrams accepted, in order, and
        the queue waits only while a write is under way. */
    ghost predicate Valid()
      reads this
    {
      && wire + Frames(sendQueue) == Frames(accepted)
      && totalQueueSize == TotalSize(sendQueue)
      && (connected && (sendQueue != [] || localDisconnect) ==> isSending)
    }

    method SendDatagram(dg: Datagram)
      requires Valid()
      modifies this
      ensures Valid()
      ensures accepted == if old(connected) then old(accepted) + [dg] else old(accepted)
      ensures old(wire) <= wire
      ensures !old(isSending) && old(connected) ==> wire == Frames(accepted)
      ensures localDisconnect <==>
                old(localDisconnect) || (old(connected) && maxQueueSize != 0 && TotalSize(old(sendQueue)) + |dg| > maxQueueSize)
    {
      if !connected {
        return;
      }
      QueueGrows(wire, sendQueue, accepted, dg);
      sendQueue := sendQueue + [dg];
      accepted := accepted + [dg];
      totalQueueSize := totalQueueSize + |dg|;
      if totalQueueSize > maxQueueSize && maxQueueSize != 0 {
        Disconnect();
        return;
      }
      FlushSendQueue();
    }

    method Disconnect()
      requires wire + Frames(sendQueue) == Frames(accepted) && totalQueueSize == TotalSize(sendQueue)
      requires connected && (localDisconnect ==> isSending)
      modifies this
      ensures Valid() && accepted == old(accepted) && old(wire) <= wire && localDisconnect
      ensures !old(isSending) && TotalSize(old(sendQueue)) > 0 ==> wire == Frames(accepted)
    {
      if localDisconnect {
        return;
      }
      localDisconnect := true;
      if !isSending && totalQueueSize == 0 {
        connected := false;
      } else {
        FlushSendQueue();
      }
    }

    method FlushSendQueue()
      requires wire + Frames(sendQueue) == Frames(accepted) && totalQueueSize == TotalSize(sendQueue)
      requires connected && localDisconnect && !isSending ==> sendQueue != []
      modifies this
      ensures Valid() && accepted == old(accepted)
      ensures connected == old(connected) && localDisconnect == old(localDisconnect)
      ensures old(wire) <= wire
      ensures old(connected) && !old(isSending) ==> wire == Frames(accepted) && sendQueue == [] && (isSending <==> old(sendQueue) != [])
      ensures !(old(connected) && !old(isSending)) ==> wire == old(wire) && sendQueue == old(sendQueue) && isSending == old(isSending)
    {
      if !connected {
        return;
      }
      if isSending {
        return;
      }
      if |sendQueue| == 0 {
        return;
      }
      var buffer: Bytes := [];
      for i := 0 to |sendQueue|
        invariant wire == old(wire) && sendQueue == old(sendQueue) && connected == old(connected) && accepted == old(accepted)
        invariant isSending == old(isSending) && localDisconnect == old(localDisconnect)
        invariant buffer + Frames(sendQueue[i..]) == Frames(sendQueue)
        invariant totalQueueSize == TotalSize(sendQueue[i..])
      {
        hide Frames, TotalSize;
        var dg := sendQueue[i];
        OneMoreWritten(buffer, sendQueue, i);
        buffer := buffer + SizeTag(|dg|);
        buffer := buffer + dg;
        totalQueueSize := totalQueueSize - |dg|;
      }
      assert buffer + [] == buffer;
      sendQueue := [];
      isSending := true;
      wire := wire + buffer;
      assert wire + [] == wire;
    }

    method SendFinished()
      requires Valid() && isSending
      modifies this
      ensures Valid() && accepted == old(accepted)
      ensures connected ==> wire == Frames(accepted)
      ensures old(connected) && !connected ==> localDisconnect && TotalSize(sendQueue) == 0
    {
      isSending := false;
      if !connected {
        return;
      }
      if localDisconnect && totalQueueSize == 0 {
        connected := false;
        return;
      }
      FlushSendQueue();
    }
  }

  lemma OneMoreWritten(buffer: Bytes, queue: seq<Datagram>, i: nat)
    requires i < |queue|
    ensures buffer + Frames(queue[i..]) == buffer + SizeTag(|queue[i]|) + queue[i] + Frames(queue[i + 1..])
    ensures TotalSize(queue[i..]) == |queue[i]| + TotalSize(queue[i + 1..])
  {
    assert queue[i..][1..] == queue[i + 1..] && queue[i..][0] == queue[i];
    assert buffer + (Frame(queue[i]) + Frames(queue[i + 1..])) == buffer + SizeTag(|queue[i]|) + queue[i] + Frames(queue[i + 1..]);
  }

  lemma QueueGrows(wire: Bytes, queue: seq<Datagram>, accepted: seq<Datagram>, dg: Datagram)
    requires wire + Frames(queue) == Frames(accepted)
    ensures wire + Frames(queue + [dg]) == Frames(accepted + [dg])
    ensures TotalSize(queue + [dg]) == TotalSize(queue) + |dg|
  {
    hide Frames, TotalSize;
    FramesConcat(queue, [dg]);
    FramesConcat(accepted, [dg]);
    SizesAdd(queue, dg);
    assert wire + (Frames(queue) + Frames([dg])) == wire + Frames(queue) + Frames([dg]);
  }

  lemma {:induction false} SizesAdd(queue: seq<Datagram>, dg: Datagram)
    ensures TotalSize(queue + [dg]) == TotalSize(queue) + |dg|
  {
    if queue != [] {
      assert (queue + [dg])[1..] == queue[1..] + [dg];
      SizesAdd(queue[1..], dg);
    }
  }
}
