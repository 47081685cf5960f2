/** The PROXY protocol header that a load balancer puts before a client's stream, in the
    text form (version 1) and the binary form (version 2). */
module HAProxy {
  import opened Framing

  const HEADER_MIN := 16
  const HEADER_MAX := 107

  const SP: Byte := 0x20
  const CR: Byte := 0x0d
  const LF: Byte := 0x0a

  const SIGNATURE_V1: Bytes := [0x50, 0x52, 0x4f, 0x58, 0x59, 0x20, 0x54, 0x43, 0x50]  // "PROXY TCP"
  const SIGNATURE_V2: Bytes := [0x0d, 0x0a, 0x0d, 0x0a, 0x00, 0x0d, 0x0a, 0x51, 0x55, 0x49, 0x54, 0x0a]
  const PROXY: Bytes := [0x50, 0x52, 0x4f, 0x58, 0x59]
  const TCP4: Bytes := [0x54, 0x43, 0x50, 0x34]
  const TCP6: Bytes := [0x54, 0x43, 0x50, 0x36]

  datatype Option<T> = None | Some(value: T)

  /** What the header tells of the connection: addresses and ports as they stand in it. */
  datatype Origin =
    | Local
    | Proxied(remote: Bytes, remotePort: Bytes, local: Bytes, localPort: Bytes, tlvs: Bytes)

  /** Wanted: more bytes are needed, at least as many in all as this. */
  datatype Parsed = Wanted(size: nat) | Complete(size: nat, origin: Origin) | Invalid

  /** memchr: the first place of a byte, or the length. */
  function Find(s: Bytes, b: Byte): (i: nat)
    ensures i <= |s|
    ensures i < |s| ==> s[i] == b
    ensures b !in s[..i]
  {
    if s == [] then 0 else if s[0] == b then 0 else 1 + Find(s[1..], b)
  }

  function Skip(s: Bytes, b: Byte): Bytes {
    if s != [] && s[0] == b then Skip(s[1..], b) else s
  }

  /** strtok with one delimiter: a token and what is left after it. */
  function Token(s: Bytes, delimiter: Byte): Option<(Bytes, Bytes)> {
    var t := Skip(s, delimiter);
    if t == [] then None
    else
      var i := Find(t, delimiter);
      Some((t[..i], if i < |t| then t[i + 1..] else []))
  }

  // ----- Version 2 -----

  function ParseV2(buf: Bytes): Parsed
    requires |buf| >= HEADER_MIN
  {
    var bodyLen := buf[14] as int * 256 + buf[15] as int;
    var total := HEADER_MIN + bodyLen;
    var family, transport, command := buf[13] / 16, buf[13] % 16, buf[12] % 16;
    if |buf| < total then Wanted(total)
    else if buf[12] / 16 != 2 then Invalid
    else if family != 1 && family != 2 then Invalid
    else if transport != 1 then Invalid
    else if command == 0 then Complete(total, Local)
    else if command != 1 then Invalid
    else
      var n := if family == 1 then 4 else 16;
      if bodyLen < 2 * n + 4 then Invalid
      else Complete(total, BinaryOrigin(buf[HEADER_MIN..total], n))
  }

  /** Two addresses of n bytes, two ports of two bytes, and the rest. */
  function BinaryOrigin(body: Bytes, n: nat): Origin
    requires |body| >= 2 * n + 4
  {
    Proxied(body[..n], body[2 * n..2 * n + 2], body[n..2 * n], body[2 * n + 2..2 * n + 4], body[2 * n + 4..])
  }

  // ----- Version 1 -----

  function ParseV1(buf: Bytes): Parsed
    requires |buf| >= HEADER_MIN
  {
    var capped := if |buf| > HEADER_MAX then buf[..HEADER_MAX] else buf;
    var cr, lf := Find(capped, CR), Find(capped, LF);
    if cr == |capped| then
      if |buf| >= HEADER_MAX - 1 then Invalid else Wanted(|buf| + 2)
    else if cr + 1 > HEADER_MAX - 1 then Invalid
    else if lf == |capped| || lf != cr + 1 then
      if |buf| >= HEADER_MAX then Invalid else Wanted(|buf| + 1)
    else
      match TextOrigin(buf[..lf + 1])
      case None => Invalid
      case Some(origin) => Complete(lf + 1, origin)
  }

  /** The words of the line, as a C string: a zero byte ends it. */
  function TextOrigin(header: Bytes): Option<Origin> {
    match Token(header[..Find(header, 0)], SP)
    case None => None
    case Some((_, s0)) =>
      match Token(s0, SP)
      case None => None
      case Some((tcp, s1)) =>
        match Token(s1, SP)
        case None => None
        case Some((srcip, s2)) =>
          match Token(s2, SP)
          case None => None
          case Some((dstip, s3)) =>
            match Token(s3, SP)
            case None => None
            case Some((srcport, s4)) =>
              match Token(s4, CR)
              case None => None
              case Some((dstport, _)) =>
                if tcp != TCP4 && tcp != TCP6 then None
                else Some(Proxied(srcip, srcport, dstip, dstport, []))
  }

  /** parse_proxy_block. */
  function Parse(buf: Bytes): Parsed {
    if |buf| < HEADER_MIN then Wanted(HEADER_MIN)
    else if SIGNATURE_V2 <= buf then ParseV2(buf)
    else if SIGNATURE_V1 <= buf then ParseV1(buf)
    else Invalid
  }

  // ----- Well-formed headers, as they are sent -----

  predicate Word(s: Bytes) {
    s != [] && 0 !in s && SP !in s && CR !in s && LF !in s
  }

  function TextHeader(tcp: Bytes, o: Origin): Bytes
    requires o.Proxied?
  {
    PROXY + [SP] + (tcp + [SP] + (o.remote + [SP] + (o.local + [SP] + (o.remotePort + [SP] + (o.localPort + [CR, LF])))))
  }

  predicate IsTextHeader(h: Bytes, o: Origin) {
    && o.Proxied? && o.tlvs == []
    && Word(o.remote) && Word(o.local) && Word(o.remotePort) && Word(o.localPort)
    && (h == TextHeader(TCP4, o) || h == TextHeader(TCP6, o))
    && |h| <= HEADER_MAX
  }

  function BinaryHeader(command: nat, family: nat, body: Bytes): Bytes
    requires command < 2 && 1 <= family <= 2 && |body| < 0x1_0000
  {
    SIGNATURE_V2 + [0x20 + command, family * 16 + 1, |body| / 256, |body| % 256] + body
  }

  predicate IsBinaryHeader(h: Bytes, o: Origin) {
    match o
    case Local =>
      |h| >= HEADER_MIN && |h| - HEADER_MIN < 0x1_0000
      && (h == BinaryHeader(0, 1, h[HEADER_MIN..]) || h == BinaryHeader(0, 2, h[HEADER_MIN..]))
    case Proxied(remote, remotePort, local, localPort, tlvs) =>
      && |remotePort| == 2 && |localPort| == 2 && |remote| == |local|
      && var body := remote + local + remotePort + localPort + tlvs;
         |body| < 0x1_0000
         && ((|remote| == 4 && h == BinaryHeader(1, 1, body)) || (|remote| == 16 && h == BinaryHeader(1, 2, body)))
  }

  predicate IsHeader(h: Bytes, o: Origin) {
    IsTextHeader(h, o) || IsBinaryHeader(h, o)
  }

  // ----- A header is recognized when it is complete, and not before -----

  lemma {:induction false} FindIn(a: Bytes, b: Byte, rest: Bytes)
    requires b !in a
    ensures Find(a + [b] + rest, b) == |a|
    decreases |a|
  {
    if a != [] {
      assert (a + [b] + rest)[1..] == a[1..] + [b] + rest;
      FindIn(a[1..], b, rest);
    } else {
      assert a + [b] + rest == [b] + rest;
    }
  }

  lemma {:induction false} FindNone(a: Bytes, b: Byte)
    requires b !in a
    ensures Find(a, b) == |a|
    decreases |a|
  {
    if a != [] { FindNone(a[1..], b); }
  }

  lemma TokenOf(word: Bytes, delimiter: Byte, rest: Bytes)
    requires word != [] && delimiter !in word
    ensures Token(word + [delimiter] + rest, delimiter) == Some((word, rest))
  {
    var s := word + [delimiter] + rest;
    assert s[0] == word[0] && word[0] in word;
    assert Skip(s, delimiter) == s;
    FindIn(word, delimiter, rest);
    assert s[..|word|] == word && s[|word| + 1..] == rest;
  }

  lemma TextHeaderOrigin(tcp: Bytes, o: Origin)
    requires o.Proxied? && o.tlvs == [] && (tcp == TCP4 || tcp == TCP6)
    requires Word(o.remote) && Word(o.local) && Word(o.remotePort) && Word(o.localPort)
    ensures TextOrigin(TextHeader(tcp, o)) == Some(o)
  {
    hide Token;
    var s4 := o.localPort + [CR, LF];
    var s3 := o.remotePort + [SP] + s4;
    var s2 := o.local + [SP] + s3;
    var s1 := o.remote + [SP] + s2;
    var s0 := tcp + [SP] + s1;
    NoZeros(tcp, o);
    FindNone(TextHeader(tcp, o), 0);
    assert TextHeader(tcp, o)[..|TextHeader(tcp, o)|] == TextHeader(tcp, o);
    TokenOf(PROXY, SP, s0);
    TokenOf(tcp, SP, s1);
    TokenOf(o.remote, SP, s2);
    TokenOf(o.local, SP, s3);
    TokenOf(o.remotePort, SP, s4);
    assert s4 == o.localPort + [CR] + [LF];
    TokenOf(o.localPort, CR, [LF]);
  }

  lemma NoZeros(tcp: Bytes, o: Origin)
    requires o.Proxied? && (tcp == TCP4 || tcp == TCP6)
    requires Word(o.remote) && Word(o.local) && Word(o.remotePort) && Word(o.localPort)
    ensures 0 !in TextHeader(tcp, o)
  {
  }

  /** The line of a text header ends with its first CR and its first LF. */
  lemma TextHeaderLine(tcp: Bytes, o: Origin)
    requires o.Proxied? && (tcp == TCP4 || tcp == TCP6)
    requires Word(o.remote) && Word(o.local) && Word(o.remotePort) && Word(o.localPort)
    ensures var h := TextHeader(tcp, o);
            && |h| >= 20 && SIGNATURE_V1 <= h
            && h[|h| - 2] == CR && h[|h| - 1] == LF && CR !in h[..|h| - 2] && LF !in h[..|h| - 2]
  {
    var h := TextHeader(tcp, o);
    var line := PROXY + [SP] + (tcp + [SP] + (o.remote + [SP] + (o.local + [SP] + (o.remotePort + [SP] + o.localPort))));
    assert h == line + [CR, LF];
    assert h[..|h| - 2] == line;
  }

  /** A line that ends at its first CR and LF, with whatever follows it. */
  lemma LineFound(h: Bytes, q: Bytes)
    requires 16 <= |h| <= HEADER_MAX && h <= q
    requires h[|h| - 2] == CR && h[|h| - 1] == LF && CR !in h[..|h| - 2] && LF !in h[..|h| - 2]
    ensures ParseV1(q) == match TextOrigin(h) { case None => Invalid case Some(o) => Complete(|h|, o) }
  {
    hide TextOrigin;
    var capped := if |q| > HEADER_MAX then q[..HEADER_MAX] else q;
    assert capped == h[..|h| - 2] + [CR] + capped[|h| - 1..];
    FindIn(h[..|h| - 2], CR, capped[|h| - 1..]);
    assert h[..|h| - 1] == h[..|h| - 2] + [CR];
    assert capped == h[..|h| - 1] + [LF] + capped[|h|..];
    FindIn(h[..|h| - 1], LF, capped[|h|..]);
    assert q[..|h|] == h;
  }

  /** Less than the line: one or two bytes more are asked for. */
  lemma LineUnfinished(h: Bytes, p: Bytes)
    requires |h| <= HEADER_MAX && p <= h && 16 <= |p| < |h|
    requires h[|h| - 2] == CR && h[|h| - 1] == LF && CR !in h[..|h| - 2] && LF !in h[..|h| - 2]
    ensures ParseV1(p).Wanted? && |p| < ParseV1(p).size <= |h|
  {
    hide TextOrigin;
    if |p| == |h| - 1 {
      assert p == h[..|h| - 2] + [CR] + [];
      FindIn(h[..|h| - 2], CR, []);
      FindNone(p, LF);
    } else {
      assert p == h[..|h| - 2][..|p|];
      FindNone(p, CR);
    }
  }

  lemma BinaryHeaderParts(command: nat, family: nat, body: Bytes, p: Bytes)
    requires command < 2 && 1 <= family <= 2 && |body| < 0x1_0000 && HEADER_MIN <= |p|
    requires p <= BinaryHeader(command, family, body) || BinaryHeader(command, family, body) <= p
    ensures SIGNATURE_V2 <= p && p[12] == 0x20 + command && p[13] == family * 16 + 1
    ensures p[14] as int * 256 + p[15] as int == |body|
    ensures |p| >= HEADER_MIN + |body| ==> p[HEADER_MIN..HEADER_MIN + |body|] == body
  {
    var h := BinaryHeader(command, family, body);
    assert h[..12] == SIGNATURE_V2 && h[12..16] == [0x20 + command, family * 16 + 1, |body| / 256, |body| % 256];
    assert forall k | 12 <= k < 16 :: h[k] == h[12..16][k - 12];
    assert p[..12] == h[..12];
    assert h[HEADER_MIN..] == body;
  }

  /** Every strict part of a header makes the parser ask for more, but not for more than
      there is. */
  lemma PartIsUnfinished(h: Bytes, o: Origin, p: Bytes)
    requires IsHeader(h, o) && p <= h && |p| < |h|
    ensures Parse(p).Wanted? && |p| < Parse(p).size <= |h|
  {
    hide ParseV1, TextHeader, TextOrigin;
    if IsTextHeader(h, o) {
      TextHeaderLine(if h == TextHeader(TCP4, o) then TCP4 else TCP6, o);
      if |p| >= HEADER_MIN {
        assert p[..9] == h[..9] == SIGNATURE_V1;
        assert p[0] == 0x50;
        LineUnfinished(h, p);
      }
    } else if |p| >= HEADER_MIN {
      match o {
        case Local => BinaryHeaderParts(0, if h == BinaryHeader(0, 1, h[HEADER_MIN..]) then 1 else 2, h[HEADER_MIN..], p);
        case Proxied(remote, remotePort, local, localPort, tlvs) =>
          BinaryHeaderParts(1, if |remote| == 4 then 1 else 2, remote + local + remotePort + localPort + tlvs, p);
      }
    }
  }

  /** A header is recognized with anything after it: its length and what it tells. */
  lemma HeaderIsComplete(h: Bytes, o: Origin, q: Bytes)
    requires IsHeader(h, o) && h <= q
    ensures Parse(q) == Complete(|h|, o)
  {
    hide Parse, IsTextHeader, IsBinaryHeader;
    if IsTextHeader(h, o) {
      TextIsComplete(h, o, q);
    } else {
      BinaryIsComplete(h, o, q);
    }
  }

  lemma TextIsComplete(h: Bytes, o: Origin, q: Bytes)
    requires IsTextHeader(h, o) && h <= q
    ensures Parse(q) == Complete(|h|, o)
  {
    hide ParseV1, TextHeader, TextOrigin;
    var tcp := if h == TextHeader(TCP4, o) then TCP4 else TCP6;
    TextHeaderLine(tcp, o);
    TextHeaderOrigin(tcp, o);
    LineFound(h, q);
    assert q[..9] == h[..9] == SIGNATURE_V1;
    assert q[0] == 0x50;
  }

  lemma BinaryIsComplete(h: Bytes, o: Origin, q: Bytes)
    requires IsBinaryHeader(h, o) && h <= q
    ensures Parse(q) == Complete(|h|, o)
  {
    match o {
      case Local =>
        BinaryHeaderParts(0, if h == BinaryHeader(0, 1, h[HEADER_MIN..]) then 1 else 2, h[HEADER_MIN..], q);
      case Proxied(remote, remotePort, local, localPort, tlvs) =>
        var n, body := |remote|, remote + local + remotePort + localPort + tlvs;
        BinaryHeaderParts(1, if n == 4 then 1 else 2, body, q);
        BodyTaken(remote, local, remotePort, localPort, tlvs);
    }
  }

  lemma BodyTaken(remote: Bytes, local: Bytes, remotePort: Bytes, localPort: Bytes, tlvs: Bytes)
    requires |remote| == |local| && |remotePort| == 2 && |localPort| == 2
    ensures BinaryOrigin(remote + local + remotePort + localPort + tlvs, |remote|)
         == Proxied(remote, remotePort, local, localPort, tlvs)
  {
  }

  // ----- A connection behind a load balancer -----

  /** The header is being collected, the stream is being read, or the client is cut off. */
  datatype Connection =
    | InHeader(buffer: Bytes)
    | InStream(origin: Origin, received: Received)
    | Broken

  /** What arrives: the header handler first, and what it leaves to the stream. */
  function OnData(c: Connection, chunk: Bytes): Connection {
    match c
    case Broken => Broken
    case InStream(origin, r) => InStream(origin, Processed(r, chunk))
    case InHeader(buffer) =>
      var all := buffer + chunk;
      match Parse(all)
      case Invalid => Broken
      case Wanted(size) => InHeader(all)
      case Complete(size, origin) =>
        InStream(origin, if size < |all| then Processed(Received([], []), all[size..]) else Received([], []))
  }

  function OnAll(chunks: seq<Bytes>): Connection {
    if chunks == [] then InHeader([]) else OnData(OnAll(chunks[..|chunks|-1]), chunks[|chunks|-1])
  }

  /** The header ends in some chunk; what follows it reaches the stream in the same chunks. */
  lemma {:induction false} HeaderIsSplitOff(h: Bytes, o: Origin, payload: Bytes, chunks: seq<Bytes>) returns (rest: seq<Bytes>)
    requires IsHeader(h, o) && Concat(chunks) <= h + payload
    ensures |Concat(chunks)| < |h| ==> OnAll(chunks) == InHeader(Concat(chunks))
    ensures |Concat(chunks)| >= |h| ==> Concat(rest) == Concat(chunks)[|h|..] && OnAll(chunks) == InStream(o, ProcessedAll(rest))
    decreases |chunks|
  {
    hide Parse, IsHeader, Processed;
    rest := [];
    NotEmpty(h, o);
    if chunks != [] {
      var front, chunk := chunks[..|chunks|-1], chunks[|chunks|-1];
      var before, all := Concat(front), Concat(chunks);
      assert all == before + chunk;
      rest := HeaderIsSplitOff(h, o, payload, front);
      if |before| >= |h| {
        assert all[|h|..] == before[|h|..] + chunk;
        rest := Extended(rest, chunk);
      } else if |all| < |h| {
        assert all <= h;
        PartIsUnfinished(h, o, all);
      } else {
        assert h <= all;
        HeaderIsComplete(h, o, all);
        if |h| < |all| {
          rest := Extended([], all[|h|..]);
          assert Concat([]) + all[|h|..] == all[|h|..];
        } else {
          rest := [];
          assert all[|h|..] == [];
        }
      }
    }
  }

  lemma NotEmpty(h: Bytes, o: Origin)
    requires IsHeader(h, o)
    ensures h != []
  {
  }

  lemma Extended(chunks: seq<Bytes>, chunk: Bytes) returns (more: seq<Bytes>)
    ensures Concat(more) == Concat(chunks) + chunk && ProcessedAll(more) == Processed(ProcessedAll(chunks), chunk)
  {
    more := chunks + [chunk];
    assert more[..|more|-1] == chunks;
  }

  /** However a header and the stream after it are cut up, the connection learns what the
      header tells and delivers exactly the datagrams of the stream. */
  lemma ProxiedStreamDelivers(h: Bytes, o: Origin, ds: seq<Datagram>, chunks: seq<Bytes>)
    requires IsHeader(h, o) && Concat(chunks) == h + Frames(ds)
    requires ds != [] ==> ds[|ds|-1] != []
    ensures OnAll(chunks) == InStream(o, Received(ds, []))
  {
    var rest := HeaderIsSplitOff(h, o, Frames(ds), chunks);
    assert (h + Frames(ds))[|h|..] == Frames(ds);
    EveryChunkingDelivers(ds, rest);
  }

  /** What begins with neither signature is no header: however it is cut up, the connection
      is cut off with the sixteenth byte, and not before. */
  lemma {:induction false} NoHeaderIsBroken(chunks: seq<Bytes>)
    requires !(SIGNATURE_V1 <= Concat(chunks)) && !(SIGNATURE_V2 <= Concat(chunks))
    ensures |Concat(chunks)| < HEADER_MIN ==> OnAll(chunks) == InHeader(Concat(chunks))
    ensures |Concat(chunks)| >= HEADER_MIN ==> OnAll(chunks) == Broken
    decreases |chunks|
  {
    if chunks != [] {
      var front, all := chunks[..|chunks|-1], Concat(chunks);
      assert all == Concat(front) + chunks[|chunks|-1];
      NoHeaderIsBroken(front);
    }
  }

  /** A whole binary block is a header exactly if it is accepted, and is refused if it is none. */
  lemma BinaryExactly(h: Bytes)
    requires |h| >= HEADER_MIN && SIGNATURE_V2 <= h && |h| == HEADER_MIN + (h[14] as int * 256 + h[15] as int)
    ensures !Parse(h).Wanted?
    ensures Parse(h).Complete? ==> IsBinaryHeader(h, Parse(h).origin)
    ensures Parse(h).Invalid? ==> forall o :: !IsBinaryHeader(h, o)
  {
    hide IsBinaryHeader;
    forall o | IsBinaryHeader(h, o) ensures Parse(h).Complete? {
      BinaryIsComplete(h, o, h);
    }
    if Parse(h).Complete? {
      AcceptedIsHeader(h);
    }
  }

  lemma AcceptedIsHeader(h: Bytes)
    requires |h| >= HEADER_MIN && ParseV2(h).Complete? && SIGNATURE_V2 <= h
    requires |h| == HEADER_MIN + (h[14] as int * 256 + h[15] as int)
    ensures IsBinaryHeader(h, ParseV2(h).origin)
  {
    hide BinaryHeader, BinaryOrigin;
    var body, command, family := h[HEADER_MIN..], h[12] as int % 16, h[13] as int / 16;
    assert h[HEADER_MIN..|h|] == body;
    BlockRejoined(h, command, family, body);
    if command == 1 {
      BodyRejoined(body, if family == 1 then 4 else 16);
    }
  }

  lemma BlockRejoined(h: Bytes, command: nat, family: nat, body: Bytes)
    requires command < 2 && 1 <= family <= 2 && |h| >= HEADER_MIN && SIGNATURE_V2 <= h && body == h[HEADER_MIN..]
    requires h[12] as int == 0x20 + command && h[13] as int == family * 16 + 1
    requires |body| == h[14] as int * 256 + h[15] as int
    ensures |body| < 0x1_0000 && h == BinaryHeader(command, family, body)
  {
    assert h == h[..12] + h[12..16] + body;
    assert h[12..16] == [h[12], h[13], h[14], h[15]];
  }

  lemma BodyRejoined(body: Bytes, n: nat)
    requires |body| >= 2 * n + 4
    ensures var o := BinaryOrigin(body, n);
            && o.Proxied? && |o.remote| == |o.local| == n && |o.remotePort| == |o.localPort| == 2
            && body == o.remote + o.local + o.remotePort + o.localPort + o.tlvs
  {
  }

  class HAProxyHandler {
    var dataBuf: Bytes
    var origin: Origin
    var complete: bool
    var hasError: bool

    constructor ()
      ensures dataBuf == [] && !hasError && !complete
    {
      dataBuf, origin, complete, hasError := [], Local, false, false;
    }

    /** Takes a chunk in and tells how many of its bytes belong to the header; all of them
        if the header goes on, none if it ends with the chunk or there is an error. */
    method Consume(chunk: Bytes) returns (consumed: nat)
      requires !complete && (dataBuf != [] ==> Parse(dataBuf).Wanted? && Parse(dataBuf).size > |dataBuf|)
      modifies this
      ensures old(hasError) ==> consumed == 0 && dataBuf == old(dataBuf) && hasError && !complete
      ensures !old(hasError) ==>
        dataBuf == old(dataBuf) + chunk &&
        match Parse(dataBuf)
        case Invalid => hasError && !complete && consumed == 0
        case Wanted(_) => !hasError && !complete && consumed == |chunk|
        case Complete(size, o) =>
          && !hasError && complete && origin == o
          && (size < |dataBuf| ==> consumed > 0 && old(|dataBuf|) + consumed == size)
          && (size == |dataBuf| ==> consumed == 0)
    {
      if hasError {
        return 0;
      }
      var prevSize := |dataBuf|;
      ghost var before := dataBuf;
      dataBuf := dataBuf + chunk;
      ParseBounds(dataBuf);
      if prevSize > 0 { StillUnfinished(before, dataBuf); }
      match Parse(dataBuf)
      case Invalid =>
        hasError := true;
        consumed := 0;
      case Wanted(size) =>
        consumed := |chunk|;
      case Complete(size, o) =>
        complete, origin := true, o;
        if size < |dataBuf| {
          consumed := size - prevSize;
        } else {
          consumed := 0;
        }
    }
  }

  /** More is wanted than there is, and a complete header is there. */
  lemma ParseBounds(buf: Bytes)
    ensures Parse(buf).Wanted? ==> Parse(buf).size > |buf|
    ensures Parse(buf).Complete? ==> 0 < Parse(buf).size <= |buf|
  {
    hide TextOrigin;
  }

  /** A header that was not complete does not turn out to end in the bytes already there. */
  lemma StillUnfinished(before: Bytes, now: Bytes)
    requires before <= now && Parse(before).Wanted?
    ensures Parse(now).Complete? ==> Parse(now).size > |before|
  {
    hide TextOrigin;
    if |before| >= HEADER_MIN {
      if SIGNATURE_V1 <= before { UnfinishedLine(before, now); }
    } else if |now| >= HEADER_MIN && SIGNATURE_V1 <= now && ParseV1(now).Complete? {
      var line := now[..ParseV1(now).size];
      assert SIGNATURE_V1[..6] == PROXY + [SP] && now[..9] == SIGNATURE_V1;
      LineHasWords(now);
      assert line[..6] == now[..9][..6];
      LongEnough(line);
    }
  }

  lemma LineHasWords(buf: Bytes)
    requires |buf| >= HEADER_MIN && SIGNATURE_V1 <= buf && ParseV1(buf).Complete?
    ensures 6 <= ParseV1(buf).size <= |buf| && TextOrigin(buf[..ParseV1(buf).size]).Some?
  {
    hide TextOrigin;
    assert buf[ParseV1(buf).size - 1] == LF;
    assert forall k | 0 <= k < 9 :: buf[k] == SIGNATURE_V1[k] && buf[k] != LF;
  }

  lemma TokenLength(s: Bytes, delimiter: Byte)
    ensures Token(s, delimiter).Some? ==>
      var (token, rest) := Token(s, delimiter).value;
      token != [] && |s| >= |token| && (rest != [] ==> |s| >= |token| + 1 + |rest|)
    ensures Token([], delimiter).None?
  {
    SkipLength(s, delimiter);
  }

  lemma {:induction false} SkipLength(s: Bytes, b: Byte)
    ensures |Skip(s, b)| <= |s|
    ensures Skip(s, b) != [] ==> Skip(s, b)[0] != b
  {
    if s != [] && s[0] == b { SkipLength(s[1..], b); }
  }

  /** A line with all the words in it is longer than what the handler waits for first. */
  lemma LongEnough(header: Bytes)
    requires TextOrigin(header).Some? && |header| >= 6 && header[..6] == PROXY + [SP]
    ensures |header| >= HEADER_MIN
  {
    hide Token;
    var c := header[..Find(header, 0)];
    TokenLength(c, SP);
    var (t, s0) := Token(c, SP).value;
    TokenLength(s0, SP);
    var (tcp, s1) := Token(s0, SP).value;
    TokenLength(s1, SP);
    var (_, s2) := Token(s1, SP).value;
    TokenLength(s2, SP);
    var (_, s3) := Token(s2, SP).value;
    TokenLength(s3, SP);
    var (_, s4) := Token(s3, SP).value;
    TokenLength(s4, CR);
    assert |s4| >= 1 && |s3| >= 3 && |s2| >= 5 && |s1| >= 7 && |tcp| == 4 && |s0| >= 12;
    FirstWord(header);
  }

  lemma FirstWord(header: Bytes)
    requires |header| >= 6 && header[..6] == PROXY + [SP]
    ensures var c := header[..Find(header, 0)];
            Token(c, SP).Some? && Token(c, SP).value.0 == PROXY
  {
    var i := Find(header, 0);
    assert forall k | 0 <= k < 6 :: header[k] == header[..6][k];
    var c := header[..i];
    assert c == PROXY + [SP] + c[6..];
    TokenOf(PROXY, SP, c[6..]);
  }

  lemma UnfinishedLine(before: Bytes, now: Bytes)
    requires HEADER_MIN <= |before| && before <= now && ParseV1(before).Wanted?
    ensures ParseV1(now).Complete? ==> ParseV1(now).size > |before|
  {
    hide TextOrigin;
    var capped := if |now| > HEADER_MAX then now[..HEADER_MAX] else now;
    var lf := Find(capped, LF);
    if lf + 1 <= |before| && lf < |capped| {
      assert before[lf] == LF;
    }
  }

  /** A connection that expects a header: it hands data to the header handler until that is
      done, and the rest to the stream. */
  class ProxiedConnection {
    var handler: HAProxyHandler?
    const receiver: Receiver
    var origin: Origin
    var broken: bool

    constructor ()
      ensures Valid() && fresh(receiver) && fresh(handler) && Now() == InHeader([])
    {
      handler := new HAProxyHandler();
      receiver := new Receiver();
      origin, broken := Local, false;
    }

    ghost predicate Valid()
      reads this, receiver, handler
    {
      handler != null ==>
        && !broken && !handler.hasError && !handler.complete
        && (handler.dataBuf != [] ==> Parse(handler.dataBuf).Wanted? && Parse(handler.dataBuf).size > |handler.dataBuf|)
        && receiver.Now() == Received([], [])
    }

    ghost function Now(): Connection
      reads this, receiver, handler
    {
      if broken then Broken
      else if handler != null then InHeader(handler.dataBuf)
      else InStream(origin, receiver.Now())
    }

    /** A read from the socket, which is never empty. */
    method Data(chunk: Bytes)
      requires Valid() && !broken && chunk != []
      modifies this, handler, receiver
      ensures Valid() && Now() == OnData(old(Now()), chunk)
    {
      hide Parse, Processed;
      if handler == null {
        receiver.ProcessDatagram(chunk);
        return;
      }
      var consumed := handler.Consume(chunk);
      ParseBounds(handler.dataBuf);
      if consumed < |chunk| || consumed == 0 {
        if handler.hasError {
          broken, handler := true, null;
          return;
        }
        origin := handler.origin;
        ghost var all, size := handler.dataBuf, Parse(handler.dataBuf).size;
        handler := null;
        var bytesLeft := if consumed > 0 then |chunk| - consumed else 0;
        if bytesLeft > 0 {
          assert chunk[consumed..] == all[size..];
          receiver.ProcessDatagram(chunk[consumed..]);
        }
      }
    }
  }
}
