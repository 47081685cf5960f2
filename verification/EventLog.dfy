/** Logged events: pairs of strings, sent as a MessagePack map and printed by the receiver. */
module EventLog {
  type Byte = b: int | 0 <= b < 256
  type Bytes = seq<Byte>

  datatype Option<T> = None | Some(value: T)
  datatype Pair = Pair(key: Bytes, value: Bytes)

  // ----- Collecting the pairs -----

  predicate DistinctKeys(kv: seq<Pair>) {
    forall i, j | 0 <= i < j < |kv| :: kv[i].key != kv[j].key
  }

  function IndexOf(kv: seq<Pair>, key: Bytes): (i: nat)
    ensures i <= |kv|
    ensures i < |kv| ==> kv[i].key == key
    ensures forall j | 0 <= j < i :: kv[j].key != key
  {
    if kv == [] then 0
    else if kv[0].key == key then 0
    else 1 + IndexOf(kv[1..], key)
  }

  /** add: a new key goes to the end, a known one takes the new value where it stands. */
  function Added(kv: seq<Pair>, p: Pair): seq<Pair> {
    var i := IndexOf(kv, p.key);
    if i < |kv| then kv[i := p] else kv + [p]
  }

  function AllAdded(adds: seq<Pair>): seq<Pair> {
    if adds == [] then [] else Added(AllAdded(adds[..|adds|-1]), adds[|adds|-1])
  }

  /** The last of the pairs added under a key. */
  function LastOf(adds: seq<Pair>, key: Bytes): (i: int)
    ensures -1 <= i < |adds|
    ensures i >= 0 ==> adds[i].key == key
    ensures forall j | i < j < |adds| :: adds[j].key != key
  {
    if adds == [] then -1
    else if adds[|adds|-1].key == key then |adds| - 1
    else LastOf(adds[..|adds|-1], key)
  }

  lemma AddedAt(kv: seq<Pair>, p: Pair)
    requires DistinctKeys(kv)
    ensures DistinctKeys(Added(kv, p))
    ensures forall q :: q in Added(kv, p) <==> q == p || (q in kv && q.key != p.key)
  {
    var i := IndexOf(kv, p.key);
    var after := Added(kv, p);
    forall q ensures q in after <==> q == p || (q in kv && q.key != p.key) {
      if q in after {
        var k :| 0 <= k < |after| && after[k] == q;
        if k < |kv| && k != i { assert kv[k] == q; }
      }
      if q in kv && q.key != p.key {
        var k :| 0 <= k < |kv| && kv[k] == q;
        assert after[k] == q;
      }
      if q == p { assert after[i] == p; }
    }
  }

  /** Whatever was added, each key stands once, with the value added for it last. */
  lemma {:induction false} LastValueWins(adds: seq<Pair>)
    ensures DistinctKeys(AllAdded(adds))
    ensures forall q :: q in AllAdded(adds) <==> LastOf(adds, q.key) >= 0 && q == adds[LastOf(adds, q.key)]
    decreases |adds|
  {
    if adds != [] {
      var front, p := adds[..|adds|-1], adds[|adds|-1];
      LastValueWins(front);
      AddedAt(AllAdded(front), p);
      forall q ensures q in AllAdded(adds) <==> LastOf(adds, q.key) >= 0 && q == adds[LastOf(adds, q.key)] {
        assert q.key == p.key ==> LastOf(adds, q.key) == |adds| - 1;
        assert q.key != p.key ==> LastOf(adds, q.key) == LastOf(front, q.key);
      }
    }
  }

  /** The keys stand in the order in which they were first added. */
  lemma {:induction false} FirstInsertionOrder(adds: seq<Pair>, i: nat, j: nat)
    requires i < j < |AllAdded(adds)|
    ensures var kv := AllAdded(adds);
            IndexOf(adds, kv[i].key) < IndexOf(adds, kv[j].key) < |adds|
    decreases |adds|
  {
    hide IndexOf, Added;
    var front, p := adds[..|adds|-1], adds[|adds|-1];
    var kv, before := AllAdded(adds), AllAdded(front);
    assert kv == Added(before, p);
    AddedKeys(before, p);
    assert adds == front + [p];
    FirstAmong(front, p, kv[i].key);
    FirstAmong(front, p, kv[j].key);
    if j < |before| {
      FirstInsertionOrder(front, i, j);
      OnceAdded(front, i);
      OnceAdded(front, j);
    } else {
      NotYetAdded(front, p.key);
      OnceAdded(front, i);
    }
  }

  lemma AddedKeys(kv: seq<Pair>, p: Pair)
    ensures |kv| <= |Added(kv, p)| <= |kv| + 1
    ensures forall i | 0 <= i < |kv| :: Added(kv, p)[i].key == kv[i].key
    ensures |Added(kv, p)| > |kv| ==> Added(kv, p)[|kv|] == p && IndexOf(kv, p.key) == |kv|
  {
  }

  lemma {:induction false} FirstAmong(front: seq<Pair>, p: Pair, key: Bytes)
    ensures IndexOf(front + [p], key)
         == if IndexOf(front, key) < |front| then IndexOf(front, key) else if p.key == key then |front| else |front| + 1
    ensures front == (front + [p])[..|front|]
  {
    if front != [] {
      assert (front + [p])[1..] == front[1..] + [p];
      FirstAmong(front[1..], p, key);
    }
  }

  lemma {:induction false} NotYetAdded(adds: seq<Pair>, key: Bytes)
    ensures IndexOf(AllAdded(adds), key) == |AllAdded(adds)| <==> IndexOf(adds, key) == |adds|
    decreases |adds|
  {
    LastValueWins(adds);
    var kv := AllAdded(adds);
    var i := IndexOf(adds, key);
    if i < |adds| {
      var l := LastOf(adds, key);
      assert adds[l] in kv;
    }
    var k := IndexOf(kv, key);
    if k < |kv| { assert kv[k] in kv; }
  }

  lemma OnceAdded(adds: seq<Pair>, i: nat)
    requires i < |AllAdded(adds)|
    ensures IndexOf(adds, AllAdded(adds)[i].key) < |adds|
  {
    LastValueWins(adds);
    var q := AllAdded(adds)[i];
    assert q in AllAdded(adds);
  }

  // ----- The MessagePack form -----

  predicate Packable(s: Bytes) { |s| < 0x1_0000 }

  function PackString(s: Bytes): Bytes
    requires Packable(s)
  {
    (if |s| < 32 then [0xa0 + |s|] else [0xda, |s| / 256, |s| % 256]) + s
  }

  /** The number of pairs, of which only the lower 16 bits are written. */
  function PackSize(n: nat): Bytes {
    if n < 16 then [0x80 + n] else [0xde, n / 256 % 256, n % 256]
  }

  predicate AllPackable(kv: seq<Pair>) {
    forall i | 0 <= i < |kv| :: Packable(kv[i].key) && Packable(kv[i].value)
  }

  function PackPairs(kv: seq<Pair>): Bytes
    requires AllPackable(kv)
  {
    if kv == [] then []
    else PackString(kv[0].key) + PackString(kv[0].value) + PackPairs(kv[1..])
  }

  const DATAGRAM_MAX := 0xffff

  /** What make_datagram puts into its datagram, if it fits. */
  function Packed(kv: seq<Pair>): Bytes
    requires AllPackable(kv)
  {
    PackSize(|kv|) + PackPairs(kv)
  }

  /** More pairs than can be counted do not fit a datagram. */
  lemma {:induction false} PairsTakeSpace(kv: seq<Pair>)
    requires AllPackable(kv)
    ensures |PackPairs(kv)| >= 2 * |kv|
  {
    if kv != [] { PairsTakeSpace(kv[1..]); }
  }

  // ----- The printed form -----

  function HexDigit(n: nat): char
    requires n < 16
  {
    "0123456789abcdef"[n]
  }

  function Escape(b: Byte): string {
    match b
    case 8 => "\\b"
    case 9 => "\\t"
    case 10 => "\\n"
    case 11 => "\\v"
    case 12 => "\\f"
    case 13 => "\\r"
    case 34 => "\\\""
    case 92 => "\\\\"
    case _ =>
      if 0x20 <= b < 0x7f then [b as char]
      else "\\x" + [HexDigit(b / 16), HexDigit(b % 16)]
  }

  function EscapeAll(s: Bytes): string {
    if s == [] then "" else Escape(s[0]) + EscapeAll(s[1..])
  }

  function Quote(s: Bytes): string {
    "\"" + EscapeAll(s) + "\""
  }

  /** Some pairs between commas; more follow others already printed. */
  function PrintPairs(kv: seq<Pair>, more: bool): string {
    if kv == [] then ""
    else (if more then ", " else "") + Quote(kv[0].key) + ": " + Quote(kv[0].value) + PrintPairs(kv[1..], true)
  }

  function Print(kv: seq<Pair>): string {
    "{" + PrintPairs(kv, false) + "}"
  }

  // ----- Reading the printed form -----

  function HexValue(c: char): (n: nat)
    ensures n <= 16
  {
    if '0' <= c <= '9' then c as int - '0' as int
    else if 'a' <= c <= 'f' then c as int - 'a' as int + 10
    else 16
  }

  /** One printed byte, and how many characters it takes. */
  function UnescapeFirst(s: string): Option<(Byte, nat)> {
    if s == "" then None
    else if s[0] != '\\' then
      if s[0] as int < 256 && s[0] != '"' then Some((s[0] as int, 1)) else None
    else if |s| < 2 then None
    else
      match s[1]
      case 'b' => Some((8, 2))
      case 't' => Some((9, 2))
      case 'n' => Some((10, 2))
      case 'v' => Some((11, 2))
      case 'f' => Some((12, 2))
      case 'r' => Some((13, 2))
      case '"' => Some((34, 2))
      case '\\' => Some((92, 2))
      case 'x' =>
        if |s| < 4 || HexValue(s[2]) == 16 || HexValue(s[3]) == 16 then None
        else Some((16 * HexValue(s[2]) + HexValue(s[3]), 4))
      case _ => None
  }

  /** What stands before the closing quote, and what comes after it. */
  function Unquote(s: string): Option<(Bytes, string)>
    decreases |s|
  {
    if s == "" then None
    else if s[0] == '"' then Some(([], s[1..]))
    else
      match UnescapeFirst(s)
      case None => None
      case Some((b, n)) =>
        if n == 0 || n > |s| then None
        else
          match Unquote(s[n..])
          case None => None
          case Some((rest, after)) => Some(([b] + rest, after))
  }

  function Expect(s: string, start: string): Option<string> {
    if start <= s then Some(s[|start|..]) else None
  }

  function ReadPairs(s: string, more: bool): Option<seq<Pair>>
    decreases |s|
  {
    if s == "}" then Some([])
    else
      match Expect(s, if more then ", \"" else "\"")
      case None => None
      case Some(s1) =>
        match Unquote(s1)
        case None => None
        case Some((key, s2)) =>
          match Expect(s2, ": \"")
          case None => None
          case Some(s3) =>
            match Unquote(s3)
            case None => None
            case Some((value, s4)) =>
              if |s4| >= |s| then None
              else
                match ReadPairs(s4, true)
                case None => None
                case Some(rest) => Some([Pair(key, value)] + rest)
  }

  function ReadPrinted(s: string): Option<seq<Pair>> {
    match Expect(s, "{")
    case None => None
    case Some(rest) => ReadPairs(rest, false)
  }

  lemma UnescapeEscape(b: Byte, rest: string)
    ensures UnescapeFirst(Escape(b) + rest) == Some((b, |Escape(b)|))
    ensures Escape(b) != "" && Escape(b)[0] != '"'
  {
    if 0x20 <= b < 0x7f && b != 34 && b != 92 {
      assert (b as char) as int == b;
    } else if !(8 <= b <= 13) && b != 34 && b != 92 {
      hide UnescapeFirst;
      UnescapeHex(b, rest);
    }
  }

  lemma UnescapeHex(b: Byte, rest: string)
    ensures UnescapeFirst("\\x" + [HexDigit(b / 16), HexDigit(b % 16)] + rest) == Some((b, 4))
  {
    HexRoundTrip(b / 16);
    HexRoundTrip(b % 16);
  }

  lemma HexRoundTrip(n: nat)
    requires n < 16
    ensures HexValue(HexDigit(n)) == n
  {
  }

  lemma {:induction false} UnquoteQuote(s: Bytes, rest: string)
    ensures Unquote(EscapeAll(s) + "\"" + rest) == Some((s, rest))
    decreases |s|
  {
    if s == [] {
      assert EscapeAll(s) + "\"" + rest == "\"" + rest;
    } else {
      hide Escape, UnescapeFirst;
      var text := EscapeAll(s[1..]) + "\"" + rest;
      assert EscapeAll(s) + "\"" + rest == Escape(s[0]) + text;
      UnescapeEscape(s[0], text);
      assert (Escape(s[0]) + text)[|Escape(s[0])|..] == text;
      UnquoteQuote(s[1..], rest);
      assert [s[0]] + s[1..] == s;
    }
  }

  lemma ExpectThere(start: string, rest: string)
    ensures Expect(start + rest, start) == Some(rest)
  {
  }

  lemma Regrouped(comma: string, key: string, value: string, rest: string)
    ensures comma + ("\"" + key + "\"") + ": " + ("\"" + value + "\"") + rest + "}"
         == (comma + "\"") + (key + "\"" + (": \"" + (value + "\"" + (rest + "}"))))
  {
    var tail := rest + "}";
    Associates(value + "\"", rest, "}");
    assert ("\"" + value + "\"") + rest + "}" == "\"" + (value + "\"" + tail);
    var s3 := value + "\"" + tail;
    assert ": " + ("\"" + s3) == ": \"" + s3;
    assert comma + ("\"" + key + "\"") == (comma + "\"") + (key + "\"");
    Associates(comma + "\"", key + "\"", ": \"" + s3);
    var left := comma + ("\"" + key + "\"");
    Associates(left, ": ", "\"" + s3);
    Associates(left + ": ", "\"" + value + "\"", rest);
    Associates(left + ": ", ("\"" + value + "\"") + rest, "}");
  }

  lemma Associates(a: string, b: string, c: string)
    ensures a + b + c == a + (b + c)
  {
  }

  /** One pair read, piece by piece. */
  lemma ReadOnePair(s: string, more: bool, s1: string, key: Bytes, s2: string, s3: string, value: Bytes, s4: string, rest: seq<Pair>)
    requires s != "}" && Expect(s, if more then ", \"" else "\"") == Some(s1) && Unquote(s1) == Some((key, s2))
    requires Expect(s2, ": \"") == Some(s3) && Unquote(s3) == Some((value, s4)) && |s4| < |s|
    requires ReadPairs(s4, true) == Some(rest)
    ensures ReadPairs(s, more) == Some([Pair(key, value)] + rest)
  {
    hide Expect, Unquote;
  }

  /** Where the first pair of a printed list stands. */
  lemma PrintedStart(kv: seq<Pair>, more: bool)
    requires kv != []
    ensures var tail := PrintPairs(kv[1..], true) + "}";
            var s3 := EscapeAll(kv[0].value) + "\"" + tail;
            var s1 := EscapeAll(kv[0].key) + "\"" + (": \"" + s3);
            var s := PrintPairs(kv, more) + "}";
            s == (if more then ", \"" else "\"") + s1 && s != "}" && |tail| < |s|
  {
    hide EscapeAll;
    Regrouped(if more then ", " else "", EscapeAll(kv[0].key), EscapeAll(kv[0].value), PrintPairs(kv[1..], true));
    var s := PrintPairs(kv, more) + "}";
    assert s[0] == (if more then ',' else '"');
  }

  lemma {:induction false} ReadPrintedPairs(kv: seq<Pair>, more: bool)
    ensures ReadPairs(PrintPairs(kv, more) + "}", more) == Some(kv)
    decreases |kv|
  {
    if kv == [] {
      assert PrintPairs(kv, more) + "}" == "}";
    } else {
      hide Unquote, EscapeAll, Expect, ReadPairs, PrintPairs;
      var tail := PrintPairs(kv[1..], true) + "}";
      var start := if more then ", \"" else "\"";
      var s3 := EscapeAll(kv[0].value) + "\"" + tail;
      var s2 := ": \"" + s3;
      var s1 := EscapeAll(kv[0].key) + "\"" + s2;
      PrintedStart(kv, more);
      ExpectThere(start, s1);
      UnquoteQuote(kv[0].key, s2);
      ExpectThere(": \"", s3);
      UnquoteQuote(kv[0].value, tail);
      ReadPrintedPairs(kv[1..], true);
      ReadOnePair(PrintPairs(kv, more) + "}", more, s1, kv[0].key, s2, s3, kv[0].value, tail, kv[1..]);
      assert [Pair(kv[0].key, kv[0].value)] + kv[1..] == kv;
    }
  }

  /** The printed line tells the pairs: no two events print alike. */
  lemma PrintedReadsBack(kv: seq<Pair>)
    ensures ReadPrinted(Print(kv)) == Some(kv)
  {
    hide ReadPairs, PrintPairs;
    assert Print(kv) == "{" + (PrintPairs(kv, false) + "}");
    ExpectThere("{", PrintPairs(kv, false) + "}");
    ReadPrintedPairs(kv, false);
  }

  class LoggedEvent {
    var kv: seq<Pair>
    var keys: map<Bytes, nat>

    constructor (eventType: Bytes, sender: Bytes)
      ensures Valid()
      ensures kv == AllAdded([Pair(Text("type"), eventType), Pair(Text("sender"), sender)])
    {
      kv, keys := [], map[];
      new;
      Add(Text("type"), eventType);
      Add(Text("sender"), sender);
      var p, q := Pair(Text("type"), eventType), Pair(Text("sender"), sender);
      assert [p, q][..1] == [p] && [p][..0] == [];
      assert AllAdded([]) == [] && AllAdded([p]) == Added([], p);
    }

    /** The index of every key is where its pair stands. */
    ghost predicate Valid()
      reads this
    {
      && (forall i | 0 <= i < |kv| :: kv[i].key in keys && keys[kv[i].key] == i)
      && (forall k | k in keys :: keys[k] < |kv| && kv[keys[k]].key == k)
    }

    method Add(key: Bytes, value: Bytes)
      requires Valid()
      modifies this
      ensures Valid() && kv == Added(old(kv), Pair(key, value))
    {
      if key !in keys {
        keys := keys[key := |kv|];
        kv := kv + [Pair(key, value)];
      } else {
        kv := kv[keys[key] := Pair(key, value)];
      }
    }

    /** None when the pairs overflow the datagram. */
    method MakeDatagram() returns (packed: Option<Bytes>)
      requires AllPackable(kv)
      ensures packed == if |Packed(kv)| <= DATAGRAM_MAX then Some(Packed(kv)) else None
    {
      hide PackString, PackSize;
      var dg := PackSize(|kv|);
      SizeIsShort(|kv|);
      assert kv[0..] == kv;
      for i := 0 to |kv|
        invariant |dg| <= DATAGRAM_MAX && dg + PackPairs(kv[i..]) == Packed(kv)
      {
        assert kv[i..][1..] == kv[i + 1..];
        var more := PackString(kv[i].key) + PackString(kv[i].value);
        assert dg + (more + PackPairs(kv[i + 1..])) == dg + more + PackPairs(kv[i + 1..]);
        if |dg + more| > DATAGRAM_MAX {
          return None;
        }
        dg := dg + PackString(kv[i].key);
        dg := dg + PackString(kv[i].value);
      }
      assert kv[|kv|..] == [] && dg + [] == dg;
      packed := Some(dg);
    }
  }

  lemma SizeIsShort(n: nat)
    ensures |PackSize(n)| <= 3
  {
  }

  function Text(s: string): Bytes {
    seq(|s|, i requires 0 <= i < |s| => (s[i] as int) % 256)
  }
}
