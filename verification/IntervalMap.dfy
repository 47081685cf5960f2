/** Interval maps and interval sets: sorted lists of disjoint closed segments, each
    with the set of values held throughout it. No segment is kept for an empty set,
    and adjacent segments with the same set are joined. */
module IntervalMap {

  datatype Segment<T> = Segment(lo: int, hi: int, held: set<T>)

  predicate Covers<T>(s: Segment<T>, c: int) {
    s.lo <= c <= s.hi
  }

  /** Disjoint segments in order, between two bounds, none of them without a value. */
  predicate Within<T(==)>(segments: seq<Segment<T>>, lo: int, hi: int) {
    segments == [] ||
    var s := segments[0];
    lo <= s.lo <= s.hi <= hi && s.held != {} && Within(segments[1..], s.hi + 1, hi)
  }

  /** The values held at one point. */
  function At<T(==)>(segments: seq<Segment<T>>, c: int): set<T> {
    if segments == [] then {}
    else if Covers(segments[0], c) then segments[0].held
    else At(segments[1..], c)
  }

  function Piece<T(==)>(lo: int, hi: int, held: set<T>): seq<Segment<T>> {
    if lo <= hi && held != {} then [Segment(lo, hi, held)] else []
  }

  function Max(a: int, b: int): int { if a < b then b else a }
  function Min(a: int, b: int): int { if a < b then a else b }

  /** A segment with another set in the part of it between lo and hi. */
  function Recut<T(==)>(s: Segment<T>, lo: int, hi: int, held: set<T>): seq<Segment<T>> {
    Piece(s.lo, Min(s.hi, lo - 1), s.held)
      + Piece(Max(s.lo, lo), Min(s.hi, hi), held)
      + Piece(Max(s.lo, hi + 1), s.hi, s.held)
  }

  /** map += (closed(lo, hi), {t}), before joining. */
  function Spread<T(==)>(segments: seq<Segment<T>>, lo: int, hi: int, t: T): seq<Segment<T>>
    decreases |segments|
  {
    if lo > hi then segments
    else if segments == [] then [Segment(lo, hi, {t})]
    else
      var s := segments[0];
      if s.hi < lo then [s] + Spread(segments[1..], lo, hi, t)
      else if hi < s.lo then [Segment(lo, hi, {t})] + segments
      else Piece(lo, s.lo - 1, {t}) + Recut(s, lo, hi, s.held + {t}) + Spread(segments[1..], s.hi + 1, hi, t)
  }

  /** map -= (closed(lo, hi), {t}), before joining. */
  function Strip<T(==)>(segments: seq<Segment<T>>, lo: int, hi: int, t: T): seq<Segment<T>> {
    if lo > hi || segments == [] then segments
    else Recut(segments[0], lo, hi, segments[0].held - {t}) + Strip(segments[1..], lo, hi, t)
  }

  /** Joins segments that touch and hold the same values. */
  function Joined<T(==)>(segments: seq<Segment<T>>): seq<Segment<T>> {
    if segments == [] then []
    else
      var rest := Joined(segments[1..]);
      var s := segments[0];
      if rest != [] && s.hi + 1 == rest[0].lo && s.held == rest[0].held
      then [Segment(s.lo, rest[0].hi, s.held)] + rest[1..]
      else [s] + rest
  }

  function Added<T(==)>(segments: seq<Segment<T>>, lo: int, hi: int, t: T): seq<Segment<T>> {
    Joined(Spread(segments, lo, hi, t))
  }

  function Removed<T(==)>(segments: seq<Segment<T>>, lo: int, hi: int, t: T): seq<Segment<T>> {
    Joined(Strip(segments, lo, hi, t))
  }

  // ----- What the operations mean at each point -----

  lemma {:induction false} AtOutside<T>(segments: seq<Segment<T>>, lo: int, hi: int, c: int)
    requires Within(segments, lo, hi) && !(lo <= c <= hi)
    ensures At(segments, c) == {}
    decreases |segments|
  {
    if segments != [] {
      AtOutside(segments[1..], segments[0].hi + 1, hi, c);
    }
  }

  lemma {:induction false} Widen<T>(segments: seq<Segment<T>>, lo: int, hi: int, lo': int, hi': int)
    requires Within(segments, lo, hi) && (segments == [] || (lo' <= lo && hi <= hi'))
    ensures Within(segments, lo', hi')
    decreases |segments|
  {
    if segments != [] {
      Widen(segments[1..], segments[0].hi + 1, hi, segments[0].hi + 1, hi');
    }
  }

  /** Two lists one after the other: each point belongs to one of them. */
  lemma {:induction false} AtConcat<T>(a: seq<Segment<T>>, b: seq<Segment<T>>, lo: int, mid: int, hi: int, c: int)
    requires Within(a, lo, mid) && Within(b, mid + 1, hi) && lo <= mid + 1 && mid <= hi
    ensures Within(a + b, lo, hi)
    ensures At(a + b, c) == if c <= mid then At(a, c) else At(b, c)
    decreases |a|
  {
    if a == [] {
      assert a + b == b;
      Widen(b, mid + 1, hi, lo, hi);
      if c <= mid { AtOutside(b, mid + 1, hi, c); }
    } else {
      assert (a + b)[1..] == a[1..] + b && (a + b)[0] == a[0];
      AtConcat(a[1..], b, a[0].hi + 1, mid, hi, c);
      if c > mid { AtOutside(a, lo, mid, c); }
    }
  }

  /** The first segment, and what is left at each side of it. */
  lemma Head<T>(segments: seq<Segment<T>>, lo: int, hi: int, c: int)
    requires segments != [] && Within(segments, lo, hi)
    ensures var s := segments[0];
            && lo <= s.lo <= s.hi <= hi && s.held != {} && Within(segments[1..], s.hi + 1, hi)
            && At(segments, c) == if c < s.lo then {} else if c <= s.hi then s.held else At(segments[1..], c)
  {
    if c < segments[0].lo { AtOutside(segments, segments[0].lo, hi, c); }
  }

  lemma PieceAt<T>(lo: int, hi: int, held: set<T>, c: int)
    ensures Within(Piece(lo, hi, held), lo, hi)
    ensures At(Piece(lo, hi, held), c) == if lo <= c <= hi then held else {}
  {
  }

  lemma RecutAt<T>(s: Segment<T>, lo: int, hi: int, held: set<T>, c: int)
    requires s.lo <= s.hi && s.held != {} && lo <= s.hi && s.lo <= hi && lo <= hi
    ensures Within(Recut(s, lo, hi, held), s.lo, s.hi)
    ensures At(Recut(s, lo, hi, held), c) == if !Covers(s, c) then {} else if lo <= c <= hi then held else s.held
  {
    var l, h := Max(s.lo, lo), Min(s.hi, hi);
    var first := Piece(s.lo, Min(s.hi, lo - 1), s.held);
    var middle := Piece(l, h, held);
    var last := Piece(Max(s.lo, hi + 1), s.hi, s.held);
    PieceAt(s.lo, Min(s.hi, lo - 1), s.held, c);
    PieceAt(l, h, held, c);
    PieceAt(Max(s.lo, hi + 1), s.hi, s.held, c);
    Widen(first, s.lo, Min(s.hi, lo - 1), s.lo, l - 1);
    AtConcat(first, middle, s.lo, l - 1, h, c);
    Widen(last, Max(s.lo, hi + 1), s.hi, h + 1, s.hi);
    AtConcat(first + middle, last, s.lo, h, s.hi, c);
    if c < s.lo || s.hi < c { AtOutside(first + middle + last, s.lo, s.hi, c); }
  }

  /** A segment untouched by an operation is recut into itself. */
  lemma RecutApart<T>(s: Segment<T>, lo: int, hi: int, held: set<T>)
    requires s.lo <= s.hi && s.held != {} && lo <= hi && (s.hi < lo || hi < s.lo)
    ensures Recut(s, lo, hi, held) == [s]
  {
  }

  lemma {:induction false} SpreadAt<T>(segments: seq<Segment<T>>, lo: int, hi: int, t: T, a: int, b: int, c: int)
    requires Within(segments, a, b) && (lo <= hi ==> a <= lo && hi <= b)
    ensures Within(Spread(segments, lo, hi, t), a, b)
    ensures At(Spread(segments, lo, hi, t), c) == At(segments, c) + if lo <= c <= hi then {t} else {}
    decreases |segments|
  {
    if lo <= hi && segments != [] {
      hide Within, At, Spread;
      if segments[0].hi < lo {
        SpreadAfter(segments, lo, hi, t, a, b, c);
      } else if hi < segments[0].lo {
        SpreadBefore(segments, lo, hi, t, a, b, c);
      } else {
        SpreadOver(segments, lo, hi, t, a, b, c);
      }
    }
  }

  lemma {:induction false} SpreadAfter<T>(segments: seq<Segment<T>>, lo: int, hi: int, t: T, a: int, b: int, c: int)
    requires Within(segments, a, b) && a <= lo <= hi <= b && segments != [] && segments[0].hi < lo
    ensures Within(Spread(segments, lo, hi, t), a, b)
    ensures At(Spread(segments, lo, hi, t), c) == At(segments, c) + if lo <= c <= hi then {t} else {}
    decreases |segments|, 0
  {
    hide Within, At;
    var s, rest := segments[0], segments[1..];
    Head(segments, a, b, c);
    SpreadAt(rest, lo, hi, t, s.hi + 1, b, c);
    PieceAt(s.lo, s.hi, s.held, c);
    assert Piece(s.lo, s.hi, s.held) == [s];
    Widen([s], s.lo, s.hi, a, s.hi);
    AtConcat([s], Spread(rest, lo, hi, t), a, s.hi, b, c);
  }

  lemma SpreadBefore<T>(segments: seq<Segment<T>>, lo: int, hi: int, t: T, a: int, b: int, c: int)
    requires Within(segments, a, b) && a <= lo <= hi <= b && segments != [] && hi < segments[0].lo
    ensures Within(Spread(segments, lo, hi, t), a, b)
    ensures At(Spread(segments, lo, hi, t), c) == At(segments, c) + if lo <= c <= hi then {t} else {}
  {
    hide Within, At;
    var single := Piece(lo, hi, {t});
    Head(segments, a, b, c);
    PieceAt(lo, hi, {t}, c);
    Widen(single, lo, hi, a, hi);
    FromFirst(segments, a, b);
    Widen(segments, segments[0].lo, b, hi + 1, b);
    AtConcat(single, segments, a, hi, b, c);
  }

  lemma FromFirst<T>(segments: seq<Segment<T>>, a: int, b: int)
    requires segments != [] && Within(segments, a, b)
    ensures Within(segments, segments[0].lo, b)
  {
  }

  lemma {:induction false} SpreadOver<T>(segments: seq<Segment<T>>, lo: int, hi: int, t: T, a: int, b: int, c: int)
    requires Within(segments, a, b) && a <= lo <= hi <= b
    requires segments != [] && lo <= segments[0].hi && segments[0].lo <= hi
    ensures Within(Spread(segments, lo, hi, t), a, b)
    ensures At(Spread(segments, lo, hi, t), c) == At(segments, c) + if lo <= c <= hi then {t} else {}
    decreases |segments|, 0
  {
    hide Within, At, Recut, Piece;
    var s := segments[0];
    Head(segments, a, b, c);
    var gap, cut, tail := Piece(lo, s.lo - 1, {t}), Recut(s, lo, hi, s.held + {t}), Spread(segments[1..], s.hi + 1, hi, t);
    assert Spread(segments, lo, hi, t) == gap + cut + tail;
    hide Spread;
    SpreadAt(segments[1..], s.hi + 1, hi, t, s.hi + 1, b, c);
    RecutAt(s, lo, hi, s.held + {t}, c);
    PieceAt(lo, s.lo - 1, {t}, c);
    Widen(gap, lo, s.lo - 1, a, s.lo - 1);
    AtConcat(gap, cut, a, s.lo - 1, s.hi, c);
    AtConcat(gap + cut, tail, a, s.hi, b, c);
    if c < s.lo {
      assert At(segments, c) == {} && At(gap + cut + tail, c) == At(gap, c);
    } else if c <= s.hi {
      assert At(segments, c) == s.held && At(gap + cut + tail, c) == At(cut, c);
    } else {
      assert At(gap + cut + tail, c) == At(tail, c);
    }
  }

  lemma {:induction false} StripAt<T>(segments: seq<Segment<T>>, lo: int, hi: int, t: T, a: int, b: int, c: int)
    requires Within(segments, a, b)
    ensures Within(Strip(segments, lo, hi, t), a, b)
    ensures At(Strip(segments, lo, hi, t), c) == At(segments, c) - if lo <= c <= hi then {t} else {}
    decreases |segments|
  {
    if lo <= hi && segments != [] {
      hide Within, At, Recut;
      var s := segments[0];
      Head(segments, a, b, c);
      var cut, tail := Recut(s, lo, hi, s.held - {t}), Strip(segments[1..], lo, hi, t);
      StripAt(segments[1..], lo, hi, t, s.hi + 1, b, c);
      RecutEvery(s, lo, hi, s.held - {t}, c);
      Widen(cut, s.lo, s.hi, a, s.hi);
      AtConcat(cut, tail, a, s.hi, b, c);
    }
  }

  lemma RecutEvery<T>(s: Segment<T>, lo: int, hi: int, held: set<T>, c: int)
    requires s.lo <= s.hi && s.held != {} && lo <= hi
    ensures Within(Recut(s, lo, hi, held), s.lo, s.hi)
    ensures At(Recut(s, lo, hi, held), c) == if !Covers(s, c) then {} else if lo <= c <= hi then held else s.held
  {
    if s.hi < lo || hi < s.lo {
      RecutApart(s, lo, hi, held);
    } else {
      RecutAt(s, lo, hi, held, c);
    }
  }

  lemma {:induction false} JoinedAt<T>(segments: seq<Segment<T>>, a: int, b: int, c: int)
    requires Within(segments, a, b)
    ensures Within(Joined(segments), a, b)
    ensures segments != [] ==> Joined(segments) != [] && Joined(segments)[0].lo == segments[0].lo
    ensures At(Joined(segments), c) == At(segments, c)
    decreases |segments|
  {
    if segments != [] {
      var s := segments[0];
      var rest := Joined(segments[1..]);
      JoinedAt(segments[1..], s.hi + 1, b, c);
      if rest != [] && s.hi + 1 == rest[0].lo && s.held == rest[0].held {
        var whole := Segment(s.lo, rest[0].hi, s.held);
        AtConcat([whole], rest[1..], a, whole.hi, b, c);
        if c <= s.hi { AtOutside(segments[1..], s.hi + 1, b, c); }
        if c > rest[0].hi {} else if c >= s.lo {}
      } else {
        Widen([s], s.lo, s.hi, a, s.hi);
        AtConcat([s], rest, a, s.hi, b, c);
        if c <= s.hi { AtOutside(segments[1..], s.hi + 1, b, c); }
      }
    }
  }

  // ----- The operations as their users see them -----

  lemma AddedAt<T>(segments: seq<Segment<T>>, lo: int, hi: int, t: T, a: int, b: int)
    requires Within(segments, a, b) && (lo <= hi ==> a <= lo && hi <= b)
    ensures Within(Added(segments, lo, hi, t), a, b)
    ensures forall c :: At(Added(segments, lo, hi, t), c) == At(segments, c) + if lo <= c <= hi then {t} else {}
  {
    SpreadAt(segments, lo, hi, t, a, b, a);
    JoinedAt(Spread(segments, lo, hi, t), a, b, a);
    forall c ensures At(Added(segments, lo, hi, t), c) == At(segments, c) + if lo <= c <= hi then {t} else {} {
      SpreadAt(segments, lo, hi, t, a, b, c);
      JoinedAt(Spread(segments, lo, hi, t), a, b, c);
    }
  }

  lemma RemovedAt<T>(segments: seq<Segment<T>>, lo: int, hi: int, t: T, a: int, b: int)
    requires Within(segments, a, b)
    ensures Within(Removed(segments, lo, hi, t), a, b)
    ensures forall c :: At(Removed(segments, lo, hi, t), c) == At(segments, c) - if lo <= c <= hi then {t} else {}
  {
    StripAt(segments, lo, hi, t, a, b, a);
    JoinedAt(Strip(segments, lo, hi, t), a, b, a);
    forall c ensures At(Removed(segments, lo, hi, t), c) == At(segments, c) - if lo <= c <= hi then {t} else {} {
      StripAt(segments, lo, hi, t, a, b, c);
      JoinedAt(Strip(segments, lo, hi, t), a, b, c);
    }
  }

  /** A point is held exactly when some segment covers it. */
  lemma {:induction false} HeldBySegment<T>(segments: seq<Segment<T>>, a: int, b: int, c: int)
    requires Within(segments, a, b)
    ensures At(segments, c) != {} <==> exists i :: 0 <= i < |segments| && Covers(segments[i], c)
    ensures forall i | 0 <= i < |segments| && Covers(segments[i], c) :: At(segments, c) == segments[i].held
    ensures forall i | 0 <= i < |segments| :: a <= segments[i].lo <= segments[i].hi <= b && segments[i].held != {}
    decreases |segments|
  {
    if segments != [] {
      HeldBySegment(segments[1..], segments[0].hi + 1, b, c);
      assert forall i | 1 <= i < |segments| :: segments[i] == segments[1..][i - 1];
      if i :| 0 <= i < |segments[1..]| && Covers(segments[1..][i], c) {
        assert Covers(segments[i + 1], c);
      }
    }
  }
}
