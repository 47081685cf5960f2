/** Who listens to which channel: single channels in a multimap, ranges of channels in
    an interval map, and the same again in each subscriber's own two sets. */
module ChannelMap {
  import opened IntervalMap

  const CHANNEL_MAX: int := 0xFFFF_FFFF_FFFF_FFFF
  type Channel = c: int | 0 <= c <= CHANNEL_MAX

  /** A subscriber's own ranges are an interval map whose one value is no news. */
  datatype Unit = Unit

  /** What is passed on to the message director upstream. */
  datatype Notice =
    | AddChannel(c: Channel)
    | RemoveChannel(c: Channel)
    | AddRange(lo: int, hi: int)
    | RemoveRange(lo: int, hi: int)

  /** Whether, after these notices, the upstream holds a channel by range. */
  predicate HeldByRange(notices: seq<Notice>, c: int) {
    notices != [] &&
    match notices[|notices|-1]
    case AddRange(lo, hi) => lo <= c <= hi || HeldByRange(notices[..|notices|-1], c)
    case RemoveRange(lo, hi) => !(lo <= c <= hi) && HeldByRange(notices[..|notices|-1], c)
    case _ => HeldByRange(notices[..|notices|-1], c)
  }

  /** Whether the last notice about a channel on its own reported it. What the upstream then
      does with it when a range around it is removed is not said. */
  predicate ReportedAlone(notices: seq<Notice>, c: Channel) {
    notices != [] &&
    match notices[|notices|-1]
    case AddChannel(d) => d == c || ReportedAlone(notices[..|notices|-1], c)
    case RemoveChannel(d) => d != c && ReportedAlone(notices[..|notices|-1], c)
    case _ => ReportedAlone(notices[..|notices|-1], c)
  }

  /** equal_range in the multimap. */
  function Entries<T>(subscriptions: map<Channel, seq<T>>, c: Channel): seq<T> {
    if c in subscriptions then subscriptions[c] else []
  }

  predicate ProperEntries<T(==)>(subscriptions: map<Channel, seq<T>>) {
    forall c | c in subscriptions :: subscriptions[c] != [] && NoDuplicates(subscriptions[c])
  }

  predicate NoDuplicates<T(==)>(s: seq<T>) {
    forall i, j | 0 <= i < j < |s| :: s[i] != s[j]
  }

  class ChannelSubscriber {
    var channels: set<Channel>
    var ranges: seq<Segment<Unit>>

    constructor ()
      ensures channels == {} && ranges == []
    {
      channels := {};
      ranges := [];
    }

    /** is_subscribed. */
    predicate Listens(c: Channel)
      reads this
    {
      c in channels || InRanges(c)
    }

    predicate InRanges(c: Channel)
      reads `ranges
    {
      At(ranges, c) != {}
    }
  }

  class ChannelMap {
    var channelSubscriptions: map<Channel, seq<ChannelSubscriber>>
    var rangeSubscriptions: seq<Segment<ChannelSubscriber>>
    var notices: seq<Notice>
    ghost var subscribers: set<ChannelSubscriber>  // everyone who has ever subscribed
    ghost var orphans: set<Channel>  // those that lost their last entry with a range, untold

    constructor ()
      ensures Valid() && subscribers == {} && orphans == {} && notices == []
    {
      channelSubscriptions := map[];
      rangeSubscriptions := [];
      notices := [];
      subscribers := {};
      orphans := {};
    }

    function Bucket(c: Channel): seq<ChannelSubscriber>
      reads this
    {
      Entries(channelSubscriptions, c)
    }

    /** The interval map agrees with the subscribers' own ranges. */
    ghost predicate RangesAgree()
      reads `rangeSubscriptions, `subscribers, subscribers`ranges
    {
      && (forall p | p in subscribers :: Within(p.ranges, 0, CHANNEL_MAX))
      && Within(rangeSubscriptions, 0, CHANNEL_MAX)
      && (forall c: Channel :: At(rangeSubscriptions, c) <= subscribers)
      && (forall p, c: Channel | p in subscribers :: p in At(rangeSubscriptions, c) <==> At(p.ranges, c) != {})
    }

    /** The multimap agrees with the subscribers' own channels. */
    ghost predicate ChannelsAgree()
      reads `channelSubscriptions, `subscribers, subscribers`channels
    {
      && ProperEntries(channelSubscriptions)
      && (forall c: Channel, p | p in Entries(channelSubscriptions, c) :: p in subscribers)
      && (forall p, c: Channel | p in subscribers :: p in Entries(channelSubscriptions, c) <==> c in p.channels)
    }

    /** The upstream holds by range exactly the channels somebody holds by range, and
        what is reported to it alone are the channels with an entry, and the orphans. */
    ghost predicate NoticesAgree()
      reads `notices, `rangeSubscriptions, `channelSubscriptions, `orphans
    {
      && (forall c: Channel :: HeldByRange(notices, c) <==> At(rangeSubscriptions, c) != {})
      && ReportsAgree()
    }

    ghost predicate ReportsAgree()
      reads `notices, `channelSubscriptions, `orphans
    {
      && orphans !! channelSubscriptions.Keys
      && (forall c: Channel :: ReportedAlone(notices, c) <==> c in channelSubscriptions || c in orphans)
    }

    /** The channels in a range that nobody but this subscriber has an entry for. */
    ghost function OnlyIn(p: ChannelSubscriber, lo: int, hi: int): set<Channel>
      reads this, p
    {
      set c | c in p.channels && lo <= c <= hi && Bucket(c) == [p]
    }

    ghost predicate Valid()
      reads this, subscribers
    {
      RangesAgree() && ChannelsAgree() && NoticesAgree()
    }

    /** A subscriber this map knows, or one that has no subscriptions yet. */
    ghost predicate Admits(p: ChannelSubscriber)
      reads this, p
    {
      p in subscribers || (p.channels == {} && p.ranges == [])
    }

    ghost method Admit(p: ChannelSubscriber)
      requires Valid() && Admits(p)
      modifies `subscribers
      ensures Valid() && subscribers == old(subscribers) + {p}
    {
      assert p !in subscribers ==> forall c: Channel :: p !in At(rangeSubscriptions, c) && p !in Entries(channelSubscriptions, c);
      subscribers := subscribers + {p};
    }

    method SubscribeChannel(p: ChannelSubscriber, c: Channel)
      requires Valid() && Admits(p)
      modifies this, p
      ensures Valid() && subscribers == old(subscribers) + {p}
      ensures p.ranges == old(p.ranges) && rangeSubscriptions == old(rangeSubscriptions)
      ensures p.channels == if old(p.InRanges(c)) then old(p.channels) else old(p.channels) + {c}
      ensures notices == if old(p.Listens(c)) || old(Bucket(c)) != [] then old(notices) else old(notices) + [AddChannel(c)]
      ensures orphans == if old(p.Listens(c)) then old(orphans) else old(orphans) - {c}
    {
      hide At, Within, NoDuplicates;
      Admit(p);
      if p.Listens(c) {
        return;
      }
      if c !in channelSubscriptions {
        notices := notices + [AddChannel(c)];
        AddedNotice(old(notices), c);
        orphans := orphans - {c};
      }
      AddEntry(p, c);
    }

    method AddEntry(p: ChannelSubscriber, c: Channel)
      requires ChannelsAgree() && p in subscribers && c !in p.channels
      modifies `channelSubscriptions, p`channels
      ensures ChannelsAgree() && p.channels == old(p.channels) + {c}
      ensures channelSubscriptions == old(channelSubscriptions)[c := Entries(old(channelSubscriptions), c) + [p]]
    {
      hide NoDuplicates;
      p.channels := p.channels + {c};
      ghost var before := channelSubscriptions;
      channelSubscriptions := channelSubscriptions[c := Bucket(c) + [p]];
      EntryAdded(before, c, p);
    }

    /** Removes one subscriber from one channel of the multimap; true if it was the last. */
    method RemoveSubscriber(p: ChannelSubscriber, c: Channel) returns (last: bool)
      requires ProperEntries(channelSubscriptions)
      modifies this`channelSubscriptions
      ensures last <==> old(Bucket(c)) == [p]
      ensures c in channelSubscriptions <==> c in old(channelSubscriptions) && !last
      ensures forall d: Channel | d != c ::
                && (d in channelSubscriptions <==> d in old(channelSubscriptions))
                && Entries(channelSubscriptions, d) == Entries(old(channelSubscriptions), d)
      ensures forall q :: q in Entries(channelSubscriptions, c) <==> q in old(Bucket(c)) && q != p
      ensures ProperEntries(channelSubscriptions)
    {
      if c !in channelSubscriptions {
        return false;
      }
      var subs := channelSubscriptions[c];
      var count := |subs|;
      var i := 0;
      while i < |subs|
        invariant 0 <= i <= |subs| && p !in subs[..i]
        invariant channelSubscriptions == old(channelSubscriptions) && count == |subs|
      {
        if subs[i] == p {
          var left := subs[..i] + subs[i+1..];
          WithoutOne(subs, i);
          channelSubscriptions := if left == [] then channelSubscriptions - {c} else channelSubscriptions[c := left];
          count := count - 1;
          return count == 0;
        }
        i := i + 1;
      }
      assert subs[..i] == subs;
      last := count == 0;
    }

    method UnsubscribeChannel(p: ChannelSubscriber, c: Channel)
      requires Valid() && Admits(p)
      modifies this, p
      ensures Valid() && subscribers == old(subscribers)
      ensures p.ranges == old(p.ranges) && p.channels == old(p.channels) - {c}
      ensures rangeSubscriptions == old(rangeSubscriptions) && orphans == old(orphans)
      ensures notices == if old(Bucket(c)) == [p] then old(notices) + [RemoveChannel(c)] else old(notices)
      ensures channelSubscriptions.Keys == old(channelSubscriptions.Keys) - if old(Bucket(c)) == [p] then {c} else {}
      ensures forall d: Channel | d != c :: Bucket(d) == old(Bucket(d))
    {
      hide At, Within, NoDuplicates, ProperEntries;
      if !p.Listens(c) {
        return;
      }
      ListenersAreKnown(p, c);
      var last := DropChannel(p, c);
      if last {
        notices := notices + [RemoveChannel(c)];
        RemovedNotice(old(notices), c);
      }
    }

    lemma ListenersAreKnown(p: ChannelSubscriber, c: Channel)
      requires Admits(p) && p.Listens(c)
      ensures p in subscribers
    {
    }

    method SubscribeRange(p: ChannelSubscriber, lo: Channel, hi: Channel)
      requires Valid() && Admits(p)
      modifies this, p
      ensures Valid() && subscribers == old(subscribers) + {p}
      ensures p.channels == old(p.channels) && channelSubscriptions == old(channelSubscriptions) && orphans == old(orphans)
      ensures forall c: Channel :: p.InRanges(c) <==> old(p.InRanges(c)) || lo <= c <= hi
    {
      hide At, Within, HeldByRange, ReportedAlone;
      Admit(p);
      ghost var before := rangeSubscriptions;
      AddToIndex(p, lo, hi);
      NotifyAdded(lo, hi, before, p);
    }

    method AddToIndex(p: ChannelSubscriber, lo: Channel, hi: Channel)
      requires RangesAgree() && p in subscribers
      modifies `rangeSubscriptions, p`ranges
      ensures RangesAgree() && rangeSubscriptions == Added(old(rangeSubscriptions), lo, hi, p)
      ensures forall c: Channel :: p.InRanges(c) <==> old(p.InRanges(c)) || lo <= c <= hi
    {
      hide At, Within, Added;
      AddedAt(p.ranges, lo, hi, Unit, 0, CHANNEL_MAX);
      AddedAt(rangeSubscriptions, lo, hi, p, 0, CHANNEL_MAX);
      p.ranges := Added(p.ranges, lo, hi, Unit);
      rangeSubscriptions := Added(rangeSubscriptions, lo, hi, p);
    }

    method RemoveFromIndex(p: ChannelSubscriber, lo: int, hi: int)
      requires RangesAgree() && p in subscribers
      modifies `rangeSubscriptions, p`ranges
      ensures RangesAgree()
      ensures forall c: Channel :: At(rangeSubscriptions, c) == At(old(rangeSubscriptions), c) - if lo <= c <= hi then {p} else {}
      ensures forall c: Channel :: p.InRanges(c) <==> old(p.InRanges(c)) && !(lo <= c <= hi)
    {
      hide At, Within, Removed;
      RemovedAt(p.ranges, lo, hi, Unit, 0, CHANNEL_MAX);
      RemovedAt(rangeSubscriptions, lo, hi, p, 0, CHANNEL_MAX);
      p.ranges := Removed(p.ranges, lo, hi, Unit);
      rangeSubscriptions := Removed(rangeSubscriptions, lo, hi, p);
      NoUnitsLeft();
    }

    /** The loop that looks for a part of the range nobody else held. */
    method NotifyAdded(lo: Channel, hi: Channel, ghost before: seq<Segment<ChannelSubscriber>>, ghost p: ChannelSubscriber)
      requires Within(before, 0, CHANNEL_MAX) && rangeSubscriptions == Added(before, lo, hi, p)
      requires forall c: Channel :: HeldByRange(notices, c) <==> At(before, c) != {}
      requires ReportsAgree()
      modifies `notices
      ensures NoticesAgree()
    {
      hide At, Within, HeldByRange, ReportedAlone, Added;
      AddedAt(before, lo, hi, p, 0, CHANNEL_MAX);
      var i := 0;
      while i < |rangeSubscriptions|
        invariant 0 <= i <= |rangeSubscriptions| && notices == old(notices)
        invariant forall j | 0 <= j < i && Overlaps(rangeSubscriptions[j], lo, hi) :: |rangeSubscriptions[j].held| != 1
      {
        if Overlaps(rangeSubscriptions[i], lo, hi) && |rangeSubscriptions[i].held| == 1 {
          notices := notices + [AddRange(lo, hi)];
          AddedRange(old(notices), lo, hi);
          return;
        }
        i := i + 1;
      }
      NothingNew(before, lo, hi, p);
    }

    /** unsubscribe_range, which also drops the subscriber's single channels in the
        range, except that nothing happens while nobody holds any range at all. */
    method UnsubscribeRange(p: ChannelSubscriber, lo: Channel, hi: Channel)
      requires Valid() && Admits(p)
      modifies this, p
      ensures Valid() && subscribers == old(subscribers) + {p}
      ensures forall c: Channel :: p.InRanges(c) <==> old(p.InRanges(c)) && !(lo <= c <= hi)
      ensures p.channels == if old(rangeSubscriptions) == [] then old(p.channels)
                            else set c | c in old(p.channels) && !(lo <= c <= hi)
      ensures var lost := if old(rangeSubscriptions) == [] then {} else old(OnlyIn(p, lo, hi));
              channelSubscriptions.Keys == old(channelSubscriptions.Keys) - lost && orphans == old(orphans) + lost
    {
      hide At, Within, HeldByRange, ReportedAlone, ChannelsAgree;
      Admit(p);
      if |rangeSubscriptions| == 0 {
        NobodyInRanges(p);
        return;
      }
      var silent := LoseRange(p, lo, hi);
      ghost var lost := OnlyIn(p, lo, hi);
      assert forall c | c in lost :: c in channelSubscriptions;
      ClobberChannels(p, lo, hi);
      orphans := orphans + lost;
      NotifyRemoved(silent);
    }

    /** The range, bounded to the map, goes; what nobody else holds of it goes silent. */
    method LoseRange(p: ChannelSubscriber, lo: Channel, hi: Channel) returns (silent: seq<Segment<Unit>>)
      requires RangesAgree() && p in subscribers && rangeSubscriptions != []
      requires forall c: Channel :: HeldByRange(notices, c) <==> At(rangeSubscriptions, c) != {}
      modifies `rangeSubscriptions, p`ranges
      ensures RangesAgree() && Within(silent, 0, CHANNEL_MAX)
      ensures forall c: Channel :: HeldByRange(notices, c) && At(silent, c) == {} <==> At(rangeSubscriptions, c) != {}
      ensures forall c: Channel :: p.InRanges(c) <==> old(p.InRanges(c)) && !(lo <= c <= hi)
    {
      hide At, Within, HeldByRange;
      ghost var before := rangeSubscriptions;
      FirstInside(rangeSubscriptions, 0, CHANNEL_MAX);
      var from, to := Max(lo, rangeSubscriptions[0].lo), Min(hi, rangeSubscriptions[|rangeSubscriptions|-1].hi);
      BoundsCover(rangeSubscriptions, 0, CHANNEL_MAX);
      silent := SilentRanges(p, from, to);
      assert forall c: Channel :: p.InRanges(c) ==> At(rangeSubscriptions, c) != {};
      RemoveFromIndex(p, from, to);
      SilentIsWhatIsLost(notices, before, rangeSubscriptions, silent, p, from, to);
    }

    lemma NobodyInRanges(p: ChannelSubscriber)
      requires RangesAgree() && p in subscribers && rangeSubscriptions == []
      ensures forall c: Channel :: !p.InRanges(c)
    {
      forall c: Channel ensures !p.InRanges(c) {
        assert p in At(rangeSubscriptions, c) <==> At(p.ranges, c) != {};
      }
    }

    /** The parts of the range that nobody but this subscriber holds. */
    method SilentRanges(p: ChannelSubscriber, lo: int, hi: int) returns (silent: seq<Segment<Unit>>)
      requires Within(rangeSubscriptions, 0, CHANNEL_MAX) && 0 <= lo && hi <= CHANNEL_MAX
      ensures Within(silent, 0, CHANNEL_MAX)
      ensures forall c: int :: At(silent, c) != {} <==> lo <= c <= hi && At(rangeSubscriptions, c) <= {p}
    {
      silent := if lo <= hi then [Segment(lo, hi, {Unit})] else [];
      var i := 0;
      while i < |rangeSubscriptions|
        invariant 0 <= i <= |rangeSubscriptions|
        invariant Within(silent, 0, CHANNEL_MAX)
        invariant forall c: int :: At(silent, c) != {} <==> lo <= c <= hi && !TakenByOthers(rangeSubscriptions[..i], p, c)
      {
        var s := rangeSubscriptions[i];
        assert rangeSubscriptions[..i+1][..i] == rangeSubscriptions[..i];
        if Overlaps(s, lo, hi) && s.held != {} && !(s.held == {p}) {
          RemovedAt(silent, s.lo, s.hi, Unit, 0, CHANNEL_MAX);
          NoUnitsLeft();
          silent := Removed(silent, s.lo, s.hi, Unit);
        }
        i := i + 1;
      }
      assert rangeSubscriptions[..i] == rangeSubscriptions;
      forall c: int ensures At(silent, c) != {} <==> lo <= c <= hi && At(rangeSubscriptions, c) <= {p} {
        TakenByOthersMeans(rangeSubscriptions, p, 0, CHANNEL_MAX, c);
      }
    }

    /** Drops the single channels in the range without telling anybody upstream. */
    method ClobberChannels(p: ChannelSubscriber, lo: Channel, hi: Channel)
      requires ChannelsAgree() && p in subscribers
      modifies `channelSubscriptions, p`channels
      ensures ChannelsAgree()
      ensures p.channels == set c | c in old(p.channels) && !(lo <= c <= hi)
      ensures channelSubscriptions.Keys == old(channelSubscriptions.Keys) - old(OnlyIn(p, lo, hi))
    {
      hide ChannelsAgree;
      var todo := p.channels;
      while todo != {}
        invariant ChannelsAgree() && todo <= p.channels
        invariant p.channels == set c | c in old(p.channels) && (c in todo || !(lo <= c <= hi))
        invariant forall c | c in todo :: Bucket(c) == old(Bucket(c))
        invariant channelSubscriptions.Keys == old(channelSubscriptions.Keys) - (old(OnlyIn(p, lo, hi)) - todo)
      {
        var c :| c in todo;
        todo := todo - {c};
        if lo <= c <= hi {
          var _ := DropChannel(p, c);
        }
      }
    }

    /** Removes one subscriber from one channel on both sides; true if it was the last. */
    method DropChannel(p: ChannelSubscriber, c: Channel) returns (last: bool)
      requires ChannelsAgree() && p in subscribers
      modifies `channelSubscriptions, p`channels
      ensures ChannelsAgree() && p.channels == old(p.channels) - {c}
      ensures last <==> old(Bucket(c)) == [p]
      ensures channelSubscriptions.Keys == old(channelSubscriptions.Keys) - if last then {c} else {}
      ensures forall d: Channel | d != c :: Bucket(d) == old(Bucket(d))
    {
      hide NoDuplicates;
      p.channels := p.channels - {c};
      last := RemoveSubscriber(p, c);
    }

    /** Each range that went silent is sliced off upstream. */
    method NotifyRemoved(silent: seq<Segment<Unit>>)
      requires Within(silent, 0, CHANNEL_MAX)
      requires forall c: Channel :: HeldByRange(notices, c) && At(silent, c) == {} <==> At(rangeSubscriptions, c) != {}
      requires ReportsAgree()
      modifies `notices
      ensures NoticesAgree()
    {
      var i := 0;
      while i < |silent|
        invariant 0 <= i <= |silent|
        invariant forall c: Channel :: HeldByRange(notices, c) <==> HeldByRange(old(notices), c) && !exists j :: 0 <= j < i && Covers(silent[j], c)
        invariant ReportsAgree()
      {
        ghost var before := notices;
        notices := notices + [RemoveRange(silent[i].lo, silent[i].hi)];
        RemovedRange(before, silent[i].lo, silent[i].hi);
        i := i + 1;
      }
      forall c: Channel ensures HeldByRange(notices, c) <==> At(rangeSubscriptions, c) != {} {
        HeldBySegment(silent, 0, CHANNEL_MAX, c);
      }
    }

    method UnsubscribeAll(p: ChannelSubscriber)
      requires Valid() && Admits(p)
      modifies this, p
      ensures Valid() && subscribers == old(subscribers) + {p}
      ensures p.channels == {} && forall c: Channel :: !p.Listens(c)
      ensures forall q, c: Channel | q in old(subscribers) && q != p :: q.Listens(c) <==> old(q.Listens(c))
      ensures orphans == old(orphans)
      ensures forall c: Channel :: ReportedAlone(notices, c) <==>
                ReportedAlone(old(notices), c) && !(c in old(p.channels) && old(Bucket(c)) == [p])
    {
      hide At, HeldByRange, ReportedAlone, RangesAgree, ChannelsAgree, NoticesAgree;
      ReportedAreKept();
      Admit(p);
      var channels := p.channels;
      while channels != {}
        invariant Valid() && subscribers == old(subscribers) + {p}
        invariant p.ranges == old(p.ranges) && p.channels == channels && channels <= old(p.channels)
        invariant orphans == old(orphans) && forall c | c in channels :: Bucket(c) == old(Bucket(c))
        invariant channelSubscriptions.Keys == old(channelSubscriptions.Keys) - (old(OnlyIn(p, 0, CHANNEL_MAX)) - channels)
      {
        var c :| c in channels;
        channels := channels - {c};
        UnsubscribeChannel(p, c);
      }
      var ranges := p.ranges;
      RangesAreChannels(p);
      var i := 0;
      while i < |ranges|
        invariant 0 <= i <= |ranges|
        invariant Valid() && subscribers == old(subscribers) + {p}
        invariant p.channels == {} && orphans == old(orphans)
        invariant channelSubscriptions.Keys == old(channelSubscriptions.Keys) - old(OnlyIn(p, 0, CHANNEL_MAX))
        invariant forall c: Channel :: p.InRanges(c) ==> At(ranges, c) != {} && forall j | 0 <= j < i :: !Covers(ranges[j], c)
      {
        assert OnlyIn(p, ranges[i].lo, ranges[i].hi) == {};
        UnsubscribeRange(p, ranges[i].lo, ranges[i].hi);
        i := i + 1;
      }
      forall c: Channel ensures !p.InRanges(c) {
        HeldBySegment(ranges, 0, CHANNEL_MAX, c);
      }
      ReportedAreKept();
    }

    lemma ReportedAreKept()
      requires Valid()
      ensures orphans !! channelSubscriptions.Keys
      ensures forall c: Channel :: ReportedAlone(notices, c) <==> c in channelSubscriptions || c in orphans
    {
      hide ReportedAlone;
    }

    lemma RangesAreChannels(p: ChannelSubscriber)
      requires RangesAgree() && p in subscribers
      ensures Within(p.ranges, 0, CHANNEL_MAX)
      ensures forall i | 0 <= i < |p.ranges| :: 0 <= p.ranges[i].lo <= p.ranges[i].hi <= CHANNEL_MAX
    {
      HeldBySegment(p.ranges, 0, CHANNEL_MAX, 0);
    }

    method LookupChannels(cl: seq<Channel>) returns (ps: set<ChannelSubscriber>)
      requires Valid()
      ensures forall p :: p in ps <==> p in subscribers && exists c :: c in cl && p.Listens(c)
    {
      ps := {};
      for i := 0 to |cl|
        invariant ps <= subscribers
        invariant forall p | p in subscribers :: p in ps <==> exists c :: c in cl[..i] && p.Listens(c)
      {
        var c := cl[i];
        var subs := Bucket(c);
        ghost var before := ps;
        for j := 0 to |subs|
          invariant forall p :: p in ps <==> p in before || p in subs[..j]
        {
          ps := ps + {subs[j]};
        }
        assert subs[..|subs|] == subs;
        ps := ps + At(rangeSubscriptions, c);
        assert cl[..i+1] == cl[..i] + [c];
        forall p | p in subscribers ensures p in ps <==> exists d :: d in cl[..i+1] && p.Listens(d) {
          assert p in ps <==> p in before || p.Listens(c);
          if p.Listens(c) { assert c in cl[..i+1]; }
        }
      }
      assert cl[..|cl|] == cl;
    }
  }

  lemma AddedNotice(notices: seq<Notice>, c: Channel)
    ensures forall d: int :: HeldByRange(notices + [AddChannel(c)], d) <==> HeldByRange(notices, d)
    ensures forall d: Channel :: ReportedAlone(notices + [AddChannel(c)], d) <==> d == c || ReportedAlone(notices, d)
  {
    assert (notices + [AddChannel(c)])[..|notices|] == notices;
  }

  lemma RemovedNotice(notices: seq<Notice>, c: Channel)
    ensures forall d: int :: HeldByRange(notices + [RemoveChannel(c)], d) <==> HeldByRange(notices, d)
    ensures forall d: Channel :: ReportedAlone(notices + [RemoveChannel(c)], d) <==> d != c && ReportedAlone(notices, d)
  {
    assert (notices + [RemoveChannel(c)])[..|notices|] == notices;
  }

  lemma EntryAdded<T>(subscriptions: map<Channel, seq<T>>, c: Channel, p: T)
    requires ProperEntries(subscriptions) && p !in Entries(subscriptions, c)
    ensures var after := subscriptions[c := Entries(subscriptions, c) + [p]];
            && ProperEntries(after)
            && forall d: Channel, q :: q in Entries(after, d) <==> q in Entries(subscriptions, d) || (d == c && q == p)
  {
  }

  predicate Overlaps<T>(s: Segment<T>, lo: int, hi: int) {
    s.lo <= hi && lo <= s.hi && lo <= hi
  }

  lemma AddedRange(notices: seq<Notice>, lo: int, hi: int)
    ensures forall d: int :: HeldByRange(notices + [AddRange(lo, hi)], d) <==> lo <= d <= hi || HeldByRange(notices, d)
    ensures forall d: Channel :: ReportedAlone(notices + [AddRange(lo, hi)], d) <==> ReportedAlone(notices, d)
  {
    assert (notices + [AddRange(lo, hi)])[..|notices|] == notices;
  }

  lemma RemovedRange(notices: seq<Notice>, lo: int, hi: int)
    ensures forall d: int :: HeldByRange(notices + [RemoveRange(lo, hi)], d) <==> !(lo <= d <= hi) && HeldByRange(notices, d)
    ensures forall d: Channel :: ReportedAlone(notices + [RemoveRange(lo, hi)], d) <==> ReportedAlone(notices, d)
  {
    assert (notices + [RemoveRange(lo, hi)])[..|notices|] == notices;
  }

  /** What goes silent is what was held and no longer is. */
  lemma SilentIsWhatIsLost<T>(notices: seq<Notice>, before: seq<Segment<T>>, after: seq<Segment<T>>, silent: seq<Segment<Unit>>, p: T, lo: int, hi: int)
    requires forall c: Channel :: HeldByRange(notices, c) <==> At(before, c) != {}
    requires forall c: Channel :: At(after, c) == At(before, c) - if lo <= c <= hi then {p} else {}
    requires forall c: int :: At(silent, c) != {} <==> lo <= c <= hi && At(before, c) <= {p}
    ensures forall c: Channel :: HeldByRange(notices, c) && At(silent, c) == {} <==> At(after, c) != {}
  {
    hide At, HeldByRange;
    forall c: Channel ensures HeldByRange(notices, c) && At(silent, c) == {} <==> At(after, c) != {} {
      SomebodyLeft(At(before, c), p);
    }
  }

  lemma SomebodyLeft<T>(holders: set<T>, p: T)
    ensures holders - {p} != {} <==> !(holders <= {p})
    ensures holders - {} == holders
  {
  }

  lemma NotAlone<T>(others: set<T>, p: T)
    requires |others + {p}| != 1
    ensures others != {}
  {
    var nobody: set<T> := {};
    assert nobody + {p} == {p};
  }

  /** If no segment along the new range has a single subscriber, every channel of the
      range was already held. */
  lemma NothingNew<T>(before: seq<Segment<T>>, lo: int, hi: int, p: T)
    requires Within(before, 0, CHANNEL_MAX) && 0 <= lo && hi <= CHANNEL_MAX
    requires var after := Added(before, lo, hi, p);
             forall j | 0 <= j < |after| && Overlaps(after[j], lo, hi) :: |after[j].held| != 1
    ensures forall c | lo <= c <= hi :: At(before, c) != {}
  {
    var after := Added(before, lo, hi, p);
    AddedAt(before, lo, hi, p, 0, CHANNEL_MAX);
    forall c | lo <= c <= hi ensures At(before, c) != {} {
      HeldBySegment(after, 0, CHANNEL_MAX, c);
      assert At(after, c) == At(before, c) + {p};
      var j :| 0 <= j < |after| && Covers(after[j], c);
      assert Overlaps(after[j], lo, hi);
      var held := after[j].held;
      assert held == At(before, c) + {p} && |held| != 1;
      NotAlone(At(before, c), p);
    }
  }

  /** The bounds of the whole map leave nothing out. */
  lemma BoundsCover<T>(segments: seq<Segment<T>>, a: int, b: int)
    requires Within(segments, a, b) && segments != []
    ensures forall c :: At(segments, c) != {} ==> segments[0].lo <= c <= segments[|segments|-1].hi
  {
    forall c | At(segments, c) != {} ensures segments[0].lo <= c <= segments[|segments|-1].hi {
      InOrder(segments, a, b, c);
    }
  }

  lemma FirstInside<T>(segments: seq<Segment<T>>, a: int, b: int)
    requires Within(segments, a, b) && segments != []
    ensures a <= segments[0].lo <= segments[|segments|-1].hi <= b
  {
    InOrder(segments, a, b, a);
  }

  lemma {:induction false} InOrder<T>(segments: seq<Segment<T>>, a: int, b: int, c: int)
    requires Within(segments, a, b) && segments != []
    ensures At(segments, c) != {} ==> segments[0].lo <= c <= segments[|segments|-1].hi
    ensures a <= segments[0].lo <= segments[|segments|-1].hi <= b
    decreases |segments|
  {
    if |segments| == 1 {
      assert segments[1..] == [] && At(segments[1..], c) == {};
    } else {
      InOrder(segments[1..], segments[0].hi + 1, b, c);
    }
  }

  /** Some segment over this point is held by somebody else. */
  predicate TakenByOthers<T(==)>(segments: seq<Segment<T>>, p: T, c: int) {
    segments != [] &&
    ((Covers(segments[|segments|-1], c) && segments[|segments|-1].held != {} && segments[|segments|-1].held != {p})
     || TakenByOthers(segments[..|segments|-1], p, c))
  }

  lemma {:induction false} TakenBySegment<T>(segments: seq<Segment<T>>, p: T, c: int)
    ensures TakenByOthers(segments, p, c)
       <==> exists i :: 0 <= i < |segments| && Covers(segments[i], c) && segments[i].held != {} && segments[i].held != {p}
    decreases |segments|
  {
    if segments != [] {
      var init := segments[..|segments|-1];
      TakenBySegment(init, p, c);
      assert forall i | 0 <= i < |init| :: segments[i] == init[i];
    }
  }

  lemma TakenByOthersMeans<T>(segments: seq<Segment<T>>, p: T, a: int, b: int, c: int)
    requires Within(segments, a, b)
    ensures TakenByOthers(segments, p, c) <==> !(At(segments, c) <= {p})
  {
    TakenBySegment(segments, p, c);
    HeldBySegment(segments, a, b, c);
    assert At(segments, c) <= {p} <==> At(segments, c) == {} || At(segments, c) == {p};
  }

  lemma NoUnitsLeft()
    ensures forall s: set<Unit> :: s - {Unit} == {}
  {
    forall s: set<Unit> ensures s - {Unit} == {} {
      forall u | u in s ensures u == Unit {}
    }
  }

  lemma WithoutOne<T>(s: seq<T>, i: nat)
    requires i < |s| && NoDuplicates(s)
    ensures var left := s[..i] + s[i+1..];
            NoDuplicates(left) && forall x :: x in left <==> x in s && x != s[i]
  {
    var left := s[..i] + s[i+1..];
    forall x ensures x in left <==> x in s && x != s[i] {
      if x in s && x != s[i] {
        var k :| 0 <= k < |s| && s[k] == x;
        assert left[if k < i then k else k - 1] == x;
      }
      if x in left {
        var k :| 0 <= k < |left| && left[k] == x;
        assert s[if k < i then k else k + 1] == x;
      }
    }
  }
}
