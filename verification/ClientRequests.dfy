/** When an interest is complete: told from the datagrams that came alone. */
module ClientRequests {
  import opened ClientInterests
  import opened ClientRuns
  import opened ClientPending

  // ----- What was heard about a request -----

  /** The first count that came for a request. */
  function CountHeard(events: seq<Event>, request: Context): Option<nat> {
    if events == [] then None
    else
      var before := CountHeard(events[..|events|-1], request);
      if before.Some? then before
      else
        match events[|events|-1]
        case Receive(ZonesCount(r, count), _) => if r == request then Some(count) else None
        case _ => None
  }

  /** The objects that were announced for a request. */
  function EntriesHeard(events: seq<Event>, request: Context): seq<Generate> {
    if events == [] then []
    else EntriesHeard(events[..|events|-1], request) + EntryIn(events[|events|-1], request)
  }

  function EntryIn(e: Event, request: Context): seq<Generate> {
    match e
    case Receive(EnterInterest(r, d, at), _) => if r == request then [Generate(d, at)] else []
    case _ => []
  }

  predicate TimedOut(events: seq<Event>, request: Context) {
    exists e :: e in events && e.Timeout? && e.request == request
  }

  /** The time is up, or as many objects have come as were counted. */
  predicate Over(events: seq<Event>, request: Context) {
    || TimedOut(events, request)
    || (CountHeard(events, request).Some? && |EntriesHeard(events, request)| >= CountHeard(events, request).value)
  }

  // ----- What leaves the requests alone -----

  /** The same but for the datagrams held back. */
  predicate SameRequest(a: Operation, b: Operation) {
    a == b.(datagrams := a.datagrams)
  }

  predicate KeepsRequests(s: State, t: State) {
    && t.nextContext == s.nextContext && t.pending.Keys == s.pending.Keys
    && forall c | c in s.pending :: SameRequest(s.pending[c], t.pending[c])
  }

  lemma HoldingKeepsRequests(s: State, request: Context, u: ObjectUpdate)
    requires request in s.pending
    ensures KeepsRequests(s, HeldBack(s, request, u))
  {
  }

  lemma SamePendingKeeps(s: State, t: State)
    requires t.pending == s.pending && t.nextContext == s.nextContext
    ensures KeepsRequests(s, t)
  {
  }

  lemma EnteringKeepsRequests(s: State, d: Doid, at: Location, order: Ordering)
    ensures KeepsRequests(s, EnteredLocation(s, d, at, order))
  {
    hide HeldBack, KeepsRequests;
    match FirstCovering(s.pending, order.requests, at)
    case None => SamePendingKeeps(s, Entered(s, d, at));
    case Some(request) =>
      HoldingKeepsRequests(s, request, EnterLocation(d, at));
      var t, u := HeldBack(s, request, EnterLocation(d, at)), EnteredLocation(s, d, at, order);
      assert u.pending == t.pending && u.nextContext == t.nextContext;
      SamePendingPasses(s, t, u);
  }

  lemma SamePendingPasses(s: State, t: State, u: State)
    requires KeepsRequests(s, t) && u.pending == t.pending && u.nextContext == t.nextContext
    ensures KeepsRequests(s, u)
  {
  }

  lemma UpdateKeepsRequests(s: State, u: ObjectUpdate, order: Ordering)
    ensures KeepsRequests(s, Updated(s, u, order))
  {
    hide EnteredLocation, Knows, ChangedLocation, Deleted, HeldBack, KeepsRequests;
    var t := Updated(s, u, order);
    if u.EnterLocation? {
      EnteringKeepsRequests(s, u.d, u.at, order);
    } else {
      PlainUpdate(s, u);
      if u.d in s.pendingObjects && s.pendingObjects[u.d] in s.pending && t == Queued(s, u) {
        HoldingKeepsRequests(s, s.pendingObjects[u.d], u);
      } else {
        SamePendingKeeps(s, t);
      }
    }
  }

  lemma {:induction false} DispatchKeepsRequests(s: State, datagrams: seq<ObjectUpdate>, order: Ordering)
    ensures KeepsRequests(s, Dispatched(s, datagrams, order))
    decreases |datagrams|
  {
    if datagrams != [] && s.standing == Connected {
      hide Updated;
      UpdateKeepsRequests(s, datagrams[0], order);
      DispatchKeepsRequests(Updated(s, datagrams[0], order), datagrams[1..], order);
    }
  }

  /** The end of an operation takes it away, and no other. */
  lemma FinishTakesOne(s: State, request: Context, order: Ordering)
    requires request in s.pending
    ensures var t := Finished(s, request, order);
            && t.nextContext == s.nextContext && t.pending.Keys == s.pending.Keys - {request}
            && forall c | c in t.pending :: SameRequest(s.pending[c], t.pending[c])
  {
    hide AllEntered, Dispatched;
    var op := s.pending[request];
    SnapshotTaken(s, op.generates);
    var shown := Announced(AllEntered(s, op.generates), op);
    DispatchKeepsRequests(shown.(pending := shown.pending - {request}), op.datagrams, order);
  }

  // ----- One step -----

  /** Requests are numbered upwards, and none that is complete is still there. */
  ghost predicate Outstanding(s: State) {
    forall c | c in s.pending :: c < s.nextContext && !Ready(s.pending[c])
  }

  /** What an event tells about a request. */
  function Learned(op: Operation, e: Event, request: Context): Operation {
    match e
    case Receive(ZonesCount(r, count), _) => if r == request && op.total.None? then op.(total := Some(count)) else op
    case Receive(EnterInterest(r, d, at), _) => if r == request then op.(generates := op.generates + [Generate(d, at)]) else op
    case _ => op
  }

  predicate Ends(op: Operation, e: Event, request: Context) {
    (e.Timeout? && e.request == request) || Ready(Learned(op, e, request))
  }

  function Asking(s: State, id: InterestId, i: Interest, context: Context, caller: nat): Operation {
    Operation(id, context, i.parent, NewZones(s.interests, i), caller, None, [], [])
  }

  predicate IsOpening(e: Event) {
    e.Open? || (e.Receive? && e.datagram.AddInterest?)
  }

  /** The request that an opening makes, if it makes one: for the zones that no open
      interest sees. */
  function AskedBy(s: State, e: Event): Operation
    requires IsOpening(e)
  {
    match e
    case Open(id, i, context, _) => Asking(s, id, i, context, 0)
    case Receive(AddInterest(id, i, caller), _) => Asking(s, id, i, s.nextContext, caller)
  }

  /** A request that was made has ended, or has learned what the event tells. */
  ghost predicate Moves(s: State, e: Event, t: State) {
    && s.nextContext <= t.nextContext
    && (forall c | c in s.pending :: c in t.pending <==> !Ends(s.pending[c], e, c))
    && (forall c | c in s.pending && c in t.pending :: SameRequest(Learned(s.pending[c], e, c), t.pending[c]))
    && (forall c | c in t.pending && c !in s.pending :: s.nextContext <= c < t.nextContext && IsOpening(e) && t.pending[c] == AskedBy(s, e))
  }

  lemma KeepingMoves(s: State, e: Event, t: State)
    requires Outstanding(s) && KeepsRequests(s, t)
    requires e.Receive? && !e.datagram.EnterInterest? && !e.datagram.ZonesCount?
    ensures Moves(s, e, t)
  {
  }

  lemma KeptMoves(s: State, e: Event, t: State)
    requires Outstanding(s) && s.nextContext <= t.nextContext && t.pending == s.pending
    requires forall c | c in s.pending :: Learned(s.pending[c], e, c) == s.pending[c]
    requires e.Timeout? ==> e.request !in s.pending
    ensures Moves(s, e, t)
  {
  }

  lemma StepMoves(s: State, e: Event)
    requires Outstanding(s) && s.standing == Connected
    ensures Moves(s, e, Next(s, e))
  {
    hide Finished, Handled, Shut, Added, Permitted, Ready;
    match e {
      case Receive(g, order) => ReceiveMoves(s, g, order);
      case Open(_, _, _, _) => OpenMoves(s, e);
      case Shutting(id, context, order) => ShutMoves(s, e, id, context, order);
      case Timeout(r, order) =>
        if r in s.pending { FinishTakesOne(s, r, order); }
    }
  }

  lemma ClosedKeepsRequests(s: State, parent: Doid, zones: set<Zone>, order: Ordering)
    ensures var t := Closed(s, parent, zones, order);
            t.pending == s.pending && t.nextContext == s.nextContext && t.interests == s.interests
  {
    hide Closing, Leavings;
  }

  lemma DroppedKeepsRequests(s: State, id: InterestId, context: Context, caller: nat, order: Ordering)
    requires id in s.interests
    ensures var t := Dropped(s, id, context, caller, order);
            t.pending == s.pending && t.nextContext == s.nextContext
  {
    hide Closed, RemovedZones;
    ClosedKeepsRequests(s, s.interests[id].parent, RemovedZones(s.interests, id), order);
  }

  lemma AddedAsks(s: State, id: InterestId, i: Interest, context: Context, caller: nat, order: Ordering)
    requires s.nextContext !in s.pending
    ensures var t := Added(s, id, i, context, caller, order);
            || (t.pending == s.pending && t.nextContext == s.nextContext)
            || (t.pending == s.pending[s.nextContext := Asking(s, id, i, context, caller)] && t.nextContext == s.nextContext + 1)
  {
    hide AlteredZones, NewZones, Closed;
    if id in s.interests {
      ClosedKeepsRequests(s, s.interests[id].parent, AlteredZones(s.interests, id, i), order);
    }
  }

  lemma AskedMoves(s: State, e: Event, t: State, request: Context)
    requires Outstanding(s) && IsOpening(e) && s.nextContext <= request < t.nextContext
    requires t.pending == s.pending[request := AskedBy(s, e)]
    ensures Moves(s, e, t)
  {
  }

  lemma OpenMoves(s: State, e: Event)
    requires Outstanding(s) && s.standing == Connected && IsOpening(e)
    ensures Moves(s, e, Next(s, e))
  {
    hide Added, Permitted, Moves, NewZones, Ready;
    var t := Next(s, e);
    var said, id, i, context, caller :=
      if e.Open? then s else Say(s.(nextContext := s.nextContext + 1), InterestOpened(e.datagram.id, s.nextContext)),
      if e.Open? then e.id else e.datagram.id,
      if e.Open? then e.interest else e.datagram.interest,
      if e.Open? then e.context else s.nextContext,
      if e.Open? then 0 else e.datagram.caller;
    AddedAsks(said, id, i, context, caller, e.order);
    if t.pending == s.pending {
      KeptMoves(s, e, t);
    } else {
      AskedMoves(s, e, t, said.nextContext);
    }
  }

  lemma ShutMoves(s: State, e: Event, id: InterestId, context: Context, order: Ordering)
    requires Outstanding(s) && e.Shutting?
    ensures Moves(s, e, Shut(s, id, context, order))
  {
    hide Dropped, Permitted, Ready;
    if id in s.interests {
      DroppedKeepsRequests(s, id, context, 0, order);
    }
    KeptMoves(s, e, Shut(s, id, context, order));
  }

  lemma ReceiveMoves(s: State, g: Datagram, order: Ordering)
    requires Outstanding(s) && s.standing == Connected
    ensures Moves(s, Receive(g, order), Handled(s, g, order))
  {
    hide Finished, Added, Dropped, Updated, Ready, Moves, FinishedIfReady;
    var e, t := Receive(g, order), Handled(s, g, order);
    match g {
      case Update(u) =>
        UpdateKeepsRequests(s, u, order);
        KeepingMoves(s, e, t);
      case EnterInterest(r, d, at) =>
        if r in s.pending { LearningMoves(s, e, r, Expected(s, r, Generate(d, at)), order); } else { KeptMoves(s, e, t); }
      case ZonesCount(r, count) =>
        if r in s.pending { LearningMoves(s, e, r, Counted(s, r, count), order); } else { KeptMoves(s, e, t); }
      case AddInterest(_, _, _) => OpenMoves(s, e);
      case RemoveInterest(id, caller) =>
        var context := s.nextContext;
        if id in s.interests {
          DroppedKeepsRequests(Say(s.(nextContext := context + 1), InterestClosed(id, context)), id, context, caller, order);
        }
        KeptMoves(s, e, t);
      case _ => KeptMoves(s, e, t);
    }
  }

  lemma LearningMoves(s: State, e: Event, request: Context, learned: State, order: Ordering)
    requires Outstanding(s) && request in s.pending && !e.Timeout?
    requires learned.nextContext == s.nextContext && learned.pending == s.pending[request := Learned(s.pending[request], e, request)]
    requires forall c | c in s.pending && c != request :: Learned(s.pending[c], e, c) == s.pending[c]
    ensures Moves(s, e, FinishedIfReady(learned, request, order))
  {
    hide Finished, Ready, Learned, SameRequest, Moves;
    if Ready(learned.pending[request]) {
      FinishTakesOne(learned, request, order);
      EndingMoves(s, e, request, learned, Finished(learned, request, order));
    } else {
      NotYetMoves(s, e, request, learned);
    }
  }

  lemma EndingMoves(s: State, e: Event, request: Context, learned: State, t: State)
    requires Outstanding(s) && request in s.pending && !e.Timeout?
    requires learned.pending == s.pending[request := Learned(s.pending[request], e, request)] && Ready(learned.pending[request])
    requires forall c | c in s.pending && c != request :: Learned(s.pending[c], e, c) == s.pending[c]
    requires t.nextContext == s.nextContext && t.pending.Keys == learned.pending.Keys - {request}
    requires forall c | c in t.pending :: SameRequest(learned.pending[c], t.pending[c])
    ensures Moves(s, e, t)
  {
    hide Ready, Learned, SameRequest;
  }

  lemma NotYetMoves(s: State, e: Event, request: Context, t: State)
    requires Outstanding(s) && request in s.pending && !e.Timeout? && t.nextContext == s.nextContext
    requires t.pending == s.pending[request := Learned(s.pending[request], e, request)] && !Ready(t.pending[request])
    requires forall c | c in s.pending && c != request :: Learned(s.pending[c], e, c) == s.pending[c]
    ensures Moves(s, e, t)
  {
    hide Ready, Learned;
  }

  // ----- Whole runs -----

  lemma MovesKeep(s: State, e: Event, t: State)
    requires Outstanding(s) && Moves(s, e, t)
    ensures Outstanding(t)
  {
  }

  lemma {:induction false} RunKeepsOutstanding(s: State, events: seq<Event>)
    requires Outstanding(s)
    ensures Outstanding(After(s, events)) && s.nextContext <= After(s, events).nextContext
    decreases |events|
  {
    if events != [] {
      hide Next, Outstanding;
      var init, last := events[..|events|-1], events[|events|-1];
      RunKeepsOutstanding(s, init);
      var before := After(s, init);
      if before.standing == Connected {
        StepMoves(before, last);
        MovesKeep(before, last, Next(before, last));
      } else {
        StaysPut(before, last);
      }
    }
  }

  lemma StaysPut(s: State, e: Event)
    requires s.standing != Connected
    ensures Next(s, e) == s
  {
  }

  /** What a request that was just made has learned from the events since. */
  function Now(op: Operation, events: seq<Event>, request: Context): Operation {
    op.(total := CountHeard(events, request), generates := EntriesHeard(events, request))
  }

  lemma OneMoreHeard(op: Operation, events: seq<Event>, request: Context)
    requires events != []
    ensures var init, last := events[..|events|-1], events[|events|-1];
            && SameRequest(Now(op, events, request), Learned(Now(op, init, request), last, request))
            && (Over(events, request) <==> Over(init, request) || Ends(Now(op, init, request), last, request))
  {
    var init, last := events[..|events|-1], events[|events|-1];
    assert EntriesHeard(init, request) + [] == EntriesHeard(init, request);
    assert forall e :: e in events <==> e in init || e == last;
  }

  lemma LearnsAlike(a: Operation, b: Operation, e: Event, request: Context)
    requires SameRequest(a, b)
    ensures SameRequest(Learned(a, e, request), Learned(b, e, request)) && (Ends(a, e, request) <==> Ends(b, e, request))
  {
  }

  lemma SameThrice(a: Operation, b: Operation, c: Operation, d: Operation)
    requires SameRequest(a, b) && SameRequest(b, c) && SameRequest(c, d)
    ensures SameRequest(a, d)
  {
  }

  /** A request that was just made is there until it is over. */
  lemma {:induction false} RequestLasts(s: State, events: seq<Event>, request: Context)
    requires Outstanding(s) && request in s.pending
    requires s.pending[request].total.None? && s.pending[request].generates == []
    ensures var t := After(s, events);
            t.standing == Connected ==>
              && (request in t.pending <==> !Over(events, request))
              && (request in t.pending ==> SameRequest(Now(s.pending[request], events, request), t.pending[request]))
    decreases |events|
  {
    if events != [] && After(s, events).standing == Connected {
      hide Next, Over, Now, Ends, Learned, SameRequest, Ready;
      var op, init, last := s.pending[request], events[..|events|-1], events[|events|-1];
      var before := After(s, init);
      RequestLasts(s, init, request);
      RunKeepsOutstanding(s, init);
      if before.standing != Connected { StaysPut(before, last); }
      StepMoves(before, last);
      OneMoreHeard(op, events, request);
      if request in before.pending {
        var now, kept := Now(op, init, request), before.pending[request];
        LearnsAlike(now, kept, last, request);
        if request in After(s, events).pending {
          SameThrice(Now(op, events, request), Learned(now, last, request), Learned(kept, last, request), After(s, events).pending[request]);
        }
      }
    }
  }

  lemma {:induction false} AfterConcat(s: State, a: seq<Event>, b: seq<Event>)
    ensures After(s, a + b) == After(After(s, a), b)
    decreases |b|
  {
    hide Next;
    if b == [] {
      assert a + b == a;
    } else {
      assert (a + b)[..|a + b|-1] == a + b[..|b|-1];
      AfterConcat(s, a, b[..|b|-1]);
    }
  }

  /** In a connected run, a request made by some event is there until as many objects have
      been announced for it as were counted, or its time is up, and no longer. */
  lemma RequestEndsExactly(uberdogs: set<Doid>, permission: Permission, before: seq<Event>, asking: Event, events: seq<Event>, request: Context)
    requires request !in After(Fresh(uberdogs, permission), before).pending
    requires request in After(Fresh(uberdogs, permission), before + [asking]).pending
    ensures var t := After(Fresh(uberdogs, permission), before + [asking] + events);
            t.standing == Connected ==> (request in t.pending <==> !Over(events, request))
  {
    hide Next, Over, CountHeard, EntriesHeard;
    var s0 := Fresh(uberdogs, permission);
    var s := After(s0, before + [asking]);
    RequestIsNew(uberdogs, permission, before, asking, request);
    AfterConcat(s0, before + [asking], events);
    RequestLasts(s, events, request);
  }

  lemma RequestIsNew(uberdogs: set<Doid>, permission: Permission, before: seq<Event>, asking: Event, request: Context)
    requires request !in After(Fresh(uberdogs, permission), before).pending
    requires request in After(Fresh(uberdogs, permission), before + [asking]).pending
    ensures var s, t := After(Fresh(uberdogs, permission), before), After(Fresh(uberdogs, permission), before + [asking]);
            && s.standing == Connected && Outstanding(t)
            && IsOpening(asking) && t.pending[request] == AskedBy(s, asking)
  {
    hide Next, Moves, AskedBy;
    var s0 := Fresh(uberdogs, permission);
    var s := After(s0, before);
    AfterOne(s0, asking, before);
    RunKeepsOutstanding(s0, before);
    if s.standing != Connected { StaysPut(s, asking); }
    StepMoves(s, asking);
    MovesKeep(s, asking, Next(s, asking));
    NewIsAsked(s, asking, Next(s, asking), request);
  }

  lemma NewIsAsked(s: State, e: Event, t: State, request: Context)
    requires Moves(s, e, t) && request in t.pending && request !in s.pending
    ensures IsOpening(e) && t.pending[request] == AskedBy(s, e)
  {
  }

  /** The event with which a request is over tells the client that its interest is done;
      by then each object announced for it has been shown, or is its own session object.
      There are as many of them as were counted, unless the time was up. */
  lemma AllArePresented(uberdogs: set<Doid>, permission: Permission, before: seq<Event>, asking: Event, events: seq<Event>, last: Event, request: Context)
    requires request !in After(Fresh(uberdogs, permission), before).pending
    requires request in After(Fresh(uberdogs, permission), before + [asking]).pending
    requires After(Fresh(uberdogs, permission), before + [asking] + events).standing == Connected
    requires !Over(events, request) && Over(events + [last], request)
    ensures var s0, s, t :=
              After(Fresh(uberdogs, permission), before),
              After(Fresh(uberdogs, permission), before + [asking] + events),
              After(Fresh(uberdogs, permission), before + [asking] + events + [last]);
            var entries := EntriesHeard(events + [last], request);
            && IsOpening(asking)
            && (last.Timeout? || |entries| >= CountHeard(events + [last], request).value)
            && exists n ::
                 && |s.outbox| <= n < |t.outbox|
                 && t.outbox[n] == InterestDone(AskedBy(s0, asking).id, AskedBy(s0, asking).context)
                 && forall g | g in entries :: Presented(s, t.outbox[..n], g.d)
  {
    hide Over, Next;
    var start := Fresh(uberdogs, permission);
    var s1, s := After(start, before + [asking]), After(start, before + [asking] + events);
    RequestIsNew(uberdogs, permission, before, asking, request);
    AfterConcat(start, before + [asking], events);
    AfterOne(start, last, before + [asking] + events);
    RequestLasts(s1, events, request);
    RunKeepsOutstanding(s1, events);
    RunViews(uberdogs, permission, before + [asking] + events);
    var op := s1.pending[request];
    assert (events + [last])[..|events|] == events;
    OneMoreHeard(op, events + [last], request);
    LearnsAlike(Now(op, events, request), s.pending[request], last, request);
    EndingPresents(s, last, request);
  }

  /** The same of one step. */
  lemma EndingPresents(s: State, e: Event, request: Context)
    requires Outstanding(s) && s.standing == Connected && ViewsAgree(s)
    requires request in s.pending && Ends(s.pending[request], e, request)
    ensures var op := Learned(s.pending[request], e, request);
            var outbox := Next(s, e).outbox;
            exists n ::
              && |s.outbox| <= n < |outbox|
              && outbox[n] == InterestDone(op.id, op.context)
              && forall k | 0 <= k < |op.generates| :: Presented(s, outbox[..n], op.generates[k].d)
  {
    hide Finished, Ready, ViewsAgree, Presented;
    match e
    case Timeout(_, order) =>
      SnapshotBeforeDone(s, request, order);
    case Receive(EnterInterest(r, d, at), order) =>
      if r == request { FinishingPresents(s, Expected(s, request, Generate(d, at)), request, order); }
    case Receive(ZonesCount(r, count), order) =>
      if r == request { FinishingPresents(s, Counted(s, request, count), request, order); }
    case _ =>
  }

  lemma FinishingPresents(s: State, learned: State, request: Context, order: Ordering)
    requires ViewsAgree(s) && request in learned.pending
    requires learned.outbox == s.outbox && learned.seen == s.seen && learned.visible == s.visible
    requires learned.owned == s.owned && learned.session == s.session
    ensures var op, outbox := learned.pending[request], Finished(learned, request, order).outbox;
            exists n ::
              && |s.outbox| <= n < |outbox|
              && outbox[n] == InterestDone(op.id, op.context)
              && forall k | 0 <= k < |op.generates| :: Presented(s, outbox[..n], op.generates[k].d)
  {
    hide Finished, ViewAgrees;
    Unseen(s, learned, []);
    SnapshotBeforeDone(learned, request, order);
    var op, outbox := learned.pending[request], Finished(learned, request, order).outbox;
    var n :| |s.outbox| <= n < |outbox| && outbox[n] == InterestDone(op.id, op.context)
      && forall k | 0 <= k < |op.generates| :: Presented(learned, outbox[..n], op.generates[k].d);
    forall k | 0 <= k < |op.generates| ensures Presented(s, outbox[..n], op.generates[k].d) {
      assert Presented(learned, outbox[..n], op.generates[k].d);
    }
  }

  // ----- What a request asks for -----

  /** A request made by this step asks about a location. */
  ghost predicate AsksAbout(s: State, t: State, request: Context, at: Location)
    requires |s.outbox| <= |t.outbox|
  {
    && request in t.pending && request !in s.pending
    && var op := t.pending[request];
       InZones(at, op.parent, op.zones) && GetZonesObjects(request, op.parent, op.zones) in t.outbox[|s.outbox|..]
  }

  lemma AddedAsksFor(s: State, id: InterestId, i: Interest, context: Context, caller: nat, order: Ordering)
    requires Outstanding(s) && Added(s, id, i, context, caller, order).standing == Connected
    ensures var t, zones := Added(s, id, i, context, caller, order), NewZones(s.interests, i);
            && s.outbox <= t.outbox && t.interests == s.interests[id := i]
            && (zones == {} ==> t.pending == s.pending)
            && (zones != {} ==>
                  && t.pending == s.pending[s.nextContext := Asking(s, id, i, context, caller)]
                  && GetZonesObjects(s.nextContext, i.parent, zones) in t.outbox[|s.outbox|..])
  {
    hide Closed, NewZones, AlteredZones, Weight, DoneAtOnce, Requested;
    var closed := if id in s.interests then Closed(s, s.interests[id].parent, AlteredZones(s.interests, id, i), order) else s;
    if id in s.interests {
      ClosedKeepsRequests(s, s.interests[id].parent, AlteredZones(s.interests, id, i), order);
      ClosedAddsQuietly(s, s.interests[id].parent, AlteredZones(s.interests, id, i), order);
    }
    var altered, zones := closed.(interests := closed.interests[id := i]), NewZones(s.interests, i);
    DoneSays(altered, id, context, caller);
    RequestedSays(altered, id, i, zones, context, caller);
    if zones != {} {
      LastIsNew(s.outbox, altered.outbox, GetZonesObjects(s.nextContext, i.parent, zones));
    }
  }

  lemma DoneSays(s: State, id: InterestId, context: Context, caller: nat)
    ensures var t := DoneAtOnce(s, id, context, caller);
            s.outbox <= t.outbox && t.interests == s.interests && t.pending == s.pending
  {
  }

  lemma RequestedSays(s: State, id: InterestId, i: Interest, zones: set<Zone>, context: Context, caller: nat)
    requires s.nextContext !in s.pending
    ensures var t := Requested(s, id, i, zones, context, caller);
            && t.outbox == s.outbox + [GetZonesObjects(s.nextContext, i.parent, zones)] && t.interests == s.interests
            && t.pending == s.pending[s.nextContext := Operation(id, context, i.parent, zones, caller, None, [], [])]
  {
  }

  lemma LastIsNew(a: seq<Sent>, b: seq<Sent>, m: Sent)
    requires a <= b
    ensures m in (b + [m])[|a|..]
  {
    assert (b + [m])[|a|..][|b| - |a|] == m;
  }

  /** Opening an interest asks about exactly the locations that come into view with it. */
  lemma NewZonesAreAskedFor(uberdogs: set<Doid>, permission: Permission, events: seq<Event>, e: Event, at: Location)
    requires After(Fresh(uberdogs, permission), events).standing == Connected
    requires IsOpening(e) && Next(After(Fresh(uberdogs, permission), events), e).standing == Connected
    ensures var s := After(Fresh(uberdogs, permission), events);
            var t := Next(s, e);
            && |s.outbox| <= |t.outbox|
            && ((exists request :: AsksAbout(s, t, request, at)) <==> InView(t.interests, at) && !InView(s.interests, at))
  {
    hide After, Added, InView, Holders, NewZones, Permitted, AsksAbout;
    var s := After(Fresh(uberdogs, permission), events);
    var t := Next(s, e);
    FreshIsOutstanding(uberdogs, permission);
    RunKeepsOutstanding(Fresh(uberdogs, permission), events);
    var said := if e.Open? then s else Say(s.(nextContext := s.nextContext + 1), InterestOpened(e.datagram.id, s.nextContext));
    var id, i := if e.Open? then e.id else e.datagram.id, if e.Open? then e.interest else e.datagram.interest;
    var context, caller := if e.Open? then e.context else s.nextContext, if e.Open? then 0 else e.datagram.caller;
    AddedAsksFor(said, id, i, context, caller, e.order);
    AddedAsksAbout(said, id, i, context, caller, e.order, at);
    forall request ensures AsksAbout(s, t, request, at) <==> AsksAbout(said, t, request, at) {
      SaidFirst(s, said, t, request, at);
    }
    InViewMeansHeld(s.interests, at);
    InViewMeansHeld(t.interests, at);
    HoldersAfterOpening(s.interests, id, i, at);
    NewZonesMeaning(s.interests, i, at);
  }

  lemma AddedAsksAbout(s: State, id: InterestId, i: Interest, context: Context, caller: nat, order: Ordering, at: Location)
    requires Outstanding(s) && Added(s, id, i, context, caller, order).standing == Connected
    ensures var t := Added(s, id, i, context, caller, order);
            && |s.outbox| <= |t.outbox|
            && ((exists request :: AsksAbout(s, t, request, at)) <==> at in Locations(i.parent, NewZones(s.interests, i)))
  {
    hide Added, NewZones;
    AddedAsksFor(s, id, i, context, caller, order);
    var t, zones := Added(s, id, i, context, caller, order), NewZones(s.interests, i);
    assert at in Locations(i.parent, zones) <==> InZones(at, i.parent, zones);
    if zones != {} && InZones(at, i.parent, zones) {
      assert AsksAbout(s, t, s.nextContext, at);
    }
  }

  /** What is said before the request is made is no question. */
  lemma SaidFirst(s: State, said: State, t: State, request: Context, at: Location)
    requires said.pending == s.pending && said.outbox <= t.outbox
    requires said.outbox == s.outbox || exists m: Sent :: !m.GetZonesObjects? && said.outbox == s.outbox + [m]
    ensures AsksAbout(s, t, request, at) <==> AsksAbout(said, t, request, at)
  {
    if said.outbox != s.outbox {
      var m :| said.outbox == s.outbox + [m];
      assert t.outbox[|s.outbox|..] == [m] + t.outbox[|said.outbox|..];
    }
  }

  // ----- Holding back only delays -----

  lemma {:induction false} DispatchedMore(s: State, datagrams: seq<ObjectUpdate>, u: ObjectUpdate, order: Ordering)
    requires Dispatched(s, datagrams, order).standing == Connected
    ensures s.standing == Connected
    ensures Dispatched(s, datagrams + [u], order) == Updated(Dispatched(s, datagrams, order), u, order)
    decreases |datagrams|
  {
    hide Updated;
    if datagrams == [] {
      assert [u][0] == u && [u][1..] == [];
    } else {
      assert (datagrams + [u])[1..] == datagrams[1..] + [u];
      DispatchedMore(Updated(s, datagrams[0], order), datagrams[1..], u, order);
    }
  }

  /** A datagram about a waiting object that is held back until the request ends is handled
      as if it had come right after the end. */
  lemma HoldingBackDelays(s: State, u: ObjectUpdate, order: Ordering, ending: Ordering)
    requires s.standing == Connected && !u.EnterLocation? && (u.ChangingLocation? || !Knows(s, u.d))
    requires u.d in s.pendingObjects && s.pendingObjects[u.d] in s.pending
    requires Finished(s, s.pendingObjects[u.d], ending).standing == Connected
    ensures var end, here := Timeout(s.pendingObjects[u.d], ending), Receive(Update(u), order);
            && Next(s, here).outbox == s.outbox
            && Next(Next(s, here), end) == Next(Next(s, end), Receive(Update(u), ending))
  {
    hide AllEntered, Dispatched, Knows, ChangedLocation, Deleted;
    var request := s.pendingObjects[u.d];
    var op, held := s.pending[request], HeldBack(s, request, u);
    var t := Next(s, Receive(Update(u), order));
    assert t == held;
    SnapshotIgnoresPending(s, held.pending, op.generates);
    var left := LeftOver(s, request);
    assert LeftOver(held, request) == left by {
      assert held.pending - {request} == s.pending - {request};
    }
    DispatchedMore(left, op.datagrams, u, ending);
  }

  /** What is left when the snapshot has been shown and the request is gone. */
  function LeftOver(s: State, request: Context): State
    requires request in s.pending
  {
    var op := s.pending[request];
    var shown := Announced(AllEntered(s, op.generates), op);
    shown.(pending := shown.pending - {request})
  }

  lemma {:induction false} SnapshotIgnoresPending(s: State, pending: map<Context, Operation>, generates: seq<Generate>)
    ensures AllEntered(s.(pending := pending), generates) == AllEntered(s, generates).(pending := pending)
    ensures AllEntered(s, generates).pending == s.pending
    decreases |generates|
  {
    if generates != [] {
      SnapshotIgnoresPending(s, pending, generates[..|generates|-1]);
    }
  }

  // ----- One news of completion for each opening and closing -----

  /** News that an interest is done, less the openings and closings the client was told of. */
  function Owed(outbox: seq<Sent>): int {
    if outbox == [] then 0
    else Owed(outbox[..|outbox|-1]) + Weight(outbox[|outbox|-1])
  }

  function Weight(m: Sent): int {
    match m
    case InterestDone(_, _) => 1
    case InterestOpened(_, _) => -1
    case InterestClosed(_, _) => -1
    case _ => 0
  }

  /** The openings and closings that the client asked for itself. */
  function OwnRequests(events: seq<Event>): nat {
    if events == [] then 0
    else
      var last := events[|events|-1];
      OwnRequests(events[..|events|-1]) + if last.Open? || last.Shutting? then 1 else 0
  }

  ghost predicate AddsQuietly(s: State, t: State) {
    s.outbox <= t.outbox && forall k | |s.outbox| <= k < |t.outbox| :: Weight(t.outbox[k]) == 0
  }

  lemma {:induction false} QuietlyOwesNothing(a: seq<Sent>, b: seq<Sent>)
    requires a <= b && forall k | |a| <= k < |b| :: Weight(b[k]) == 0
    ensures Owed(b) == Owed(a)
    decreases |b|
  {
    if |a| < |b| {
      QuietlyOwesNothing(a, b[..|b|-1]);
    } else {
      assert a == b;
    }
  }

  lemma OwedMore(outbox: seq<Sent>, m: Sent)
    ensures Owed(outbox + [m]) == Owed(outbox) + Weight(m)
  {
    assert (outbox + [m])[..|outbox|] == outbox;
  }

  lemma UpdateAddsQuietly(s: State, u: ObjectUpdate, order: Ordering)
    ensures AddsQuietly(s, Updated(s, u, order))
  {
    hide FirstCovering, Knows, ChangedLocation, Deleted, Entered;
    match u {
      case EnterLocation(d, at) => EnteredAddsQuietly(s, d, at);
      case ChangingLocation(d, at) => MoveAddsQuietly(s, d, at);
      case DeleteRam(d) => DeleteAddsQuietly(s, d);
      case SetField(_) =>
    }
  }

  lemma EnteredAddsQuietly(s: State, d: Doid, at: Location)
    ensures AddsQuietly(s, Entered(s, d, at))
  {
  }

  lemma MoveAddsQuietly(s: State, d: Doid, at: Location)
    ensures AddsQuietly(s, ChangedLocation(s, d, at))
  {
    hide Holders, Relocated;
    RelocatedAlone(s, d, at);
  }

  lemma DeleteAddsQuietly(s: State, d: Doid)
    ensures AddsQuietly(s, Deleted(s, d))
  {
  }

  lemma {:induction false} DispatchAddsQuietly(s: State, datagrams: seq<ObjectUpdate>, order: Ordering)
    ensures AddsQuietly(s, Dispatched(s, datagrams, order))
    decreases |datagrams|
  {
    if datagrams != [] && s.standing == Connected {
      hide Updated, Weight;
      var t := Updated(s, datagrams[0], order);
      UpdateAddsQuietly(s, datagrams[0], order);
      DispatchAddsQuietly(t, datagrams[1..], order);
      var u := Dispatched(t, datagrams[1..], order);
      assert forall k | |s.outbox| <= k < |t.outbox| :: u.outbox[k] == t.outbox[k];
    }
  }

  lemma {:induction false} SnapshotAddsQuietly(s: State, generates: seq<Generate>)
    ensures AddsQuietly(s, AllEntered(s, generates))
    decreases |generates|
  {
    if generates != [] {
      SnapshotAddsQuietly(s, generates[..|generates|-1]);
    }
  }

  lemma ClosedAddsQuietly(s: State, parent: Doid, zones: set<Zone>, order: Ordering)
    ensures AddsQuietly(s, Closed(s, parent, zones, order))
  {
    hide Closing;
  }

  lemma FinishIsNews(s: State, request: Context, order: Ordering)
    requires request in s.pending
    ensures Owed(Finished(s, request, order).outbox) == Owed(s.outbox) + 1
  {
    hide AllEntered, Dispatched, Owed;
    var op := s.pending[request];
    var entered := AllEntered(s, op.generates);
    var shown := Announced(entered, op);
    SnapshotAddsQuietly(s, op.generates);
    QuietlyOwesNothing(s.outbox, entered.outbox);
    OwedMore(entered.outbox, NotifyCaller(op.caller, op.id));
    OwedMore(entered.outbox + [NotifyCaller(op.caller, op.id)], InterestDone(op.id, op.context));
    assert shown.outbox == entered.outbox + [NotifyCaller(op.caller, op.id)] + [InterestDone(op.id, op.context)];
    var left := shown.(pending := shown.pending - {request});
    DispatchAddsQuietly(left, op.datagrams, order);
    QuietlyOwesNothing(left.outbox, Dispatched(left, op.datagrams, order).outbox);
  }

  lemma DoneIsNews(s: State, id: InterestId, context: Context, caller: nat)
    ensures Owed(DoneAtOnce(s, id, context, caller).outbox) == Owed(s.outbox) + 1
  {
    hide Owed;
    OwedMore(s.outbox, NotifyCaller(caller, id));
    OwedMore(s.outbox + Notified(caller, id), InterestDone(id, context));
    assert s.outbox + [] == s.outbox;
  }

  /** What is owed to the client, and how many requests are on their way. */
  function Balance(s: State): int {
    Owed(s.outbox) + |s.pending|
  }

  lemma AddedBalances(s: State, id: InterestId, i: Interest, context: Context, caller: nat, order: Ordering)
    requires s.nextContext !in s.pending
    ensures var t := Added(s, id, i, context, caller, order);
            t.standing == Connected ==> Balance(t) == Balance(s) + 1
  {
    hide Closed, NewZones, AlteredZones, Owed;
    var closed := if id in s.interests then Closed(s, s.interests[id].parent, AlteredZones(s.interests, id, i), order) else s;
    if id in s.interests {
      ClosedKeepsRequests(s, s.interests[id].parent, AlteredZones(s.interests, id, i), order);
      ClosedAddsQuietly(s, s.interests[id].parent, AlteredZones(s.interests, id, i), order);
    }
    QuietlyOwesNothing(s.outbox, closed.outbox);
    var altered := closed.(interests := closed.interests[id := i]);
    DoneIsNews(altered, id, context, caller);
    OwedMore(altered.outbox, GetZonesObjects(s.nextContext, i.parent, NewZones(s.interests, i)));
    assert |s.pending[s.nextContext := Asking(s, id, i, context, caller)]| == |s.pending| + 1;
  }

  lemma DroppedBalances(s: State, id: InterestId, context: Context, caller: nat, order: Ordering)
    requires id in s.interests
    ensures var t := Dropped(s, id, context, caller, order);
            t.standing == Connected ==> Balance(t) == Balance(s) + 1
  {
    hide Closed, RemovedZones, Owed;
    var closed := Closed(s, s.interests[id].parent, RemovedZones(s.interests, id), order);
    ClosedKeepsRequests(s, s.interests[id].parent, RemovedZones(s.interests, id), order);
    ClosedAddsQuietly(s, s.interests[id].parent, RemovedZones(s.interests, id), order);
    QuietlyOwesNothing(s.outbox, closed.outbox);
    DoneIsNews(closed, id, context, caller);
  }

  lemma FinishBalances(s: State, request: Context, order: Ordering)
    requires request in s.pending
    ensures Balance(Finished(s, request, order)) == Balance(s)
  {
    hide Finished, Owed;
    FinishTakesOne(s, request, order);
    FinishIsNews(s, request, order);
    SameCount(Finished(s, request, order).pending, s.pending, request);
  }

  lemma SameCount<T>(less: map<Context, T>, more: map<Context, T>, c: Context)
    requires c in more && less.Keys == more.Keys - {c}
    ensures |less| == |more| - 1
  {
    assert |more.Keys - {c}| == |more.Keys| - 1;
  }

  lemma StepBalances(s: State, e: Event)
    requires Outstanding(s) && s.standing == Connected
    ensures Next(s, e).standing == Connected ==>
              Balance(Next(s, e)) == Balance(s) + if e.Open? || e.Shutting? then 1 else 0
  {
    hide Finished, Handled, Added, Dropped, Permitted, Balance;
    match e {
      case Receive(g, order) => ReceiveBalances(s, g, order);
      case Open(id, i, context, order) => AddedBalances(s, id, i, context, 0, order);
      case Shutting(id, context, order) =>
        if id in s.interests { DroppedBalances(s, id, context, 0, order); }
      case Timeout(r, order) =>
        if r in s.pending { FinishBalances(s, r, order); }
    }
  }

  lemma SameRequestsBalance(s: State, t: State)
    requires Owed(t.outbox) == Owed(s.outbox) && t.pending.Keys == s.pending.Keys
    ensures Balance(t) == Balance(s)
  {
    assert |t.pending.Keys| == |s.pending.Keys|;
  }

  /** The client is told of an opening or closing before it is carried out. */
  lemma ToldBalances(s: State, g: Datagram, order: Ordering)
    requires Outstanding(s) && s.standing == Connected && (g.AddInterest? || g.RemoveInterest?)
    ensures Handled(s, g, order).standing == Connected ==> Balance(Handled(s, g, order)) == Balance(s)
  {
    hide Added, Dropped, Owed;
    var context := s.nextContext;
    var news := if g.AddInterest? then InterestOpened(g.id, context) else InterestClosed(g.id, context);
    var said := Say(s.(nextContext := context + 1), news);
    OwedMore(s.outbox, news);
    if g.AddInterest? {
      AddedBalances(said, g.id, g.interest, context, g.caller, order);
    } else if g.id in s.interests {
      DroppedBalances(said, g.id, context, g.caller, order);
    }
  }

  lemma ReceiveBalances(s: State, g: Datagram, order: Ordering)
    requires Outstanding(s) && s.standing == Connected
    ensures Handled(s, g, order).standing == Connected ==> Balance(Handled(s, g, order)) == Balance(s)
  {
    hide Finished, Added, Dropped, Updated, Ready, Owed;
    match g {
      case Update(u) =>
        UpdateAddsQuietly(s, u, order);
        QuietlyOwesNothing(s.outbox, Updated(s, u, order).outbox);
        UpdateKeepsRequests(s, u, order);
        SameRequestsBalance(s, Updated(s, u, order));
      case EnterInterest(r, d, at) =>
        if r in s.pending {
          FinishBalances(Expected(s, r, Generate(d, at)), r, order);
          SameRequestsBalance(s, Expected(s, r, Generate(d, at)));
        }
      case ZonesCount(r, count) =>
        if r in s.pending {
          FinishBalances(Counted(s, r, count), r, order);
          SameRequestsBalance(s, Counted(s, r, count));
        }
      case AddInterest(_, _, _) => ToldBalances(s, g, order);
      case RemoveInterest(_, _) => ToldBalances(s, g, order);
      case EnterOwner(d, at) => OwedMore(s.outbox, EnterAsOwner(d, at));
      case ChangingOwner(d, _) => OwedMore(s.outbox, LeavingAsOwner(d));
      case _ =>
    }
  }

  /** While the client is connected, each opening or closing of an interest, asked for by
      the client or told to it, has been answered with one news of completion, or its
      request is still on its way. No news is sent twice or without cause. */
  lemma {:induction false} EachIsAnsweredOnce(uberdogs: set<Doid>, permission: Permission, events: seq<Event>)
    ensures var s := After(Fresh(uberdogs, permission), events);
            s.standing == Connected ==> Owed(s.outbox) + |s.pending| == OwnRequests(events)
    decreases |events|
  {
    if events != [] {
      hide Next, Outstanding;
      var init, last := events[..|events|-1], events[|events|-1];
      var before := After(Fresh(uberdogs, permission), init);
      EachIsAnsweredOnce(uberdogs, permission, init);
      FreshIsOutstanding(uberdogs, permission);
      RunKeepsOutstanding(Fresh(uberdogs, permission), init);
      if before.standing == Connected { StepBalances(before, last); } else { StaysPut(before, last); }
    }
  }

  lemma FreshIsOutstanding(uberdogs: set<Doid>, permission: Permission)
    ensures Outstanding(Fresh(uberdogs, permission))
  {
  }
}
