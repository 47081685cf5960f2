/** What holds after every sequence of datagrams, requests and timeouts: the client listens
    exactly where its interests are, and objects enter and leave its view in turns. */
module ClientRuns {
  import opened ClientInterests

  // ----- Listening exactly where the interests are -----

  ghost predicate ListensToInterests(s: State) {
    forall at :: at in s.locations <==> Holders(s.interests, at) != {}
  }

  lemma SoleHolder(interests: map<InterestId, Interest>, id: InterestId, at: Location)
    requires id in interests && InterestCovers(interests[id], at)
    ensures id in Holders(interests, at)
    ensures |Holders(interests, at)| <= 1 <==> Holders(interests, at) == {id}
  {
    var others := Holders(interests, at) - {id};
    assert Holders(interests, at) == others + {id};
    assert others == {} <==> |others| == 0;
  }

  lemma HoldersAfterOpening(interests: map<InterestId, Interest>, id: InterestId, i: Interest, at: Location)
    ensures Holders(interests[id := i], at)
         == Holders(interests, at) - {id} + if InterestCovers(i, at) then {id} else {}
  {
  }

  lemma HoldersAfterClosing(interests: map<InterestId, Interest>, id: InterestId, at: Location)
    ensures Holders(interests - {id}, at) == Holders(interests, at) - {id}
  {
  }

  /** The zones closed are those that were seen through this interest only. */
  lemma AlteredZonesMeaning(interests: map<InterestId, Interest>, id: InterestId, i: Interest, at: Location)
    requires id in interests
    ensures at in Locations(interests[id].parent, AlteredZones(interests, id, i))
       <==> Holders(interests, at) == {id} && Holders(interests[id := i], at) == {}
  {
    HoldersAfterOpening(interests, id, i, at);
    if InterestCovers(interests[id], at) {
      SoleHolder(interests, id, at);
    } else {
      assert id !in Holders(interests, at);
    }
  }

  lemma RemovedZonesMeaning(interests: map<InterestId, Interest>, id: InterestId, at: Location)
    requires id in interests
    ensures at in Locations(interests[id].parent, RemovedZones(interests, id))
       <==> Holders(interests, at) != {} && Holders(interests - {id}, at) == {}
  {
    HoldersAfterClosing(interests, id, at);
    if InterestCovers(interests[id], at) {
      SoleHolder(interests, id, at);
    } else {
      assert id !in Holders(interests, at);
    }
  }

  lemma NewZonesMeaning(interests: map<InterestId, Interest>, i: Interest, at: Location)
    ensures at in Locations(i.parent, NewZones(interests, i)) <==> InterestCovers(i, at) && Holders(interests, at) == {}
  {
  }

  /** An interest opened or altered changes what the client listens to into what the
      interests cover then; what it can no longer see leaves its view, and only that. */
  lemma AddedListens(s: State, id: InterestId, i: Interest, context: Context, caller: nat, order: Ordering)
    requires ListensToInterests(s) && Added(s, id, i, context, caller, order).standing == Connected
    ensures ListensToInterests(Added(s, id, i, context, caller, order))
    ensures Added(s, id, i, context, caller, order).interests == s.interests[id := i]
  {
    hide Holders, NewZones, AlteredZones, InterestCovers, Locations;
    var t := Added(s, id, i, context, caller, order);
    AddedLocations(s, id, i, context, caller, order);
    forall at ensures at in t.locations <==> Holders(s.interests[id := i], at) != {} {
      HoldersAfterOpening(s.interests, id, i, at);
      NewZonesMeaning(s.interests, i, at);
      if id in s.interests { AlteredZonesMeaning(s.interests, id, i, at); }
      else { Unheld(s.interests, id, at); }
    }
  }

  lemma AddedLocations(s: State, id: InterestId, i: Interest, context: Context, caller: nat, order: Ordering)
    requires Added(s, id, i, context, caller, order).standing == Connected
    ensures var t := Added(s, id, i, context, caller, order);
            && t.interests == s.interests[id := i]
            && forall at :: at in t.locations <==>
                 || at in Locations(i.parent, NewZones(s.interests, i))
                 || (at in s.locations && !(id in s.interests && at in Locations(s.interests[id].parent, AlteredZones(s.interests, id, i))))
  {
    hide NewZones, AlteredZones, Closing;
    if NewZones(s.interests, i) == {} { assert Locations(i.parent, NewZones(s.interests, i)) == {}; }
  }

  lemma Unheld(interests: map<InterestId, Interest>, id: InterestId, at: Location)
    requires id !in interests
    ensures id !in Holders(interests, at)
  {
  }

  lemma DroppedListens(s: State, id: InterestId, context: Context, caller: nat, order: Ordering)
    requires id in s.interests && ListensToInterests(s) && Dropped(s, id, context, caller, order).standing == Connected
    ensures ListensToInterests(Dropped(s, id, context, caller, order))
    ensures Dropped(s, id, context, caller, order).interests == s.interests - {id}
  {
    hide Holders, RemovedZones;
    forall at ensures at in Dropped(s, id, context, caller, order).locations <==> Holders(s.interests - {id}, at) != {} {
      RemovedZonesMeaning(s.interests, id, at);
      HoldersAfterClosing(s.interests, id, at);
    }
  }

  predicate SameInterests(s: State, t: State) {
    s.interests == t.interests && s.locations == t.locations
  }

  lemma {:induction false} EnteredKeepsInterests(s: State, generates: seq<Generate>)
    ensures SameInterests(s, AllEntered(s, generates))
    decreases |generates|
  {
    if generates != [] {
      EnteredKeepsInterests(s, generates[..|generates|-1]);
    }
  }

  lemma UpdateKeepsInterests(s: State, u: ObjectUpdate, order: Ordering)
    ensures SameInterests(s, Updated(s, u, order))
  {
    hide FirstCovering, Knows, ChangedLocation, Deleted;
    match u {
      case ChangingLocation(d, at) => MoveOnlyAdds(s, d, at);
      case DeleteRam(d) => DeleteOnlyAdds(s, d);
      case _ =>
    }
  }

  lemma {:induction false} DispatchKeepsInterests(s: State, datagrams: seq<ObjectUpdate>, order: Ordering)
    ensures SameInterests(s, Dispatched(s, datagrams, order))
    decreases |datagrams|
  {
    if datagrams != [] && s.standing == Connected {
      hide Updated;
      UpdateKeepsInterests(s, datagrams[0], order);
      DispatchKeepsInterests(Updated(s, datagrams[0], order), datagrams[1..], order);
    }
  }

  lemma FinishKeepsInterests(s: State, request: Context, order: Ordering)
    requires request in s.pending
    ensures SameInterests(s, Finished(s, request, order))
  {
    hide AllEntered, Dispatched;
    var op := s.pending[request];
    EnteredKeepsInterests(s, op.generates);
    var shown := Announced(AllEntered(s, op.generates), op);
    DispatchKeepsInterests(shown.(pending := shown.pending - {request}), op.datagrams, order);
  }

  lemma StepListens(s: State, e: Event)
    requires ListensToInterests(s) && Next(s, e).standing == Connected
    ensures ListensToInterests(Next(s, e))
  {
    hide Holders, Finished, Added, Dropped, Updated, Ready;
    match e {
      case Open(id, i, context, order) => AddedListens(s, id, i, context, 0, order);
      case Shutting(id, context, order) => DroppedListens(s, id, context, 0, order);
      case Timeout(request, order) =>
        if request in s.pending { FinishKeepsInterests(s, request, order); }
      case Receive(g, order) => ReceiveListens(s, g, order);
    }
  }

  lemma ReceiveListens(s: State, g: Datagram, order: Ordering)
    requires ListensToInterests(s) && s.standing == Connected && Handled(s, g, order).standing == Connected
    ensures ListensToInterests(Handled(s, g, order))
  {
    hide Holders, Finished, Added, Dropped, Ready, Updated;
    match g {
      case AddInterest(id, i, caller) =>
        var context := s.nextContext;
        AddedListens(Say(s.(nextContext := context + 1), InterestOpened(id, context)), id, i, context, caller, order);
      case RemoveInterest(id, caller) =>
        var context := s.nextContext;
        if id in s.interests {
          DroppedListens(Say(s.(nextContext := context + 1), InterestClosed(id, context)), id, context, caller, order);
        }
      case EnterInterest(request, d, at) =>
        if request in s.pending {
          FinishKeepsInterests(Expected(s, request, Generate(d, at)), request, order);
        }
      case ZonesCount(request, count) =>
        if request in s.pending {
          FinishKeepsInterests(Counted(s, request, count), request, order);
        }
      case Update(u) =>
        UpdateKeepsInterests(s, u, order);
      case _ =>
    }
  }

  /** The client listens to the location of a zone exactly while some open interest sees
      it, after any openings, alterations and closings of interests. */
  lemma ListeningFollowsInterests(uberdogs: set<Doid>, permission: Permission, events: seq<Event>)
    ensures var s := After(Fresh(uberdogs, permission), events);
            s.standing == Connected ==>
              forall at :: at in s.locations <==> exists id :: id in s.interests && InterestCovers(s.interests[id], at)
  {
    var s := After(Fresh(uberdogs, permission), events);
    if s.standing == Connected {
      RunListens(uberdogs, permission, events);
      forall at ensures at in s.locations <==> exists id :: id in s.interests && InterestCovers(s.interests[id], at) {
        if id :| id in s.interests && InterestCovers(s.interests[id], at) {
          assert id in Holders(s.interests, at);
        }
        if Holders(s.interests, at) != {} {
          var id :| id in Holders(s.interests, at);
        }
      }
    }
  }

  lemma {:induction false} RunListens(uberdogs: set<Doid>, permission: Permission, events: seq<Event>)
    requires After(Fresh(uberdogs, permission), events).standing == Connected
    ensures ListensToInterests(After(Fresh(uberdogs, permission), events))
    decreases |events|
  {
    if events != [] {
      hide Next, Holders;
      var s := After(Fresh(uberdogs, permission), events[..|events|-1]);
      EndsForGood(s, events[|events|-1]);
      RunListens(uberdogs, permission, events[..|events|-1]);
      StepListens(s, events[|events|-1]);
    }
  }

  lemma EndsForGood(s: State, e: Event)
    requires Next(s, e).standing == Connected
    ensures s.standing == Connected
  {
    hide Handled, Opened, Shut, Finished;
  }

  // ----- In view and out of view by turns -----

  /** Of the datagrams to the client, those that show (true) or hide (false) an object. */
  function Visits(outbox: seq<Sent>, d: Doid): seq<bool> {
    if outbox == [] then []
    else
      var earlier := Visits(outbox[..|outbox|-1], d);
      match outbox[|outbox|-1]
      case Enter(e, _) => if e == d then earlier + [true] else earlier
      case Leaving(e) => if e == d then earlier + [false] else earlier
      case _ => earlier
  }

  predicate TakeTurns(visits: seq<bool>) {
    forall k | 0 <= k < |visits| :: visits[k] <==> k % 2 == 0
  }

  /** The view of one object: shown and hidden by turns, and now shown exactly if seen. */
  predicate ViewAgrees(s: State, d: Doid) {
    && TakeTurns(Visits(s.outbox, d))
    && (d in s.seen <==> |Visits(s.outbox, d)| % 2 == 1)
    && (d in s.seen <==> d in s.visible)
  }

  ghost predicate ViewsAgree(s: State) {
    forall d :: ViewAgrees(s, d)
  }

  lemma {:induction false} VisitsConcat(a: seq<Sent>, b: seq<Sent>, d: Doid)
    ensures Visits(a + b, d) == Visits(a, d) + Visits(b, d)
    decreases |b|
  {
    if b == [] {
      assert a + b == a;
    } else {
      assert (a + b)[..|a + b|-1] == a + b[..|b|-1];
      VisitsConcat(a, b[..|b|-1], d);
    }
  }

  lemma OneMore(outbox: seq<Sent>, m: Sent, d: Doid)
    ensures Visits(outbox + [m], d) == Visits(outbox, d) +
              match m { case Enter(e, _) => if e == d then [true] else []
                        case Leaving(e) => if e == d then [false] else []
                        case _ => [] }
  {
    assert (outbox + [m])[..|outbox|] == outbox;
  }

  /** Walking the visible objects meets each closing one once. */
  lemma {:induction false} ClosingMembers(visible: map<Doid, Location>, order: seq<Doid>, parent: Doid, zones: set<Zone>)
    requires forall i, j | 0 <= i < j < |order| :: order[i] != order[j]
    ensures var closing := Closing(visible, order, parent, zones);
            && (forall d :: d in closing <==> d in order && d in visible && InZones(visible[d], parent, zones))
            && (forall i, j | 0 <= i < j < |closing| :: closing[i] != closing[j])
    decreases |order|
  {
    if order != [] {
      var front := order[..|order|-1];
      ClosingMembers(visible, front, parent, zones);
      assert order == front + [order[|order|-1]];
    }
  }

  lemma {:induction false} LeavingVisits(objects: seq<Doid>, d: Doid)
    requires forall i, j | 0 <= i < j < |objects| :: objects[i] != objects[j]
    ensures Visits(Leavings(objects), d) == if d in objects then [false] else []
    decreases |objects|
  {
    if objects != [] {
      var front := objects[..|objects|-1];
      LeavingVisits(front, d);
      assert Leavings(objects) == Leavings(front) + [Leaving(objects[|objects|-1])];
      OneMore(Leavings(front), Leaving(objects[|objects|-1]), d);
      assert objects == front + [objects[|objects|-1]];
    }
  }

  lemma TurnTaken(visits: seq<bool>, next: bool)
    requires TakeTurns(visits) && (next <==> |visits| % 2 == 0)
    ensures TakeTurns(visits + [next])
  {
  }

  lemma Appended(visits: seq<bool>)
    ensures visits + [] == visits
  {
  }

  lemma ClosedViews(s: State, parent: Doid, zones: set<Zone>, order: Ordering)
    requires ViewsAgree(s)
    ensures ViewsAgree(Closed(s, parent, zones, order))
  {
    hide Visits, TakeTurns, Closing;
    var t := Closed(s, parent, zones, order);
    var closing := Closing(s.visible, order.objects, parent, zones);
    ClosingMembers(s.visible, order.objects, parent, zones);
    forall d ensures ViewAgrees(t, d) {
      assert ViewAgrees(s, d);
      if Members(closing) * s.session == {} {
        HideAll(s.outbox, closing, d);
        if d in closing { TurnTaken(Visits(s.outbox, d), false); }
      }
    }
  }

  lemma HideAll(outbox: seq<Sent>, objects: seq<Doid>, d: Doid)
    requires forall i, j | 0 <= i < j < |objects| :: objects[i] != objects[j]
    ensures Visits(outbox + Leavings(objects), d) == if d in objects then Visits(outbox, d) + [false] else Visits(outbox, d)
  {
    VisitsConcat(outbox, Leavings(objects), d);
    LeavingVisits(objects, d);
    Appended(Visits(outbox, d));
  }

  /** Nothing said that concerns the view of an object. */
  lemma Unseen(s: State, t: State, more: seq<Sent>)
    requires ViewsAgree(s) && t.outbox == s.outbox + more && t.seen == s.seen && t.visible.Keys == s.visible.Keys
    requires forall k | 0 <= k < |more| :: !more[k].Enter? && !more[k].Leaving?
    ensures ViewsAgree(t)
  {
    hide TakeTurns;
    forall d ensures ViewAgrees(t, d) {
      assert ViewAgrees(s, d);
      Aside(s.outbox, more, d);
    }
  }

  lemma {:induction false} Aside(outbox: seq<Sent>, more: seq<Sent>, d: Doid)
    requires forall k | 0 <= k < |more| :: !more[k].Enter? && !more[k].Leaving?
    ensures Visits(outbox + more, d) == Visits(outbox, d)
    decreases |more|
  {
    if more == [] {
      assert outbox + more == outbox;
    } else {
      assert (outbox + more)[..|outbox + more|-1] == outbox + more[..|more|-1];
      Aside(outbox, more[..|more|-1], d);
    }
  }

  lemma EnteredViews(s: State, d: Doid, at: Location)
    requires ViewsAgree(s)
    ensures ViewsAgree(Entered(s, d, at))
  {
    hide Visits, TakeTurns;
    forall e ensures ViewAgrees(Entered(s, d, at), e) {
      assert ViewAgrees(s, e);
      OneMore(s.outbox, Enter(d, at), e);
      Appended(Visits(s.outbox, e));
      if e == d && d !in s.seen { TurnTaken(Visits(s.outbox, d), true); }
    }
  }

  lemma {:induction false} AllEnteredViews(s: State, generates: seq<Generate>)
    requires ViewsAgree(s)
    ensures ViewsAgree(AllEntered(s, generates))
    decreases |generates|
  {
    if generates != [] {
      hide ViewsAgree, Entered;
      var last := generates[|generates|-1];
      AllEnteredViews(s, generates[..|generates|-1]);
      EnteredViews(AllEntered(s, generates[..|generates|-1]), last.d, last.at);
    }
  }

  lemma OutOfViewAgrees(s: State, d: Doid)
    requires ViewsAgree(s) && d in s.seen
    ensures ViewsAgree(OutOfView(s, d))
  {
    hide Visits, TakeTurns;
    forall e ensures ViewAgrees(OutOfView(s, d), e) {
      assert ViewAgrees(s, e);
      OneMore(s.outbox, Leaving(d), e);
      Appended(Visits(s.outbox, e));
      if e == d { TurnTaken(Visits(s.outbox, d), false); }
    }
  }

  lemma VisibleIsSeen(s: State, d: Doid)
    requires ViewsAgree(s)
    ensures d in s.visible <==> d in s.seen
  {
    assert ViewAgrees(s, d);
  }

  lemma ChangedLocationViews(s: State, d: Doid, at: Location)
    requires ViewsAgree(s)
    ensures ViewsAgree(ChangedLocation(s, d, at))
  {
    hide ViewAgrees, Holders;
    var t := ChangedLocation(s, d, at);
    if d in s.visible || d in s.owned {
      var moved := Relocated(s, d, at);
      assert moved.visible.Keys == s.visible.Keys;
      Unseen(s, moved, []);
      Unseen(moved, Say(moved, Moved(d, at)), [Moved(d, at)]);
      Unseen(moved, moved.(standing := Ejected), []);
      if d in s.visible {
        VisibleIsSeen(s, d);
        OutOfViewAgrees(moved, d);
      }
    }
  }

  lemma DeletedViews(s: State, d: Doid)
    requires ViewsAgree(s)
    ensures ViewsAgree(Deleted(s, d))
  {
    hide ViewsAgree;
    VisibleIsSeen(s, d);
    if d in s.session {
      Unseen(s, Deleted(s, d), []);
    } else if d in s.seen {
      OutOfViewAgrees(s, d);
      DeletedAfterLeaving(s, d);
      Unseen(OutOfView(s, d), Deleted(s, d), if d in s.owned then [LeavingAsOwner(d)] else []);
    } else {
      assert s.visible - {d} == s.visible && s.seen - {d} == s.seen;
      Unseen(s, Deleted(s, d), if d in s.owned then [LeavingAsOwner(d)] else []);
    }
  }

  lemma DeletedAfterLeaving(s: State, d: Doid)
    requires d !in s.session && d in s.seen
    ensures var hidden, t := OutOfView(s, d), Deleted(s, d);
            && t.seen == hidden.seen && t.visible == hidden.visible
            && t.outbox == hidden.outbox + if d in s.owned then [LeavingAsOwner(d)] else []
  {
  }

  lemma UpdatedViews(s: State, u: ObjectUpdate, order: Ordering)
    requires ViewsAgree(s)
    ensures ViewsAgree(Updated(s, u, order))
  {
    hide ViewAgrees, Deleted, ChangedLocation, Entered, Knows, FirstCovering;
    match u {
      case EnterLocation(d, at) => EnteredLocationViews(s, d, at, order);
      case ChangingLocation(d, at) =>
        if d in s.pendingObjects { Unseen(s, Queued(s, u), []); } else { ChangedLocationViews(s, d, at); }
      case DeleteRam(d) =>
        DeletedViews(s, d);
        if d in s.pendingObjects { Unseen(s, Queued(s, u), []); }
      case SetField(d) =>
        Unseen(s, Say(s, FieldUpdate(d)), [FieldUpdate(d)]);
        if d in s.pendingObjects { Unseen(s, Queued(s, u), []); }
    }
  }

  lemma EnteredLocationViews(s: State, d: Doid, at: Location, order: Ordering)
    requires ViewsAgree(s)
    ensures ViewsAgree(EnteredLocation(s, d, at, order))
  {
    hide ViewAgrees, Entered, FirstCovering;
    EnteredViews(s, d, at);
    if FirstCovering(s.pending, order.requests, at).Some? {
      Unseen(s, EnteredLocation(s, d, at, order), []);
    }
  }

  lemma {:induction false} DispatchViews(s: State, datagrams: seq<ObjectUpdate>, order: Ordering)
    requires ViewsAgree(s)
    ensures ViewsAgree(Dispatched(s, datagrams, order))
    decreases |datagrams|
  {
    if datagrams != [] && s.standing == Connected {
      hide Updated, ViewsAgree;
      UpdatedViews(s, datagrams[0], order);
      DispatchViews(Updated(s, datagrams[0], order), datagrams[1..], order);
    }
  }

  lemma FinishViews(s: State, request: Context, order: Ordering)
    requires request in s.pending && ViewsAgree(s)
    ensures ViewsAgree(Finished(s, request, order))
  {
    hide AllEntered, Dispatched, ViewAgrees;
    var op := s.pending[request];
    var entered := AllEntered(s, op.generates);
    var shown := Announced(entered, op);
    AllEnteredViews(s, op.generates);
    var news := [NotifyCaller(op.caller, op.id), InterestDone(op.id, op.context)];
    Unseen(entered, shown.(pending := shown.pending - {request}), news);
    DispatchViews(shown.(pending := shown.pending - {request}), op.datagrams, order);
  }

  lemma AddedViews(s: State, id: InterestId, i: Interest, context: Context, caller: nat, order: Ordering)
    requires ViewsAgree(s)
    ensures ViewsAgree(Added(s, id, i, context, caller, order))
  {
    hide ViewAgrees, Closed, NewZones, AlteredZones, Locations;
    var zones := NewZones(s.interests, i);
    var closed := s;
    if id in s.interests {
      closed := Closed(s, s.interests[id].parent, AlteredZones(s.interests, id, i), order);
      ClosedViews(s, s.interests[id].parent, AlteredZones(s.interests, id, i), order);
    }
    var altered := closed.(interests := closed.interests[id := i]);
    DoneViews(closed, DoneAtOnce(altered, id, context, caller), id, context, caller);
    Unseen(closed, Requested(altered, id, i, zones, context, caller), [GetZonesObjects(altered.nextContext, i.parent, zones)]);
  }

  lemma DoneViews(s: State, t: State, id: InterestId, context: Context, caller: nat)
    requires ViewsAgree(s) && t.seen == s.seen && t.visible == s.visible
    requires t.outbox == s.outbox + Notified(caller, id) + [InterestDone(id, context)]
    ensures ViewsAgree(t)
  {
    hide ViewAgrees;
    var news := Notified(caller, id) + [InterestDone(id, context)];
    assert t.outbox == s.outbox + news;
    Unseen(s, t, news);
  }

  lemma DroppedViews(s: State, id: InterestId, context: Context, caller: nat, order: Ordering)
    requires ViewsAgree(s) && id in s.interests
    ensures ViewsAgree(Dropped(s, id, context, caller, order))
  {
    hide ViewAgrees, Closed, RemovedZones;
    ClosedViews(s, s.interests[id].parent, RemovedZones(s.interests, id), order);
    var closed := Closed(s, s.interests[id].parent, RemovedZones(s.interests, id), order);
    DoneViews(closed, DoneAtOnce(closed, id, context, caller).(interests := closed.interests - {id}), id, context, caller);
  }

  lemma StepViews(s: State, e: Event)
    requires ViewsAgree(s)
    ensures ViewsAgree(Next(s, e))
  {
    hide ViewAgrees, Finished, Added, Dropped, Handled, Permitted;
    match e {
      case Open(id, i, context, order) =>
        AddedViews(s, id, i, context, 0, order);
        Unseen(s, s.(standing := Ejected), []);
      case Shutting(id, context, order) =>
        Unseen(s, s.(standing := Ejected), []);
        if id in s.interests { DroppedViews(s, id, context, 0, order); }
      case Timeout(request, order) =>
        if request in s.pending { FinishViews(s, request, order); }
      case Receive(g, order) => ReceiveViews(s, g, order);
    }
  }

  lemma ReceiveViews(s: State, g: Datagram, order: Ordering)
    requires ViewsAgree(s)
    ensures ViewsAgree(Handled(s, g, order))
  {
    hide ViewAgrees, Finished, Added, Dropped, Ready, Updated, Expected, Counted;
    match g {
      case Update(u) => UpdatedViews(s, u, order);
      case AddInterest(id, i, caller) =>
        var context := s.nextContext;
        var told := Say(s.(nextContext := context + 1), InterestOpened(id, context));
        Unseen(s, told, [InterestOpened(id, context)]);
        AddedViews(told, id, i, context, caller, order);
      case RemoveInterest(id, caller) =>
        var context := s.nextContext;
        var told := Say(s.(nextContext := context + 1), InterestClosed(id, context));
        Unseen(s, told, [InterestClosed(id, context)]);
        if id in s.interests { DroppedViews(told, id, context, caller, order); }
      case EnterInterest(request, d, at) =>
        if request in s.pending { ExpectedViews(s, request, Generate(d, at), order); }
      case ZonesCount(request, count) =>
        if request in s.pending { CountedViews(s, request, count, order); }
      case EnterOwner(d, at) => Unseen(s, Handled(s, g, order), [EnterAsOwner(d, at)]);
      case ChangingOwner(d, toUs) =>
        if !toUs && d in s.owned && d !in s.session { Unseen(s, Handled(s, g, order), [LeavingAsOwner(d)]); }
        else { Unseen(s, Handled(s, g, order), []); }
      case _ => Unseen(s, Handled(s, g, order), []);
    }
  }

  lemma ExpectedViews(s: State, request: Context, g: Generate, order: Ordering)
    requires ViewsAgree(s) && request in s.pending
    ensures ViewsAgree(FinishedIfReady(Expected(s, request, g), request, order))
  {
    hide ViewAgrees, Finished, Ready;
    var t := Expected(s, request, g);
    Unseen(s, t, []);
    FinishViews(t, request, order);
  }

  lemma CountedViews(s: State, request: Context, count: nat, order: Ordering)
    requires ViewsAgree(s) && request in s.pending
    ensures ViewsAgree(FinishedIfReady(Counted(s, request, count), request, order))
  {
    hide ViewAgrees, Finished, Ready;
    var t := Counted(s, request, count);
    Unseen(s, t, []);
    FinishViews(t, request, order);
  }

  lemma {:induction false} RunViews(uberdogs: set<Doid>, permission: Permission, events: seq<Event>)
    ensures ViewsAgree(After(Fresh(uberdogs, permission), events))
    decreases |events|
  {
    if events != [] {
      hide Next, ViewsAgree;
      RunViews(uberdogs, permission, events[..|events|-1]);
      StepViews(After(Fresh(uberdogs, permission), events[..|events|-1]), events[|events|-1]);
    }
  }

  /** The client is told that an object comes into view and that it goes out of view by
      turns, first that it comes; it was last told that it comes exactly if the object is
      in view, which the two tables agree on. */
  lemma ViewsTakeTurns(uberdogs: set<Doid>, permission: Permission, events: seq<Event>, d: Doid)
    ensures var s := After(Fresh(uberdogs, permission), events);
            s.standing == Connected ==>
              var visits := Visits(s.outbox, d);
              && (forall k | 0 <= k < |visits| :: visits[k] <==> k % 2 == 0)
              && (d in s.seen <==> visits != [] && visits[|visits|-1])
              && (d in s.seen <==> d in s.visible)
  {
    hide After, Visits;
    RunViews(uberdogs, permission, events);
    assert ViewAgrees(After(Fresh(uberdogs, permission), events), d);
  }

  // ----- What an interest shows, and what goes when it goes -----

  ghost predicate WalksObjects(s: State, order: Ordering) {
    forall d :: d in order.objects <==> d in s.visible
  }

  ghost predicate InView(interests: map<InterestId, Interest>, at: Location) {
    exists id :: id in interests && InterestCovers(interests[id], at)
  }

  lemma InViewMeansHeld(interests: map<InterestId, Interest>, at: Location)
    ensures InView(interests, at) <==> Holders(interests, at) != {}
  {
    if id :| id in interests && InterestCovers(interests[id], at) {
      assert id in Holders(interests, at);
    }
    if Holders(interests, at) != {} {
      var id :| id in Holders(interests, at);
    }
  }

  /** Opening or altering an interest takes out of view exactly the objects whose location
      was covered by some interest and now is by none. */
  lemma AlteringHidesTheUncovered(s: State, id: InterestId, i: Interest, context: Context, caller: nat, order: Ordering, d: Doid)
    requires WalksObjects(s, order)
    requires var t := Added(s, id, i, context, caller, order); t.standing == Connected
    ensures var t := Added(s, id, i, context, caller, order);
            d in t.visible <==>
              (d in s.visible && !(InView(s.interests, s.visible[d]) && !InView(t.interests, s.visible[d])))
  {
    hide InView, Holders, Added, AlteredZones, Locations;
    AddedVisible(s, id, i, context, caller, order, d);
    if d in s.visible {
      var at := s.visible[d];
      InViewMeansHeld(s.interests, at);
      InViewMeansHeld(s.interests[id := i], at);
      HoldersAfterOpening(s.interests, id, i, at);
      if id in s.interests { AlteredZonesMeaning(s.interests, id, i, at); } else { Unheld(s.interests, id, at); }
    }
  }

  /** Of what is in view, what lies in the closed zones goes. */
  lemma ClosedVisible(s: State, parent: Doid, zones: set<Zone>, order: Ordering, d: Doid)
    requires WalksObjects(s, order) && Closed(s, parent, zones, order).standing == Connected
    ensures var t := Closed(s, parent, zones, order);
            && t.interests == s.interests
            && (d in t.visible <==> d in s.visible && s.visible[d] !in Locations(parent, zones))
  {
    hide Closing;
    ClosingMembers(s.visible, order.objects, parent, zones);
    if d in s.visible && InZones(s.visible[d], parent, zones) {
      assert s.visible[d] == Location(parent, s.visible[d].zone);
    }
  }

  lemma AddedVisible(s: State, id: InterestId, i: Interest, context: Context, caller: nat, order: Ordering, d: Doid)
    requires WalksObjects(s, order) && Added(s, id, i, context, caller, order).standing == Connected
    ensures var t := Added(s, id, i, context, caller, order);
            && t.interests == s.interests[id := i]
            && (d in t.visible <==>
                  (d in s.visible
                   && !(id in s.interests && s.visible[d] in Locations(s.interests[id].parent, AlteredZones(s.interests, id, i)))))
  {
    hide Closed, NewZones, AlteredZones, Locations;
    if id in s.interests { ClosedVisible(s, s.interests[id].parent, AlteredZones(s.interests, id, i), order, d); }
  }

  lemma DroppedVisible(s: State, id: InterestId, context: Context, caller: nat, order: Ordering, d: Doid)
    requires id in s.interests && WalksObjects(s, order)
    requires Dropped(s, id, context, caller, order).standing == Connected
    ensures var t := Dropped(s, id, context, caller, order);
            && t.interests == s.interests - {id}
            && (d in t.visible <==> d in s.visible && s.visible[d] !in Locations(s.interests[id].parent, RemovedZones(s.interests, id)))
  {
    hide Closed, RemovedZones, Locations;
    ClosedVisible(s, s.interests[id].parent, RemovedZones(s.interests, id), order, d);
  }

  lemma ClosingHidesTheUncovered(s: State, id: InterestId, context: Context, caller: nat, order: Ordering, d: Doid)
    requires id in s.interests && WalksObjects(s, order)
    requires Dropped(s, id, context, caller, order).standing == Connected
    ensures var t := Dropped(s, id, context, caller, order);
            d in t.visible <==>
              (d in s.visible && !(InView(s.interests, s.visible[d]) && !InView(t.interests, s.visible[d])))
  {
    hide InView, Holders, Dropped, RemovedZones, Locations;
    DroppedVisible(s, id, context, caller, order, d);
    if d in s.visible {
      var at := s.visible[d];
      InViewMeansHeld(s.interests, at);
      InViewMeansHeld(s.interests - {id}, at);
      RemovedZonesMeaning(s.interests, id, at);
    }
  }

  /** A session object in view that no interest would cover any more. */
  ghost predicate LosesSession(s: State, interests: map<InterestId, Interest>, d: Doid) {
    && d in s.session && d in s.visible
    && InView(s.interests, s.visible[d]) && !InView(interests, s.visible[d])
  }

  lemma ClosedCutsOff(s: State, parent: Doid, zones: set<Zone>, order: Ordering)
    requires WalksObjects(s, order) && s.standing == Connected
    ensures Closed(s, parent, zones, order).standing
         == if exists d :: d in s.session && d in s.visible && s.visible[d] in Locations(parent, zones) then Ejected else Connected
  {
    hide Closing;
    ClosingMembers(s.visible, order.objects, parent, zones);
    var closing := Closing(s.visible, order.objects, parent, zones);
    forall d | d in s.visible ensures d in closing <==> s.visible[d] in Locations(parent, zones) {
      if InZones(s.visible[d], parent, zones) { assert s.visible[d] == Location(parent, s.visible[d].zone); }
    }
    if d :| d in Members(closing) * s.session {
      assert d in s.session && d in s.visible && s.visible[d] in Locations(parent, zones);
    }
    if d :| d in s.session && d in s.visible && s.visible[d] in Locations(parent, zones) {
      assert d in Members(closing) * s.session;
    }
  }

  /** Opening or altering an interest costs the connection exactly if it would take a
      session object out of view. */
  lemma AlteringCutsOffExactly(s: State, id: InterestId, i: Interest, context: Context, caller: nat, order: Ordering)
    requires WalksObjects(s, order) && s.standing == Connected
    ensures var after := s.interests[id := i];
            Added(s, id, i, context, caller, order).standing == if exists d :: LosesSession(s, after, d) then Ejected else Connected
  {
    hide InView, Holders, Closed, AlteredZones, NewZones, Locations;
    forall d | d in s.visible
      ensures InView(s.interests, s.visible[d]) && !InView(s.interests[id := i], s.visible[d])
         <==> id in s.interests && s.visible[d] in Locations(s.interests[id].parent, AlteredZones(s.interests, id, i))
    {
      var at := s.visible[d];
      InViewMeansHeld(s.interests, at);
      InViewMeansHeld(s.interests[id := i], at);
      HoldersAfterOpening(s.interests, id, i, at);
      if id in s.interests { AlteredZonesMeaning(s.interests, id, i, at); } else { Unheld(s.interests, id, at); }
    }
    if id in s.interests {
      var parent, zones := s.interests[id].parent, AlteredZones(s.interests, id, i);
      ClosedCutsOff(s, parent, zones, order);
      var after := s.interests[id := i];
      assert forall d :: LosesSession(s, after, d) <==> d in s.session && d in s.visible && s.visible[d] in Locations(parent, zones);
    }
  }

  /** The same of closing one. */
  lemma ClosingCutsOffExactly(s: State, id: InterestId, context: Context, caller: nat, order: Ordering)
    requires id in s.interests && WalksObjects(s, order) && s.standing == Connected
    ensures var after := s.interests - {id};
            Dropped(s, id, context, caller, order).standing == if exists d :: LosesSession(s, after, d) then Ejected else Connected
  {
    hide InView, Holders, Closed, RemovedZones, Locations;
    var parent, zones := s.interests[id].parent, RemovedZones(s.interests, id);
    forall d | d in s.visible
      ensures InView(s.interests, s.visible[d]) && !InView(s.interests - {id}, s.visible[d]) <==> s.visible[d] in Locations(parent, zones)
    {
      var at := s.visible[d];
      InViewMeansHeld(s.interests, at);
      InViewMeansHeld(s.interests - {id}, at);
      RemovedZonesMeaning(s.interests, id, at);
    }
    ClosedCutsOff(s, parent, zones, order);
    var after := s.interests - {id};
    assert forall d :: LosesSession(s, after, d) <==> d in s.session && d in s.visible && s.visible[d] in Locations(parent, zones);
  }

  /** Shown to the client, or its own session object. */
  predicate Presented(s: State, outbox: seq<Sent>, d: Doid) {
    (Visits(outbox, d) != [] && Visits(outbox, d)[|Visits(outbox, d)|-1]) || (d in s.owned && d in s.session)
  }

  lemma {:induction false} SnapshotIsPresented(s: State, generates: seq<Generate>)
    requires ViewsAgree(s)
    ensures var t := AllEntered(s, generates);
            && t.owned == s.owned && t.session == s.session && s.seen <= t.seen && t.standing == s.standing
            && t.pending == s.pending && s.outbox <= t.outbox
            && forall k | 0 <= k < |generates| ::
                 generates[k].d in t.seen || (generates[k].d in s.owned && generates[k].d in s.session)
    decreases |generates|
  {
    if generates != [] {
      SnapshotIsPresented(s, generates[..|generates|-1]);
    }
  }

  lemma {:induction false} DispatchOnlyAdds(s: State, datagrams: seq<ObjectUpdate>, order: Ordering)
    ensures s.outbox <= Dispatched(s, datagrams, order).outbox
    decreases |datagrams|
  {
    if datagrams != [] && s.standing == Connected {
      hide Updated;
      UpdateOnlyAdds(s, datagrams[0], order);
      DispatchOnlyAdds(Updated(s, datagrams[0], order), datagrams[1..], order);
    }
  }

  lemma UpdateOnlyAdds(s: State, u: ObjectUpdate, order: Ordering)
    ensures s.outbox <= Updated(s, u, order).outbox
  {
    hide FirstCovering, Knows, ChangedLocation, Deleted;
    match u {
      case EnterLocation(_, _) =>
      case ChangingLocation(d, at) => MoveOnlyAdds(s, d, at);
      case DeleteRam(d) => DeleteOnlyAdds(s, d);
      case SetField(_) =>
    }
  }

  lemma MoveOnlyAdds(s: State, d: Doid, at: Location)
    ensures s.outbox <= ChangedLocation(s, d, at).outbox && SameInterests(s, ChangedLocation(s, d, at))
  {
    hide Holders, Relocated;
    RelocatedAlone(s, d, at);
  }

  lemma RelocatedAlone(s: State, d: Doid, at: Location)
    ensures var t := Relocated(s, d, at);
            && SameInterests(s, t) && t.outbox == s.outbox && t.seen == s.seen && t.standing == s.standing
            && t.visible.Keys == s.visible.Keys && t.session == s.session && t.owned.Keys == s.owned.Keys
  {
  }

  lemma DeleteOnlyAdds(s: State, d: Doid)
    ensures s.outbox <= Deleted(s, d).outbox && SameInterests(s, Deleted(s, d))
  {
  }

  /** When the client is told that an interest is complete, every object of the snapshot
      has been shown to it and not hidden since. */
  lemma SnapshotBeforeDone(s: State, request: Context, order: Ordering)
    requires request in s.pending && ViewsAgree(s)
    ensures var op := s.pending[request];
            var outbox := Finished(s, request, order).outbox;
            exists n ::
              && |s.outbox| <= n < |outbox|
              && outbox[n] == InterestDone(op.id, op.context)
              && forall k | 0 <= k < |op.generates| :: Presented(s, outbox[..n], op.generates[k].d)
  {
    hide AllEntered, Dispatched, Visits, TakeTurns;
    var op := s.pending[request];
    var entered := AllEntered(s, op.generates);
    SnapshotIsPresented(s, op.generates);
    AllEnteredViews(s, op.generates);
    var shown := Announced(entered, op);
    var outbox := Finished(s, request, order).outbox;
    DispatchOnlyAdds(shown.(pending := shown.pending - {request}), op.datagrams, order);
    var n := |entered.outbox| + 1;
    assert outbox[..n] == entered.outbox + [NotifyCaller(op.caller, op.id)];
    forall k | 0 <= k < |op.generates| ensures Presented(s, outbox[..n], op.generates[k].d) {
      var d := op.generates[k].d;
      assert ViewAgrees(entered, d);
      OneMore(entered.outbox, NotifyCaller(op.caller, op.id), d);
      Appended(Visits(entered.outbox, d));
      if d in entered.seen { LastTurn(Visits(entered.outbox, d)); }
    }
    assert outbox[n] == InterestDone(op.id, op.context);
  }

  lemma LastTurn(visits: seq<bool>)
    requires TakeTurns(visits) && |visits| % 2 == 1
    ensures visits[|visits|-1]
  {
  }
}
