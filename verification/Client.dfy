/** The client object itself, whose tables the handlers change in place. */
module Client {
  import opened ClientInterests
  import opened ClientRuns

  class Client {
    const uberdogs: set<Doid>
    const permission: Permission
    var interests: map<InterestId, Interest>
    var locations: set<Location>
    var visible: map<Doid, Location>
    var seen: set<Doid>
    var owned: map<Doid, Location>
    var session: set<Doid>
    var declared: set<Doid>
    var historical: set<Doid>
    var pendingObjects: map<Doid, Context>
    var pending: map<Context, Operation>
    var nextContext: Context
    var outbox: seq<Sent>
    var standing: Standing

    constructor (uberdogs: set<Doid>, permission: Permission)
      ensures Now() == Fresh(uberdogs, permission)
    {
      this.uberdogs, this.permission := uberdogs, permission;
      interests, locations, visible, seen := map[], {}, map[], {};
      owned, session, declared, historical := map[], {}, {}, {};
      pendingObjects, pending, nextContext := map[], map[], 1;
      outbox, standing := [], Connected;
    }

    ghost function Now(): State
      reads this
    {
      State(uberdogs, permission, interests, locations, visible, seen, owned, session, declared,
            historical, pendingObjects, pending, nextContext, outbox, standing)
    }

    /** What the client keeps to between the events it handles, until it is ejected: it
        listens where its interests are, and what it told of each object fits its tables. */
    ghost predicate Valid()
      reads this
    {
      standing == Connected ==> ListensToInterests(Now()) && ViewsAgree(Now())
    }

    method LookupInterests(at: Location) returns (found: set<InterestId>)
      ensures found == Holders(interests, at)
    {
      found := {};
      var todo := interests.Keys;
      while todo != {}
        invariant todo <= interests.Keys
        invariant found == Holders(interests, at) - todo
      {
        var id :| id in todo;
        if interests[id].parent == at.parent && at.zone in interests[id].zones {
          found := found + {id};
        }
        todo := todo - {id};
      }
    }

    method FindNewZones(i: Interest) returns (zones: set<Zone>)
      ensures zones == NewZones(interests, i)
    {
      hide Holders;
      zones := {};
      var todo := i.zones;
      while todo != {}
        invariant todo <= i.zones && zones == NewZones(interests, i) - todo
      {
        var z :| z in todo;
        var holders := LookupInterests(Location(i.parent, z));
        if holders == {} {
          zones := zones + {z};
        }
        todo := todo - {z};
      }
    }

    method FindAlteredZones(id: InterestId, i: Interest) returns (killed: set<Zone>)
      requires id in interests
      ensures killed == AlteredZones(interests, id, i)
    {
      hide Holders;
      var previous := interests[id];
      killed := {};
      var todo := previous.zones;
      while todo != {}
        invariant todo <= previous.zones && killed == AlteredZones(interests, id, i) - todo
      {
        var z :| z in todo;
        todo := todo - {z};
        var holders := LookupInterests(Location(previous.parent, z));
        if |holders| > 1 {
          continue;
        }
        if i.parent != previous.parent || z !in i.zones {
          killed := killed + {z};
        }
      }
    }

    method FindRemovedZones(id: InterestId) returns (killed: set<Zone>)
      requires id in interests
      ensures killed == RemovedZones(interests, id)
    {
      hide Holders;
      var i := interests[id];
      killed := {};
      var todo := i.zones;
      while todo != {}
        invariant todo <= i.zones && killed == RemovedZones(interests, id) - todo
      {
        var z :| z in todo;
        var holders := LookupInterests(Location(i.parent, z));
        if |holders| == 1 {
          killed := killed + {z};
        }
        todo := todo - {z};
      }
    }

    method CloseZones(parent: Doid, zones: set<Zone>, order: Ordering)
      requires standing == Connected
      modifies this
      ensures Alike(Now(), Closed(old(Now()), parent, zones, order))
    {
      hide Closing, Leavings;
      var removed := HideObjects(parent, zones, order);
      if standing != Connected {
        return;
      }
      visible := visible - Members(removed);
      locations := locations - Locations(parent, zones);
    }

    /** Objects leave one after the other, until there is one the session depends on. */
    method HideObjects(parent: Doid, zones: set<Zone>, order: Ordering) returns (removed: seq<Doid>)
      requires standing == Connected
      modifies `seen, `historical, `outbox, `standing
      ensures standing == Ejected <==> Members(Closing(visible, order.objects, parent, zones)) * session != {}
      ensures standing == Ejected || standing == Connected
      ensures standing == Connected ==>
        && removed == Closing(visible, order.objects, parent, zones)
        && seen == old(seen) - Members(removed)
        && historical == old(historical) + Members(removed)
        && outbox == old(outbox) + Leavings(removed)
    {
      removed := [];
      for k := 0 to |order.objects|
        invariant standing == Connected
        invariant removed == Closing(visible, order.objects[..k], parent, zones)
        invariant Members(removed) !! session
        invariant seen == old(seen) - Members(removed)
        invariant historical == old(historical) + Members(removed)
        invariant outbox == old(outbox) + Leavings(removed)
      {
        hide Members, Leavings, Closing;
        var d := order.objects[k];
        ClosingStep(visible, order.objects, k, parent, zones);
        if d in visible && visible[d].parent == parent && visible[d].zone in zones {
          HiddenOneMore(old(seen), old(historical), old(outbox), session, removed, d);
          removed := removed + [d];
          if d in session {
            SessionCloses(visible, order.objects, k, parent, zones, session);
            standing := Ejected;
            return;
          }
          outbox := outbox + [Leaving(d)];
          seen := seen - {d};
          historical := historical + {d};
        }
      }
      assert order.objects[..|order.objects|] == order.objects;
    }

    lemma HiddenOneMore(seen: set<Doid>, historical: set<Doid>, outbox: seq<Sent>, session: set<Doid>, removed: seq<Doid>, d: Doid)
      ensures seen - Members(removed) - {d} == seen - Members(removed + [d])
      ensures historical + Members(removed) + {d} == historical + Members(removed + [d])
      ensures outbox + Leavings(removed) + [Leaving(d)] == outbox + Leavings(removed + [d])
      ensures Members(removed) !! session && d !in session ==> Members(removed + [d]) !! session
    {
      LeavingsGrow(removed + [d], d);
      assert (removed + [d])[..|removed|] == removed;
    }

    lemma SessionCloses(visible: map<Doid, Location>, order: seq<Doid>, k: nat, parent: Doid, zones: set<Zone>, session: set<Doid>)
      requires k < |order| && order[k] in visible && InZones(visible[order[k]], parent, zones) && order[k] in session
      ensures Members(Closing(visible, order, parent, zones)) * session != {}
    {
      ClosingStep(visible, order, k, parent, zones);
      ClosingGrows(visible, order, k + 1, parent, zones);
      assert order[k] in Members(Closing(visible, order[..k+1], parent, zones));
      assert order[k] in Members(Closing(visible, order, parent, zones)) * session;
    }

    lemma ClosingStep(visible: map<Doid, Location>, order: seq<Doid>, k: nat, parent: Doid, zones: set<Zone>)
      requires k < |order|
      ensures var before := Closing(visible, order[..k], parent, zones);
              Closing(visible, order[..k+1], parent, zones)
                == if order[k] in visible && InZones(visible[order[k]], parent, zones) then before + [order[k]] else before
    {
      assert order[..k+1][..k] == order[..k];
    }

    lemma LeavingsGrow(removed: seq<Doid>, d: Doid)
      requires removed != [] && removed[|removed|-1] == d
      ensures var front := removed[..|removed|-1];
              Leavings(removed) == Leavings(front) + [Leaving(d)] && Members(removed) == Members(front) + {d}
    {
      assert removed == removed[..|removed|-1] + [d];
    }

    /** What one more object adds stays there for the rest of the walk. */
    lemma {:induction false} ClosingGrows(visible: map<Doid, Location>, order: seq<Doid>, k: nat, parent: Doid, zones: set<Zone>)
      requires k <= |order|
      ensures Members(Closing(visible, order[..k], parent, zones)) <= Members(Closing(visible, order, parent, zones))
      decreases |order| - k
    {
      if k < |order| {
        ClosingGrows(visible, order, k + 1, parent, zones);
        assert order[..k+1][..k] == order[..k];
      } else {
        assert order[..k] == order;
      }
    }

    method NotifyInterestDone(id: InterestId, caller: nat)
      modifies `outbox
      ensures outbox == old(outbox) + Notified(caller, id)
    {
      if caller == 0 {
        return;
      }
      outbox := outbox + [NotifyCaller(caller, id)];
    }

    method AddInterest(id: InterestId, i: Interest, context: Context, caller: nat, order: Ordering)
      requires standing == Connected
      modifies this
      ensures Alike(Now(), Added(old(Now()), id, i, context, caller, order))
    {
      hide NewZones, AlteredZones, Closed, Requested;
      var zones := FindNewZones(i);
      if id in interests {
        var previous := interests[id];
        var killed := FindAlteredZones(id, i);
        CloseZones(previous.parent, killed, order);
        if standing != Connected {
          return;
        }
      }
      interests := interests[id := i];
      if zones == {} {
        NotifyInterestDone(id, caller);
        outbox := outbox + [InterestDone(id, context)];
        return;
      }
      RequestZones(id, i, zones, context, caller);
    }

    method RequestZones(id: InterestId, i: Interest, zones: set<Zone>, context: Context, caller: nat)
      modifies `nextContext, `pending, `outbox, `locations
      ensures Now() == Requested(old(Now()), id, i, zones, context, caller)
    {
      var request := nextContext;
      nextContext := nextContext + 1;
      if request !in pending {
        pending := pending[request := Operation(id, context, i.parent, zones, caller, None, [], [])];
      }
      outbox := outbox + [GetZonesObjects(request, i.parent, zones)];
      locations := locations + Locations(i.parent, zones);
    }

    method RemoveInterest(id: InterestId, context: Context, caller: nat, order: Ordering)
      requires standing == Connected && id in interests
      modifies this
      ensures Alike(Now(), Dropped(old(Now()), id, context, caller, order))
    {
      hide RemovedZones, Closed;
      var parent := interests[id].parent;
      var killed := FindRemovedZones(id);
      CloseZones(parent, killed, order);
      if standing != Connected {
        return;
      }
      NotifyInterestDone(id, caller);
      outbox := outbox + [InterestDone(id, context)];
      interests := interests - {id};
    }

    method LookupObject(d: Doid) returns (known: bool)
      ensures known == Knows(Now(), d)
    {
      if d in uberdogs {
        return true;
      }
      if d in owned {
        return true;
      } else if d in seen {
        if d in visible {
          return true;
        }
      } else if d in declared {
        return true;
      }
      return false;
    }

    method HandleObjectEntrance(d: Doid, at: Location)
      modifies this
      ensures Now() == Entered(old(Now()), d, at)
    {
      pendingObjects := pendingObjects - {d};
      if d in seen {
        return;
      }
      if d in owned && d in session {
        return;
      }
      if d !in visible {
        visible := visible[d := at];
      }
      seen := seen + {d};
      outbox := outbox + [Enter(d, at)];
    }

    method TryQueuePending(u: ObjectUpdate) returns (queued: bool)
      modifies this
      ensures queued == (u.d in old(pendingObjects))
      ensures Now() == if queued then Queued(old(Now()), u) else old(Now())
    {
      if u.d !in pendingObjects {
        return false;
      }
      var request := pendingObjects[u.d];
      if request in pending {
        var op := pending[request];
        pending := pending[request := op.(datagrams := op.datagrams + [u])];
      } else {
        standing := Faulted;
      }
      return true;
    }

    method EnterAtLocation(d: Doid, at: Location, order: Ordering)
      modifies this
      ensures Now() == EnteredLocation(old(Now()), d, at, order)
    {
      for k := 0 to |order.requests|
        invariant Now() == old(Now())
        invariant FirstCovering(pending, order.requests, at) == FirstCovering(pending, order.requests[k..], at)
      {
        var request := order.requests[k];
        if request in pending && pending[request].parent == at.parent && at.zone in pending[request].zones {
          var op := pending[request];
          pending := pending[request := op.(datagrams := op.datagrams + [EnterLocation(d, at)])];
          if d !in pendingObjects {
            pendingObjects := pendingObjects[d := request];
          }
          return;
        }
      }
      HandleObjectEntrance(d, at);
    }

    method ChangeLocation(d: Doid, at: Location)
      modifies this
      ensures Now() == ChangedLocation(old(Now()), d, at)
    {
      hide Holders, Relocated;
      var holders := LookupInterests(at);
      var disable := holders == {};
      var inView, isOwned, isSession := d in visible, d in owned, d in session;
      if !inView && !isOwned {
        return;
      }
      Relocate(d, at);
      if disable && inView {
        if isSession {
          if isOwned {
            outbox := outbox + [Moved(d, at)];
          } else {
            standing := Ejected;
          }
          return;
        }
        LeaveView(d);
      } else {
        outbox := outbox + [Moved(d, at)];
      }
    }

    method Relocate(d: Doid, at: Location)
      modifies `visible, `owned
      ensures Now() == Relocated(old(Now()), d, at)
    {
      if d in visible {
        visible := visible[d := at];
      }
      if d in owned {
        owned := owned[d := at];
      }
    }

    method LeaveView(d: Doid)
      modifies `visible, `seen, `historical, `outbox
      ensures Now() == OutOfView(old(Now()), d)
    {
      outbox := outbox + [Leaving(d)];
      seen := seen - {d};
      historical := historical + {d};
      visible := visible - {d};
    }

    method DeleteObject(d: Doid)
      modifies this
      ensures Now() == Deleted(old(Now()), d)
    {
      if d in session {
        session := session - {d};
        standing := Ejected;
        return;
      }
      LoseSight(d);
      LoseOwnership(d);
      historical := historical + {d};
      visible := visible - {d};
    }

    method LoseSight(d: Doid)
      modifies `outbox, `seen
      ensures seen == old(seen) - {d}
      ensures outbox == old(outbox) + if d in old(seen) then [Leaving(d)] else []
    {
      if d in seen {
        outbox := outbox + [Leaving(d)];
        seen := seen - {d};
      }
    }

    method LoseOwnership(d: Doid)
      modifies `outbox, `owned
      ensures owned == old(owned) - {d}
      ensures outbox == old(outbox) + if d in old(owned) then [LeavingAsOwner(d)] else []
    {
      if d in owned {
        outbox := outbox + [LeavingAsOwner(d)];
        owned := owned - {d};
      }
    }

    method HandleUpdate(u: ObjectUpdate, order: Ordering)
      modifies this
      ensures Now() == Updated(old(Now()), u, order)
    {
      hide EnteredLocation, ChangedLocation, Deleted, Queued, Knows;
      match u {
        case EnterLocation(d, at) =>
          EnterAtLocation(d, at, order);
        case ChangingLocation(d, at) =>
          var queued := TryQueuePending(u);
          if !queued {
            ChangeLocation(d, at);
          }
        case DeleteRam(d) =>
          var known := LookupObject(d);
          if !known {
            var _ := TryQueuePending(u);
            return;
          }
          DeleteObject(d);
        case SetField(d) =>
          var known := LookupObject(d);
          if !known {
            var _ := TryQueuePending(u);
            return;
          }
          outbox := outbox + [FieldUpdate(d)];
      }
    }

    /** InterestOperation::finish. */
    method Finish(request: Context, order: Ordering)
      requires request in pending && standing == Connected
      modifies this
      ensures Alike(Now(), Finished(old(Now()), request, order))
    {
      hide Updated, Entered;
      ghost var s := Now();
      var op := pending[request];
      for k := 0 to |op.generates|
        invariant Now() == AllEntered(s, op.generates[..k])
      {
        assert op.generates[..k+1][..k] == op.generates[..k];
        HandleObjectEntrance(op.generates[k].d, op.generates[k].at);
      }
      assert op.generates[..|op.generates|] == op.generates;
      outbox := outbox + [NotifyCaller(op.caller, op.id), InterestDone(op.id, op.context)];
      var dispatch := op.datagrams;
      pending := pending - {request};
      ghost var begun := Now();
      SnapshotLeavesStanding(s, op.generates);
      var k := 0;
      while k < |dispatch| && standing == Connected
        invariant 0 <= k <= |dispatch|
        invariant Dispatched(Now(), dispatch[k..], order) == Dispatched(begun, dispatch, order)
        decreases |dispatch| - k
      {
        HandleUpdate(dispatch[k], order);
        k := k + 1;
      }
    }

    lemma {:induction false} SnapshotLeavesStanding(s: State, generates: seq<Generate>)
      ensures AllEntered(s, generates).standing == s.standing
      decreases |generates|
    {
      if generates != [] { SnapshotLeavesStanding(s, generates[..|generates|-1]); }
    }

    method HandleDatagram(g: Datagram, order: Ordering)
      requires standing == Connected
      modifies this
      ensures Alike(Now(), Handled(old(Now()), g, order))
    {
      hide Updated, Finished, FinishedIfReady, Expected, Counted, Added, Dropped;
      match g {
        case Update(u) =>
          HandleUpdate(u, order);
        case EnterInterest(request, d, at) =>
          EnterFromInterest(request, d, at, order);
        case ZonesCount(request, count) =>
          TakeZonesCount(request, count, order);
        case EnterOwner(d, at) =>
          if d !in owned {
            owned := owned[d := at];
          }
          outbox := outbox + [EnterAsOwner(d, at)];
        case ChangingOwner(d, toUs) =>
          ChangeOwner(d, toUs);
        case AddSessionObject(d) =>
          session := session + {d};
        case RemoveSessionObject(d) =>
          session := session - {d};
        case DeclareObject(d) =>
          declared := declared + {d};
        case UndeclareObject(d) =>
          declared := declared - {d};
        case AddInterest(id, i, caller) =>
          ServerAddInterest(id, i, caller, order);
        case RemoveInterest(id, caller) =>
          ServerRemoveInterest(id, caller, order);
        case Eject =>
          standing := Ejected;
      }
    }

    method EnterFromInterest(request: Context, d: Doid, at: Location, order: Ordering)
      requires standing == Connected
      modifies this
      ensures Alike(Now(), Handled(old(Now()), EnterInterest(request, d, at), order))
    {
      hide FinishedIfReady, Expected;
      if request !in pending {
        return;
      }
      QueueExpected(request, Generate(d, at));
      FinishIfReady(request, order);
    }

    method TakeZonesCount(request: Context, count: nat, order: Ordering)
      requires standing == Connected
      modifies this
      ensures Alike(Now(), Handled(old(Now()), ZonesCount(request, count), order))
    {
      hide FinishedIfReady, Counted;
      if request !in pending {
        return;
      }
      SetExpected(request, count);
      FinishIfReady(request, order);
    }

    method ServerAddInterest(id: InterestId, i: Interest, caller: nat, order: Ordering)
      requires standing == Connected
      modifies this
      ensures Alike(Now(), Handled(old(Now()), ClientInterests.AddInterest(id, i, caller), order))
    {
      hide Added;
      var context := TakeContext();
      outbox := outbox + [InterestOpened(id, context)];
      AddInterest(id, i, context, caller, order);
    }

    method ServerRemoveInterest(id: InterestId, caller: nat, order: Ordering)
      requires standing == Connected
      modifies this
      ensures Alike(Now(), Handled(old(Now()), ClientInterests.RemoveInterest(id, caller), order))
    {
      hide Dropped;
      if id !in interests {
        return;
      }
      var context := TakeContext();
      outbox := outbox + [InterestClosed(id, context)];
      RemoveInterest(id, context, caller, order);
    }

    method TakeContext() returns (context: Context)
      modifies `nextContext
      ensures context == old(nextContext) && nextContext == context + 1
    {
      context := nextContext;
      nextContext := nextContext + 1;
    }

    method QueueExpected(request: Context, g: Generate)
      requires request in pending
      modifies `pending, `pendingObjects
      ensures request in pending && Now() == Expected(old(Now()), request, g)
    {
      if g.d !in pendingObjects {
        pendingObjects := pendingObjects[g.d := request];
      }
      var op := pending[request];
      pending := pending[request := op.(generates := op.generates + [g])];
    }

    method SetExpected(request: Context, count: nat)
      requires request in pending
      modifies `pending
      ensures request in pending && Now() == Counted(old(Now()), request, count)
    {
      var op := pending[request];
      if op.total.None? {
        op := op.(total := Some(count));
      }
      pending := pending[request := op];
    }

    method FinishIfReady(request: Context, order: Ordering)
      requires request in pending && standing == Connected
      modifies this
      ensures Alike(Now(), FinishedIfReady(old(Now()), request, order))
    {
      hide Finished;
      if Ready(pending[request]) {
        Finish(request, order);
      }
    }

    method ChangeOwner(d: Doid, toUs: bool)
      modifies this
      ensures Now() == Handled(old(Now()), ChangingOwner(d, toUs), Ordering([], []))
    {
      if toUs || d !in owned {
        return;
      }
      if d in session {
        standing := Ejected;
        return;
      }
      outbox := outbox + [LeavingAsOwner(d)];
      owned := owned - {d};
    }

    method IsPermitted(parent: Doid) returns (permitted: bool)
      ensures permitted == Permitted(Now(), parent)
    {
      if permission == InterestsVisible {
        permitted := LookupObject(parent);
      } else {
        permitted := permission != InterestsDisabled;
      }
    }

    method HandleClientAddInterest(id: InterestId, i: Interest, context: Context, order: Ordering)
      requires standing == Connected
      modifies this
      ensures Alike(Now(), Opened(old(Now()), id, i, context, order))
    {
      hide Added;
      var permitted := IsPermitted(i.parent);
      if !permitted {
        standing := Ejected;
        return;
      }
      AddInterest(id, i, context, 0, order);
    }

    method HandleClientRemoveInterest(id: InterestId, context: Context, order: Ordering)
      requires standing == Connected
      modifies this
      ensures Alike(Now(), Shut(old(Now()), id, context, order))
    {
      hide Dropped;
      if id !in interests {
        standing := Ejected;
        return;
      }
      var permitted := IsPermitted(interests[id].parent);
      if !permitted {
        standing := Ejected;
        return;
      }
      RemoveInterest(id, context, 0, order);
    }

    // ----- The events, each of which keeps the client valid -----

    method Deliver(g: Datagram, order: Ordering)
      requires Valid() && standing == Connected
      modifies this
      ensures Valid() && Alike(Now(), Next(old(Now()), Receive(g, order)))
    {
      hide Handled, ListensToInterests, ViewsAgree;
      StepKeeps(Now(), Receive(g, order));
      HandleDatagram(g, order);
    }

    method OpenInterest(id: InterestId, i: Interest, context: Context, order: Ordering)
      requires Valid() && standing == Connected
      modifies this
      ensures Valid() && Alike(Now(), Next(old(Now()), Open(id, i, context, order)))
    {
      hide Opened, ListensToInterests, ViewsAgree;
      StepKeeps(Now(), Open(id, i, context, order));
      HandleClientAddInterest(id, i, context, order);
    }

    method ShutInterest(id: InterestId, context: Context, order: Ordering)
      requires Valid() && standing == Connected
      modifies this
      ensures Valid() && Alike(Now(), Next(old(Now()), Shutting(id, context, order)))
    {
      hide Shut, ListensToInterests, ViewsAgree;
      StepKeeps(Now(), Shutting(id, context, order));
      HandleClientRemoveInterest(id, context, order);
    }

    method TimeOut(request: Context, order: Ordering)
      requires Valid() && standing == Connected && request in pending
      modifies this
      ensures Valid() && Alike(Now(), Next(old(Now()), Timeout(request, order)))
    {
      hide Finished, ListensToInterests, ViewsAgree;
      StepKeeps(Now(), Timeout(request, order));
      Finish(request, order);
    }
  }

  lemma StepKeeps(s: State, e: Event)
    requires s.standing == Connected && ListensToInterests(s) && ViewsAgree(s)
    ensures Next(s, e).standing == Connected ==> ListensToInterests(Next(s, e)) && ViewsAgree(Next(s, e))
  {
    hide ListensToInterests, ViewsAgree, Next;
    StepViews(s, e);
    if Next(s, e).standing == Connected { StepListens(s, e); }
  }
}
