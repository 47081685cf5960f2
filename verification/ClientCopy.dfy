/** What a client makes of the datagrams it is sent: a copy of what it sees and owns, which
    is what the agent believes it sees and owns. */
module ClientCopy {
  import opened ClientInterests
  import opened ClientRuns
  import opened ClientPending
  import opened ClientRequests

  /** left: what has ever gone out of view. */
  datatype Copy = Copy(seen: map<Doid, Location>, owned: set<Doid>, left: set<Doid>)

  function Follow(c: Copy, m: Sent): Copy {
    match m
    case Enter(d, at) => c.(seen := c.seen[d := at])
    case Leaving(d) => c.(seen := c.seen - {d}, left := c.left + {d})
    case Moved(d, at) => if d in c.seen then c.(seen := c.seen[d := at]) else c
    case EnterAsOwner(d, _) => c.(owned := c.owned + {d})
    case LeavingAsOwner(d) => c.(owned := c.owned - {d})
    case _ => c
  }

  function Followed(outbox: seq<Sent>): Copy {
    if outbox == [] then Copy(map[], {}, {}) else Follow(Followed(outbox[..|outbox|-1]), outbox[|outbox|-1])
  }

  lemma FollowedMore(outbox: seq<Sent>, m: Sent)
    ensures Followed(outbox + [m]) == Follow(Followed(outbox), m)
  {
    assert (outbox + [m])[..|outbox|] == outbox;
  }

  lemma OneMoreLeaving(outbox: seq<Sent>, objects: seq<Doid>)
    requires objects != []
    ensures outbox + Leavings(objects) == outbox + Leavings(objects[..|objects|-1]) + [Leaving(objects[|objects|-1])]
  {
    assert Leavings(objects) == Leavings(objects[..|objects|-1]) + [Leaving(objects[|objects|-1])];
  }

  lemma {:induction false} LeavingsFollowed(outbox: seq<Sent>, objects: seq<Doid>)
    ensures var c := Followed(outbox);
            Followed(outbox + Leavings(objects)) == c.(seen := c.seen - Members(objects), left := c.left + Members(objects))
    decreases |objects|
  {
    if objects == [] {
      assert outbox + Leavings(objects) == outbox;
      assert Members(objects) == {};
    } else {
      hide Followed;
      var front, d := objects[..|objects|-1], objects[|objects|-1];
      LeavingsFollowed(outbox, front);
      OneMoreLeaving(outbox, objects);
      FollowedMore(outbox + Leavings(front), Leaving(d));
      assert objects == front + [d];
      assert Members(objects) == Members(front) + {d};
    }
  }

  // ----- The copy is true -----

  /** A client that is cut off is not told everything any more. */
  ghost predicate Mirrors(s: State) {
    s.standing == Connected ==>
      var c := Followed(s.outbox);
      s.seen == s.visible.Keys && c.seen == s.visible && c.owned == s.owned.Keys && c.left <= s.historical
  }

  /** Nothing said that concerns the copy. */
  predicate Unrelated(m: Sent) {
    !m.Enter? && !m.Leaving? && !m.Moved? && !m.EnterAsOwner? && !m.LeavingAsOwner?
  }

  lemma {:induction false} AsideFollowed(outbox: seq<Sent>, more: seq<Sent>)
    requires forall k | 0 <= k < |more| :: Unrelated(more[k])
    ensures Followed(outbox + more) == Followed(outbox)
    decreases |more|
  {
    if more == [] {
      assert outbox + more == outbox;
    } else {
      assert (outbox + more)[..|outbox + more|-1] == outbox + more[..|more|-1];
      AsideFollowed(outbox, more[..|more|-1]);
    }
  }

  lemma AsideMirrors(s: State, t: State, more: seq<Sent>)
    requires Mirrors(s) && (t.standing == Connected ==> s.standing == Connected)
    requires t.outbox == s.outbox + more && t.seen == s.seen && t.visible == s.visible && t.owned == s.owned && t.historical == s.historical
    requires forall k | 0 <= k < |more| :: Unrelated(more[k])
    ensures Mirrors(t)
  {
    AsideFollowed(s.outbox, more);
  }

  lemma EnteredMirrors(s: State, d: Doid, at: Location)
    requires Mirrors(s)
    ensures Mirrors(Entered(s, d, at))
  {
    hide Followed;
    FollowedMore(s.outbox, Enter(d, at));
  }

  lemma {:induction false} SnapshotMirrors(s: State, generates: seq<Generate>)
    requires Mirrors(s)
    ensures Mirrors(AllEntered(s, generates))
    decreases |generates|
  {
    if generates != [] {
      hide Mirrors, Entered;
      SnapshotMirrors(s, generates[..|generates|-1]);
      EnteredMirrors(AllEntered(s, generates[..|generates|-1]), generates[|generates|-1].d, generates[|generates|-1].at);
    }
  }

  lemma RelocatedMeans(s: State, d: Doid, at: Location)
    ensures var t := Relocated(s, d, at);
            && t.outbox == s.outbox && t.seen == s.seen && t.standing == s.standing && t.session == s.session && t.historical == s.historical
            && t.owned.Keys == s.owned.Keys
            && t.visible == if d in s.visible then s.visible[d := at] else s.visible
  {
  }

  lemma ChangedMirrors(s: State, d: Doid, at: Location)
    requires Mirrors(s)
    ensures Mirrors(ChangedLocation(s, d, at))
  {
    hide Mirrors, Holders, Relocated, OutOfView, Say;
    MovedMirrors(s, d, at);
    if d in s.visible { HiddenMirrors(s, d, at); }
    CutOffMirrors(Relocated(s, d, at).(standing := Ejected));
  }

  lemma CutOffMirrors(s: State)
    requires s.standing != Connected
    ensures Mirrors(s)
  {
  }

  lemma MovedMirrors(s: State, d: Doid, at: Location)
    requires Mirrors(s)
    ensures Mirrors(Say(Relocated(s, d, at), Moved(d, at)))
  {
    hide Followed, Relocated;
    RelocatedMeans(s, d, at);
    FollowedMore(s.outbox, Moved(d, at));
  }

  lemma HiddenMirrors(s: State, d: Doid, at: Location)
    requires Mirrors(s) && d in s.visible
    ensures Mirrors(OutOfView(Relocated(s, d, at), d))
  {
    hide Followed, Relocated;
    RelocatedMeans(s, d, at);
    FollowedMore(s.outbox, Leaving(d));
    assert s.visible[d := at] - {d} == s.visible - {d};
  }

  lemma DeletedMirrors(s: State, d: Doid)
    requires Mirrors(s)
    ensures Mirrors(Deleted(s, d))
  {
    hide Followed;
    var left := if d in s.seen then [Leaving(d)] else [];
    var lost := if d in s.owned then [LeavingAsOwner(d)] else [];
    FollowedMore(s.outbox, Leaving(d));
    FollowedMore(s.outbox + left, LeavingAsOwner(d));
    assert s.outbox + [] == s.outbox && s.outbox + left + [] == s.outbox + left;
    assert d !in s.visible ==> s.visible - {d} == s.visible;
    assert d !in s.owned ==> s.owned - {d} == s.owned;
  }

  lemma UpdatedMirrors(s: State, u: ObjectUpdate, order: Ordering)
    requires Mirrors(s)
    ensures Mirrors(Updated(s, u, order))
  {
    hide Entered, ChangedLocation, Deleted, Knows, FirstCovering, Followed, Mirrors;
    match u {
      case EnterLocation(d, at) =>
        EnteredMirrors(s, d, at);
        if FirstCovering(s.pending, order.requests, at).Some? { AsideMirrors(s, Updated(s, u, order), []); }
      case ChangingLocation(d, at) =>
        ChangedMirrors(s, d, at);
        if d in s.pendingObjects { AsideMirrors(s, Updated(s, u, order), []); }
      case DeleteRam(d) =>
        DeletedMirrors(s, d);
        if !Knows(s, d) { AsideMirrors(s, Updated(s, u, order), []); }
      case SetField(d) =>
        AsideMirrors(s, Updated(s, u, order), if Knows(s, d) then [FieldUpdate(d)] else []);
    }
  }

  lemma {:induction false} DispatchMirrors(s: State, datagrams: seq<ObjectUpdate>, order: Ordering)
    requires Mirrors(s)
    ensures Mirrors(Dispatched(s, datagrams, order))
    decreases |datagrams|
  {
    if datagrams != [] && s.standing == Connected {
      hide Updated, Mirrors;
      UpdatedMirrors(s, datagrams[0], order);
      DispatchMirrors(Updated(s, datagrams[0], order), datagrams[1..], order);
    }
  }

  lemma FinishMirrors(s: State, request: Context, order: Ordering)
    requires request in s.pending && Mirrors(s)
    ensures Mirrors(Finished(s, request, order))
  {
    hide AllEntered, Dispatched, Mirrors;
    var op := s.pending[request];
    var entered := AllEntered(s, op.generates);
    var shown := Announced(entered, op);
    SnapshotMirrors(s, op.generates);
    AsideMirrors(entered, shown.(pending := shown.pending - {request}), [NotifyCaller(op.caller, op.id), InterestDone(op.id, op.context)]);
    DispatchMirrors(shown.(pending := shown.pending - {request}), op.datagrams, order);
  }

  lemma ClosedMirrors(s: State, parent: Doid, zones: set<Zone>, order: Ordering)
    requires Mirrors(s)
    ensures Mirrors(Closed(s, parent, zones, order))
  {
    hide Followed, Closing;
    LeavingsFollowed(s.outbox, Closing(s.visible, order.objects, parent, zones));
  }

  lemma DoneMirrors(s: State, t: State, id: InterestId, context: Context, caller: nat)
    requires Mirrors(s) && t == DoneAtOnce(s, id, context, caller)
    ensures Mirrors(t)
  {
    hide Mirrors;
    AsideMirrors(s, t, Notified(caller, id) + [InterestDone(id, context)]);
  }

  lemma AddedMirrors(s: State, id: InterestId, i: Interest, context: Context, caller: nat, order: Ordering)
    requires Mirrors(s)
    ensures Mirrors(Added(s, id, i, context, caller, order))
  {
    hide Closed, NewZones, AlteredZones, Mirrors, DoneAtOnce, Requested;
    var closed := if id in s.interests then Closed(s, s.interests[id].parent, AlteredZones(s.interests, id, i), order) else s;
    if id in s.interests { ClosedMirrors(s, s.interests[id].parent, AlteredZones(s.interests, id, i), order); }
    var altered := closed.(interests := closed.interests[id := i]);
    AsideMirrors(closed, altered, []);
    DoneMirrors(altered, DoneAtOnce(altered, id, context, caller), id, context, caller);
    RequestedMirrors(altered, id, i, NewZones(s.interests, i), context, caller);
  }

  lemma RequestedMirrors(s: State, id: InterestId, i: Interest, zones: set<Zone>, context: Context, caller: nat)
    requires Mirrors(s)
    ensures Mirrors(Requested(s, id, i, zones, context, caller))
  {
    hide Mirrors;
    AsideMirrors(s, Requested(s, id, i, zones, context, caller), [GetZonesObjects(s.nextContext, i.parent, zones)]);
  }

  lemma DroppedMirrors(s: State, id: InterestId, context: Context, caller: nat, order: Ordering)
    requires id in s.interests && Mirrors(s)
    ensures Mirrors(Dropped(s, id, context, caller, order))
  {
    hide Closed, RemovedZones, Mirrors, DoneAtOnce;
    var closed := Closed(s, s.interests[id].parent, RemovedZones(s.interests, id), order);
    ClosedMirrors(s, s.interests[id].parent, RemovedZones(s.interests, id), order);
    var done := DoneAtOnce(closed, id, context, caller);
    DoneMirrors(closed, done, id, context, caller);
    AsideMirrors(done, done.(interests := done.interests - {id}), []);
  }

  lemma ReceiveMirrors(s: State, g: Datagram, order: Ordering)
    requires Mirrors(s) && s.standing == Connected
    ensures Mirrors(Handled(s, g, order))
  {
    hide Finished, Added, Dropped, Updated, Ready, Mirrors, Followed;
    var t := Handled(s, g, order);
    match g {
      case Update(u) => UpdatedMirrors(s, u, order);
      case EnterInterest(r, d, at) =>
        if r in s.pending {
          var learned := Expected(s, r, Generate(d, at));
          AsideMirrors(s, learned, []);
          if Ready(learned.pending[r]) { FinishMirrors(learned, r, order); }
        }
      case ZonesCount(r, count) =>
        if r in s.pending {
          var learned := Counted(s, r, count);
          AsideMirrors(s, learned, []);
          if Ready(learned.pending[r]) { FinishMirrors(learned, r, order); }
        }
      case EnterOwner(d, at) => OwnershipMirrors(s, g, order);
      case ChangingOwner(d, _) => OwnershipMirrors(s, g, order);
      case AddInterest(id, i, caller) =>
        var said := Say(s.(nextContext := s.nextContext + 1), InterestOpened(id, s.nextContext));
        AsideMirrors(s, said, [InterestOpened(id, s.nextContext)]);
        AddedMirrors(said, id, i, s.nextContext, caller, order);
      case RemoveInterest(id, caller) =>
        var said := Say(s.(nextContext := s.nextContext + 1), InterestClosed(id, s.nextContext));
        AsideMirrors(s, said, [InterestClosed(id, s.nextContext)]);
        if id in s.interests { DroppedMirrors(said, id, s.nextContext, caller, order); }
      case _ => AsideMirrors(s, t, []);
    }
  }

  lemma OwnershipMirrors(s: State, g: Datagram, order: Ordering)
    requires Mirrors(s) && s.standing == Connected && (g.EnterOwner? || g.ChangingOwner?)
    ensures Mirrors(Handled(s, g, order))
  {
    hide Followed;
    FollowedMore(s.outbox, if g.EnterOwner? then EnterAsOwner(g.d, g.at) else LeavingAsOwner(g.d));
  }

  lemma StepMirrors(s: State, e: Event)
    requires Mirrors(s)
    ensures Mirrors(Next(s, e))
  {
    hide Finished, Handled, Added, Dropped, Permitted, Mirrors;
    if s.standing == Connected {
      match e {
        case Receive(g, order) => ReceiveMirrors(s, g, order);
        case Open(id, i, context, order) =>
          AddedMirrors(s, id, i, context, 0, order);
          if !Permitted(s, i.parent) { AsideMirrors(s, Next(s, e), []); }
        case Shutting(id, context, order) =>
          if id in s.interests { DroppedMirrors(s, id, context, 0, order); }
          if id !in s.interests || !Permitted(s, s.interests[id].parent) { AsideMirrors(s, Next(s, e), []); }
        case Timeout(r, order) =>
          if r in s.pending { FinishMirrors(s, r, order); }
      }
    }
  }

  lemma {:induction false} RunMirrors(uberdogs: set<Doid>, permission: Permission, events: seq<Event>)
    ensures Mirrors(After(Fresh(uberdogs, permission), events))
    decreases |events|
  {
    if events != [] {
      hide Next, Mirrors;
      RunMirrors(uberdogs, permission, events[..|events|-1]);
      StepMirrors(After(Fresh(uberdogs, permission), events[..|events|-1]), events[|events|-1]);
    }
  }

  /** As long as it is connected, a client that follows the datagrams it is sent has what
      the agent has: the objects in view, each at its place, and the objects it owns. What
      was ever taken out of its view the agent remembers. */
  lemma CopyIsTrue(uberdogs: set<Doid>, permission: Permission, events: seq<Event>)
    ensures var s := After(Fresh(uberdogs, permission), events);
            var c := Followed(s.outbox);
            s.standing == Connected ==> c.seen == s.visible && c.owned == s.owned.Keys && c.left <= s.historical
  {
    RunMirrors(uberdogs, permission, events);
  }

  // ----- What reaches the copy -----

  /** Objects the client is told about without seeing or owning them. */
  predicate Declared(s: State, d: Doid) {
    d in s.uberdogs || d in s.declared
  }

  /** A field of an object is passed on exactly if the client has the object, or the object
      was announced to it. */
  lemma FieldsReachTheCopy(uberdogs: set<Doid>, permission: Permission, events: seq<Event>, d: Doid, order: Ordering)
    requires After(Fresh(uberdogs, permission), events).standing == Connected
    ensures var s := After(Fresh(uberdogs, permission), events);
            var c, t := Followed(s.outbox), Next(s, Receive(Update(SetField(d)), order));
            t.outbox == s.outbox + if d in c.seen || d in c.owned || Declared(s, d) then [FieldUpdate(d)] else []
  {
    hide After, Followed;
    RunMirrors(uberdogs, permission, events);
    var s := After(Fresh(uberdogs, permission), events);
    assert s.outbox + [] == s.outbox;
  }

  /** A move is passed on if the client has the object; but what it sees go where no
      interest of its own looks leaves its view, and costs the connection if it is a
      session object that it does not own. */
  lemma MovesReachTheCopy(uberdogs: set<Doid>, permission: Permission, events: seq<Event>, d: Doid, at: Location, order: Ordering)
    requires After(Fresh(uberdogs, permission), events).standing == Connected
    requires d !in After(Fresh(uberdogs, permission), events).pendingObjects
    ensures var s := After(Fresh(uberdogs, permission), events);
            var c, t := Followed(s.outbox), Next(s, Receive(Update(ChangingLocation(d, at)), order));
            var lost := d in c.seen && !InView(s.interests, at);
            && t.standing == (if lost && d in s.session && d !in c.owned then Ejected else Connected)
            && (t.standing == Connected ==>
                  t.outbox == s.outbox +
                    if d !in c.seen && d !in c.owned then []
                    else if lost && d !in s.session then [Leaving(d)] else [Moved(d, at)])
  {
    hide After, Followed, Holders;
    RunMirrors(uberdogs, permission, events);
    var s := After(Fresh(uberdogs, permission), events);
    InViewMeansHeld(s.interests, at);
    assert s.outbox + [] == s.outbox;
  }

  /** A deletion takes away what the client has, and the connection with a session object. */
  lemma DeletionsReachTheCopy(uberdogs: set<Doid>, permission: Permission, events: seq<Event>, d: Doid, order: Ordering)
    requires After(Fresh(uberdogs, permission), events).standing == Connected
    ensures var s := After(Fresh(uberdogs, permission), events);
            var c, t := Followed(s.outbox), Next(s, Receive(Update(DeleteRam(d)), order));
            var has := d in c.seen || d in c.owned || Declared(s, d);
            && (has ==> t.standing == if d in s.session then Ejected else Connected)
            && (has && d !in s.session ==>
                  t.outbox == s.outbox + (if d in c.seen then [Leaving(d)] else []) + (if d in c.owned then [LeavingAsOwner(d)] else []))
            && (!has ==> t.outbox == s.outbox)
  {
    hide After, Followed;
    RunMirrors(uberdogs, permission, events);
  }

  /** An object that enters where no unfinished request looks is shown, unless the client
      has it in view or it is its own session object. */
  lemma EntriesReachTheCopy(uberdogs: set<Doid>, permission: Permission, events: seq<Event>, d: Doid, at: Location, order: Ordering)
    requires After(Fresh(uberdogs, permission), events).standing == Connected
    requires forall c | c in After(Fresh(uberdogs, permission), events).pending ::
               !OperationCovers(After(Fresh(uberdogs, permission), events).pending[c], at)
    ensures var s := After(Fresh(uberdogs, permission), events);
            var c, t := Followed(s.outbox), Next(s, Receive(Update(EnterLocation(d, at)), order));
            && t.standing == Connected
            && t.outbox == s.outbox + if d in c.seen || (d in c.owned && d in s.session) then [] else [Enter(d, at)]
  {
    hide After, Followed;
    RunMirrors(uberdogs, permission, events);
    var s := After(Fresh(uberdogs, permission), events);
    assert s.outbox + [] == s.outbox;
  }

  /** What a client may look at of its own accord: anything, what it has or was told of, or
      nothing. */
  predicate MayLook(s: State, parent: Doid) {
    var c := Followed(s.outbox);
    || s.permission == InterestsEnabled
    || (s.permission == InterestsVisible && (parent in c.seen || parent in c.owned || Declared(s, parent)))
  }

  /** Asking for an interest costs the connection exactly if the client may not look there,
      or if altering the interest takes a session object out of view. */
  lemma OpeningCutsOffExactly(uberdogs: set<Doid>, permission: Permission, events: seq<Event>, id: InterestId, i: Interest, context: Context, order: Ordering)
    requires After(Fresh(uberdogs, permission), events).standing == Connected
    requires WalksObjects(After(Fresh(uberdogs, permission), events), order)
    ensures var s := After(Fresh(uberdogs, permission), events);
            var after := s.interests[id := i];
            Next(s, Open(id, i, context, order)).standing
              == if !MayLook(s, i.parent) || exists d :: LosesSession(s, after, d) then Ejected else Connected
  {
    hide After, Followed, Added;
    RunMirrors(uberdogs, permission, events);
    AlteringCutsOffExactly(After(Fresh(uberdogs, permission), events), id, i, context, 0, order);
  }

  /** The same of giving one up, which must be open. */
  lemma ShuttingCutsOffExactly(uberdogs: set<Doid>, permission: Permission, events: seq<Event>, id: InterestId, context: Context, order: Ordering)
    requires After(Fresh(uberdogs, permission), events).standing == Connected
    requires WalksObjects(After(Fresh(uberdogs, permission), events), order)
    ensures var s := After(Fresh(uberdogs, permission), events);
            var after := s.interests - {id};
            var refused := id !in s.interests || !MayLook(s, s.interests[id].parent);
            Next(s, Shutting(id, context, order)).standing
              == if refused || exists d :: LosesSession(s, after, d) then Ejected else Connected
  {
    hide After, Followed, Dropped;
    RunMirrors(uberdogs, permission, events);
    var s := After(Fresh(uberdogs, permission), events);
    if id in s.interests {
      ClosingCutsOffExactly(s, id, context, 0, order);
    }
  }

  // ----- Nothing is made up -----

  /** The datagrams about objects that came, an entry into an interest being one of them. */
  function Came(events: seq<Event>): set<ObjectUpdate> {
    if events == [] then {}
    else
      Came(events[..|events|-1]) +
        match events[|events|-1]
        case Receive(Update(u), _) => {u}
        case Receive(EnterInterest(_, d, at), _) => {EnterLocation(d, at)}
        case _ => {}
  }

  predicate Justified(m: Sent, came: set<ObjectUpdate>) {
    match m
    case Enter(d, at) => EnterLocation(d, at) in came
    case Moved(d, at) => ChangingLocation(d, at) in came
    case FieldUpdate(d) => SetField(d) in came
    case _ => true
  }

  predicate FromWhatCame(op: Operation, came: set<ObjectUpdate>) {
    && (forall g | g in op.generates :: EnterLocation(g.d, g.at) in came)
    && (forall u | u in op.datagrams :: u in came)
  }

  ghost predicate Sourced(s: State, came: set<ObjectUpdate>) {
    && (forall m | m in s.outbox :: Justified(m, came))
    && (forall c | c in s.pending :: FromWhatCame(s.pending[c], came))
  }

  lemma SourcedMore(s: State, t: State, more: seq<Sent>, came: set<ObjectUpdate>)
    requires Sourced(s, came) && t.outbox == s.outbox + more
    requires forall m | m in more :: Justified(m, came)
    requires forall c | c in t.pending :: (c in s.pending && t.pending[c] == s.pending[c]) || FromWhatCame(t.pending[c], came)
    ensures Sourced(t, came)
  {
  }

  lemma EnteredSourced(s: State, d: Doid, at: Location, came: set<ObjectUpdate>)
    requires Sourced(s, came) && EnterLocation(d, at) in came
    ensures Sourced(Entered(s, d, at), came)
  {
    hide Sourced, FromWhatCame;
    var t := Entered(s, d, at);
    SourcedMore(s, t, if t.outbox == s.outbox then [] else [Enter(d, at)], came);
  }

  lemma {:induction false} SnapshotSourced(s: State, generates: seq<Generate>, came: set<ObjectUpdate>)
    requires Sourced(s, came) && forall g | g in generates :: EnterLocation(g.d, g.at) in came
    ensures Sourced(AllEntered(s, generates), came)
    decreases |generates|
  {
    if generates != [] {
      hide Sourced, Entered;
      var front, last := generates[..|generates|-1], generates[|generates|-1];
      assert last in generates && forall g | g in front :: g in generates;
      SnapshotSourced(s, front, came);
      EnteredSourced(AllEntered(s, front), last.d, last.at, came);
    }
  }

  lemma HeldSourced(s: State, request: Context, u: ObjectUpdate, came: set<ObjectUpdate>)
    requires Sourced(s, came) && request in s.pending && u in came
    ensures Sourced(HeldBack(s, request, u), came)
  {
    var t := HeldBack(s, request, u);
    assert forall v | v in t.pending[request].datagrams :: v in s.pending[request].datagrams || v == u;
  }

  lemma UpdatedSourced(s: State, u: ObjectUpdate, order: Ordering, came: set<ObjectUpdate>)
    requires Sourced(s, came) && u in came
    ensures Sourced(Updated(s, u, order), came)
  {
    hide Sourced, Entered, ChangedLocation, Deleted, Knows, HeldBack, FromWhatCame;
    var t := Updated(s, u, order);
    match u {
      case EnterLocation(d, at) =>
        EnteredSourced(s, d, at, came);
        var covering := FirstCovering(s.pending, order.requests, at);
        if covering.Some? {
          HeldSourced(s, covering.value, u, came);
          SourcedMore(HeldBack(s, covering.value, u), t, [], came);
        }
      case _ =>
        PlainUpdate(s, u);
        if u.d in s.pendingObjects && t == Queued(s, u) {
          if s.pendingObjects[u.d] in s.pending { HeldSourced(s, s.pendingObjects[u.d], u, came); }
          else { SourcedMore(s, t, [], came); }
        } else {
          PlainSays(s, u, order);
          SourcedMore(s, t, t.outbox[|s.outbox|..], came);
        }
    }
  }

  lemma PlainSays(s: State, u: ObjectUpdate, order: Ordering)
    requires !u.EnterLocation? && !(u.d in s.pendingObjects && Updated(s, u, order) == Queued(s, u))
    ensures s.outbox <= Updated(s, u, order).outbox
    ensures forall m | m in Updated(s, u, order).outbox[|s.outbox|..] :: Justified(m, {u})
  {
    hide ChangedLocation, Deleted, Knows, HeldBack;
    if u.ChangingLocation? { MoveSays(s, u.d, u.at); }
    if u.DeleteRam? { DeletionSays(s, u.d); }
  }

  lemma MoveSays(s: State, d: Doid, at: Location)
    ensures s.outbox <= ChangedLocation(s, d, at).outbox
    ensures forall m | m in ChangedLocation(s, d, at).outbox[|s.outbox|..] :: Justified(m, {ChangingLocation(d, at)})
  {
    hide Holders, Relocated;
    RelocatedMeans(s, d, at);
  }

  lemma DeletionSays(s: State, d: Doid)
    ensures s.outbox <= Deleted(s, d).outbox
    ensures forall m | m in Deleted(s, d).outbox[|s.outbox|..] :: m.Leaving? || m.LeavingAsOwner?
  {
  }

  lemma {:induction false} DispatchSourced(s: State, datagrams: seq<ObjectUpdate>, order: Ordering, came: set<ObjectUpdate>)
    requires Sourced(s, came) && forall u | u in datagrams :: u in came
    ensures Sourced(Dispatched(s, datagrams, order), came)
    decreases |datagrams|
  {
    if datagrams != [] && s.standing == Connected {
      hide Updated, Sourced;
      assert datagrams[0] in datagrams && forall u | u in datagrams[1..] :: u in datagrams;
      UpdatedSourced(s, datagrams[0], order, came);
      DispatchSourced(Updated(s, datagrams[0], order), datagrams[1..], order, came);
    }
  }

  lemma FinishSourced(s: State, request: Context, order: Ordering, came: set<ObjectUpdate>)
    requires request in s.pending && Sourced(s, came)
    ensures Sourced(Finished(s, request, order), came)
  {
    hide AllEntered, Dispatched, Sourced;
    var op := s.pending[request];
    assert FromWhatCame(op, came) by { SourcedOne(s, request, came); }
    var entered := AllEntered(s, op.generates);
    var shown := Announced(entered, op);
    SnapshotSourced(s, op.generates, came);
    SourcedMore(entered, shown.(pending := shown.pending - {request}), [NotifyCaller(op.caller, op.id), InterestDone(op.id, op.context)], came);
    DispatchSourced(shown.(pending := shown.pending - {request}), op.datagrams, order, came);
  }

  lemma SourcedOne(s: State, request: Context, came: set<ObjectUpdate>)
    requires request in s.pending && Sourced(s, came)
    ensures FromWhatCame(s.pending[request], came)
  {
  }

  lemma ClosedSourced(s: State, parent: Doid, zones: set<Zone>, order: Ordering, came: set<ObjectUpdate>)
    requires Sourced(s, came)
    ensures Sourced(Closed(s, parent, zones, order), came)
  {
    hide Closing;
  }

  lemma DoneSourced(s: State, id: InterestId, context: Context, caller: nat, came: set<ObjectUpdate>)
    requires Sourced(s, came)
    ensures Sourced(DoneAtOnce(s, id, context, caller), came)
  {
    hide Sourced, FromWhatCame;
    var more := Notified(caller, id) + [InterestDone(id, context)];
    assert forall m | m in more :: m.NotifyCaller? || m.InterestDone?;
    assert s.outbox + more == s.outbox + Notified(caller, id) + [InterestDone(id, context)];
    SourcedMore(s, DoneAtOnce(s, id, context, caller), more, came);
  }

  lemma AddedSourced(s: State, id: InterestId, i: Interest, context: Context, caller: nat, order: Ordering, came: set<ObjectUpdate>)
    requires Sourced(s, came)
    ensures Sourced(Added(s, id, i, context, caller, order), came)
  {
    hide Closed, NewZones, AlteredZones, DoneAtOnce, Sourced;
    var closed := if id in s.interests then Closed(s, s.interests[id].parent, AlteredZones(s.interests, id, i), order) else s;
    if id in s.interests { ClosedSourced(s, s.interests[id].parent, AlteredZones(s.interests, id, i), order, came); }
    var altered := closed.(interests := closed.interests[id := i]);
    SourcedMore(closed, altered, [], came);
    DoneSourced(altered, id, context, caller, came);
    var zones := NewZones(s.interests, i);
    SourcedMore(altered, Requested(altered, id, i, zones, context, caller), [GetZonesObjects(altered.nextContext, i.parent, zones)], came);
  }

  lemma DroppedSourced(s: State, id: InterestId, context: Context, caller: nat, order: Ordering, came: set<ObjectUpdate>)
    requires id in s.interests && Sourced(s, came)
    ensures Sourced(Dropped(s, id, context, caller, order), came)
  {
    hide Closed, RemovedZones, DoneAtOnce, Sourced;
    var closed := Closed(s, s.interests[id].parent, RemovedZones(s.interests, id), order);
    ClosedSourced(s, s.interests[id].parent, RemovedZones(s.interests, id), order, came);
    var done := DoneAtOnce(closed, id, context, caller);
    DoneSourced(closed, id, context, caller, came);
    SourcedMore(done, done.(interests := done.interests - {id}), [], came);
  }

  lemma MoreCame(s: State, less: set<ObjectUpdate>, more: set<ObjectUpdate>)
    requires Sourced(s, less) && less <= more
    ensures Sourced(s, more)
  {
    forall m | m in s.outbox ensures Justified(m, more) { assert Justified(m, less); }
    forall c | c in s.pending ensures FromWhatCame(s.pending[c], more) { assert FromWhatCame(s.pending[c], less); }
  }

  lemma LearnedSourced(s: State, g: Datagram, order: Ordering, came: set<ObjectUpdate>)
    requires Sourced(s, came) && (g.EnterInterest? || g.ZonesCount?)
    requires g.EnterInterest? ==> EnterLocation(g.d, g.at) in came
    ensures Sourced(Handled(s, g, order), came)
  {
    hide Finished, Sourced, Ready;
    if g.request in s.pending {
      SourcedOne(s, g.request, came);
      var learned := if g.EnterInterest? then Expected(s, g.request, Generate(g.d, g.at)) else Counted(s, g.request, g.count);
      var op := learned.pending[g.request];
      assert forall e | e in op.generates :: e in s.pending[g.request].generates || (g.EnterInterest? && e == Generate(g.d, g.at));
      SourcedMore(s, learned, [], came);
      if Ready(op) { FinishSourced(learned, g.request, order, came); }
    }
  }

  lemma ReceiveSourced(s: State, g: Datagram, order: Ordering, came: set<ObjectUpdate>)
    requires Sourced(s, came) && (g.EnterInterest? ==> EnterLocation(g.d, g.at) in came) && (g.Update? ==> g.update in came)
    ensures Sourced(Handled(s, g, order), came)
  {
    hide Finished, Added, Dropped, Updated, Sourced, FinishedIfReady, FromWhatCame;
    var t := Handled(s, g, order);
    match g {
      case Update(u) => UpdatedSourced(s, u, order, came);
      case EnterInterest(_, _, _) => LearnedSourced(s, g, order, came);
      case ZonesCount(_, _) => LearnedSourced(s, g, order, came);
      case EnterOwner(d, at) => SourcedMore(s, t, [EnterAsOwner(d, at)], came);
      case ChangingOwner(d, _) => SourcedMore(s, t, if t.outbox == s.outbox then [] else [LeavingAsOwner(d)], came);
      case AddInterest(id, i, caller) =>
        var said := Say(s.(nextContext := s.nextContext + 1), InterestOpened(id, s.nextContext));
        SourcedMore(s, said, [InterestOpened(id, s.nextContext)], came);
        AddedSourced(said, id, i, s.nextContext, caller, order, came);
      case RemoveInterest(id, caller) =>
        var said := Say(s.(nextContext := s.nextContext + 1), InterestClosed(id, s.nextContext));
        SourcedMore(s, said, [InterestClosed(id, s.nextContext)], came);
        if id in s.interests { DroppedSourced(said, id, s.nextContext, caller, order, came); }
      case _ => SourcedMore(s, t, [], came);
    }
  }

  lemma StepSourced(s: State, e: Event, came: set<ObjectUpdate>)
    requires Sourced(s, came)
    requires e.Receive? && e.datagram.EnterInterest? ==> EnterLocation(e.datagram.d, e.datagram.at) in came
    requires e.Receive? && e.datagram.Update? ==> e.datagram.update in came
    ensures Sourced(Next(s, e), came)
  {
    hide Finished, Handled, Added, Dropped, Permitted, Sourced, FromWhatCame;
    if s.standing == Connected {
      match e {
        case Receive(g, order) => ReceiveSourced(s, g, order, came);
        case Open(id, i, context, order) =>
          AddedSourced(s, id, i, context, 0, order, came);
          if !Permitted(s, i.parent) { SourcedMore(s, Next(s, e), [], came); }
        case Shutting(id, context, order) =>
          if id in s.interests { DroppedSourced(s, id, context, 0, order, came); }
          if id !in s.interests || !Permitted(s, s.interests[id].parent) { SourcedMore(s, Next(s, e), [], came); }
        case Timeout(r, order) =>
          if r in s.pending { FinishSourced(s, r, order, came); }
      }
    }
  }

  lemma {:induction false} RunSourced(uberdogs: set<Doid>, permission: Permission, events: seq<Event>)
    ensures Sourced(After(Fresh(uberdogs, permission), events), Came(events))
    decreases |events|
  {
    if events != [] {
      hide Next, Sourced;
      var front := events[..|events|-1];
      RunSourced(uberdogs, permission, front);
      MoreCame(After(Fresh(uberdogs, permission), front), Came(front), Came(events));
      StepSourced(After(Fresh(uberdogs, permission), front), events[|events|-1], Came(events));
    } else {
      assert Sourced(Fresh(uberdogs, permission), {});
    }
  }

  /** The client is told of no entry, move or field that did not come, and each entry and
      each move it is told of names the place that came with it. */
  lemma NothingIsMadeUp(uberdogs: set<Doid>, permission: Permission, events: seq<Event>, m: Sent)
    ensures m in After(Fresh(uberdogs, permission), events).outbox ==>
              match m
              case Enter(d, at) => EnterLocation(d, at) in Came(events)
              case Moved(d, at) => ChangingLocation(d, at) in Came(events)
              case FieldUpdate(d) => SetField(d) in Came(events)
              case _ => true
  {
    RunSourced(uberdogs, permission, events);
    assert m in After(Fresh(uberdogs, permission), events).outbox ==> Justified(m, Came(events));
  }
}
