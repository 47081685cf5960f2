/** Which operation an object waits for. The client remembers the operation by number, and
    looks that number up without checking that the operation is still there. */
module ClientPending {
  import opened ClientInterests

  /** The first held-back datagram about an object. */
  function FirstAbout(datagrams: seq<ObjectUpdate>, d: Doid): Option<ObjectUpdate> {
    if datagrams == [] then None
    else if datagrams[0].d == d then Some(datagrams[0])
    else FirstAbout(datagrams[1..], d)
  }

  predicate EntersFirst(datagrams: seq<ObjectUpdate>, d: Doid) {
    FirstAbout(datagrams, d).Some? && FirstAbout(datagrams, d).value.EnterLocation?
  }

  predicate Generated(generates: seq<Generate>, d: Doid) {
    exists k :: 0 <= k < |generates| && generates[k].d == d
  }

  predicate Generates(op: Operation, d: Doid) {
    Generated(op.generates, d)
  }

  /** The end of the operation will make the object enter, before anything else about it. */
  predicate WaitsIn(op: Operation, d: Doid) {
    Generates(op, d) || EntersFirst(op.datagrams, d)
  }

  predicate ProperQueue(op: Operation) {
    forall k | 0 <= k < |op.datagrams| ::
      && WaitsIn(op, op.datagrams[k].d)
      && (op.datagrams[k].EnterLocation? ==> OperationCovers(op, op.datagrams[k].at))
  }

  /** No two operations over one location. */
  ghost predicate Apart(pending: map<Context, Operation>) {
    forall c, e, at | c in pending && e in pending && OperationCovers(pending[c], at) && OperationCovers(pending[e], at) :: c == e
  }

  predicate WellPlaced(s: State, d: Doid, ending: Context, rest: seq<ObjectUpdate>) {
    d in s.pendingObjects ==>
      var c := s.pendingObjects[d];
      (c in s.pending && WaitsIn(s.pending[c], d)) || (c == ending && EntersFirst(rest, d))
  }

  /** Every waiting object waits for an operation that is there, or it is about to enter
      with the rest of what an ending operation held back. */
  ghost predicate Sound(s: State, ending: Context, rest: seq<ObjectUpdate>) {
    && Apart(s.pending)
    && (forall c | c in s.pending :: ProperQueue(s.pending[c]))
    && (forall c | c in s.pending :: c < s.nextContext)
    && (forall d :: WellPlaced(s, d, ending, rest))
  }

  lemma {:induction false} FirstAboutAppended(datagrams: seq<ObjectUpdate>, u: ObjectUpdate, d: Doid)
    ensures FirstAbout(datagrams + [u], d)
         == if FirstAbout(datagrams, d).Some? then FirstAbout(datagrams, d) else if u.d == d then Some(u) else None
    decreases |datagrams|
  {
    if datagrams != [] {
      assert (datagrams + [u])[1..] == datagrams[1..] + [u];
      FirstAboutAppended(datagrams[1..], u, d);
    }
  }

  lemma {:induction false} FirstAboutIsThere(datagrams: seq<ObjectUpdate>, d: Doid)
    ensures FirstAbout(datagrams, d).Some? <==> exists k :: 0 <= k < |datagrams| && datagrams[k].d == d
    decreases |datagrams|
  {
    if datagrams != [] {
      FirstAboutIsThere(datagrams[1..], d);
      if k :| 0 <= k < |datagrams[1..]| && datagrams[1..][k].d == d {
        assert datagrams[k + 1].d == d;
      }
      if k :| 0 <= k < |datagrams| && datagrams[k].d == d {
        if k > 0 { assert datagrams[1..][k - 1].d == d; }
      }
    }
  }

  /** One more datagram held back, about an object that waits here or that enters with it. */
  lemma QueueGrows(op: Operation, u: ObjectUpdate)
    requires ProperQueue(op)
    requires WaitsIn(op, u.d) || u.EnterLocation?
    requires u.EnterLocation? ==> OperationCovers(op, u.at)
    ensures var grown := op.(datagrams := op.datagrams + [u]);
            && ProperQueue(grown) && WaitsIn(grown, u.d)
            && forall d :: WaitsIn(op, d) ==> WaitsIn(grown, d)
  {
    hide FirstAbout;
    var grown := op.(datagrams := op.datagrams + [u]);
    forall d ensures WaitsIn(op, d) ==> WaitsIn(grown, d) {
      FirstAboutAppended(op.datagrams, u, d);
    }
    FirstAboutAppended(op.datagrams, u, u.d);
    if FirstAbout(op.datagrams, u.d).Some? {
      FirstAboutIsThere(op.datagrams, u.d);
      assert WaitsIn(op, u.d);
    }
    assert WaitsIn(grown, u.d);
    forall k | 0 <= k < |grown.datagrams|
      ensures WaitsIn(grown, grown.datagrams[k].d)
      ensures grown.datagrams[k].EnterLocation? ==> OperationCovers(grown, grown.datagrams[k].at)
    {
      if k < |op.datagrams| { assert WaitsIn(op, op.datagrams[k].d); }
    }
  }

  predicate SameOperations(s: State, t: State) {
    s.pending.Keys == t.pending.Keys
    && forall c | c in s.pending :: s.pending[c].parent == t.pending[c].parent && s.pending[c].zones == t.pending[c].zones
  }

  lemma HoldingBack(s: State, request: Context, u: ObjectUpdate, ending: Context, rest: seq<ObjectUpdate>)
    requires Sound(s, ending, rest) && request in s.pending
    requires WaitsIn(s.pending[request], u.d) || u.EnterLocation?
    requires u.EnterLocation? ==> OperationCovers(s.pending[request], u.at)
    ensures var t := HeldBack(s, request, u);
            Sound(t, ending, rest) && SameOperations(s, t) && WaitsIn(t.pending[request], u.d)
  {
    hide ProperQueue, WaitsIn, EntersFirst;
    var t := HeldBack(s, request, u);
    QueueGrows(s.pending[request], u);
    forall d ensures WellPlaced(t, d, ending, rest) {
      assert WellPlaced(s, d, ending, rest);
    }
  }

  /** What becomes of the waiting objects when the next held-back datagram is taken up. */
  lemma TakingUp(s: State, ending: Context, rest: seq<ObjectUpdate>, d: Doid)
    requires rest != [] && WellPlaced(s, d, ending, rest)
    requires d == rest[0].d ==> !rest[0].EnterLocation? || d !in s.pendingObjects
    ensures WellPlaced(s, d, ending, rest[1..])
  {
  }

  /** What is left to dispatch after this datagram: nothing if it has just arrived. */
  function Remaining(rest: seq<ObjectUpdate>): seq<ObjectUpdate> {
    if rest == [] then [] else rest[1..]
  }

  predicate Dispatchable(s: State, u: ObjectUpdate, rest: seq<ObjectUpdate>) {
    rest == [] || (rest[0] == u && (u.EnterLocation? ==> forall c | c in s.pending :: !OperationCovers(s.pending[c], u.at)))
  }

  lemma Progress(s: State, t: State, u: ObjectUpdate, ending: Context, rest: seq<ObjectUpdate>)
    requires Sound(s, ending, rest) && Dispatchable(s, u, rest) && (u.EnterLocation? ==> u.d !in t.pendingObjects || rest == [])
    requires t.pending == s.pending && t.nextContext == s.nextContext
    requires t.pendingObjects == s.pendingObjects || t.pendingObjects == s.pendingObjects - {u.d}
    ensures Sound(t, ending, Remaining(rest))
  {
    hide ProperQueue, WaitsIn, EntersFirst;
    forall d ensures WellPlaced(t, d, ending, Remaining(rest)) {
      assert WellPlaced(s, d, ending, rest);
      assert WellPlaced(t, d, ending, rest);
      if rest != [] { TakingUp(t, ending, rest, d); }
    }
  }

  lemma EnteringSound(s: State, d: Doid, at: Location, order: Ordering, ending: Context, rest: seq<ObjectUpdate>)
    requires Sound(s, ending, rest) && Dispatchable(s, EnterLocation(d, at), rest)
    ensures var t := EnteredLocation(s, d, at, order);
            Sound(t, ending, Remaining(rest)) && t.standing == s.standing && SameOperations(s, t)
  {
    hide ProperQueue, WaitsIn, Apart, EntersFirst, HeldBack;
    match FirstCovering(s.pending, order.requests, at)
    case None =>
      Progress(s, Entered(s, d, at), EnterLocation(d, at), ending, rest);
    case Some(request) =>
      assert rest == [];
      var held := HeldBack(s, request, EnterLocation(d, at));
      HoldingBack(s, request, EnterLocation(d, at), ending, rest);
      HeldBackOnly(s, request, EnterLocation(d, at));
      var t := EnteredLocation(s, d, at, order);
      forall e ensures WellPlaced(t, e, ending, rest) {
        assert WellPlaced(held, e, ending, rest);
      }
  }

  lemma HeldBackOnly(s: State, request: Context, u: ObjectUpdate)
    requires request in s.pending
    ensures var t := HeldBack(s, request, u);
            && t.standing == s.standing && t.pendingObjects == s.pendingObjects && t.nextContext == s.nextContext
            && t.pending.Keys == s.pending.Keys
  {
  }

  lemma QueuedSound(s: State, u: ObjectUpdate, ending: Context, rest: seq<ObjectUpdate>)
    requires Sound(s, ending, rest) && Dispatchable(s, u, rest) && !u.EnterLocation? && u.d in s.pendingObjects
    ensures var t := Queued(s, u);
            Sound(t, ending, Remaining(rest)) && t.standing == s.standing && SameOperations(s, t)
  {
    hide ProperQueue, Apart, HeldBack, WaitsIn;
    assert WellPlaced(s, u.d, ending, rest);
    var request := s.pendingObjects[u.d];
    assert !EntersFirst(rest, u.d);
    HoldingBack(s, request, u, ending, rest);
    HeldBackOnly(s, request, u);
    var t := HeldBack(s, request, u);
    Progress(t, t, u, ending, rest);
  }

  /** Moves, deletions and updates that are not held back. */
  lemma PlainUpdate(s: State, u: ObjectUpdate)
    requires !u.EnterLocation?
    ensures u.ChangingLocation? ==> SamePending(s, ChangedLocation(s, u.d, u.at))
    ensures SamePending(s, Deleted(s, u.d)) && SamePending(s, Say(s, FieldUpdate(u.d)))
  {
    hide Holders;
  }

  predicate SamePending(s: State, t: State) {
    && t.pending == s.pending && t.pendingObjects == s.pendingObjects && t.nextContext == s.nextContext
    && (s.standing != Faulted ==> t.standing != Faulted)
  }

  lemma UpdatedSound(s: State, u: ObjectUpdate, order: Ordering, ending: Context, rest: seq<ObjectUpdate>)
    requires Sound(s, ending, rest) && Dispatchable(s, u, rest) && s.standing != Faulted
    ensures var t := Updated(s, u, order);
            Sound(t, ending, Remaining(rest)) && t.standing != Faulted && SameOperations(s, t)
  {
    hide Sound, EnteredLocation, Queued, Deleted, ChangedLocation, Knows, Dispatchable;
    var t := Updated(s, u, order);
    if u.EnterLocation? {
      EnteringSound(s, u.d, u.at, order, ending, rest);
    } else {
      PlainUpdate(s, u);
      if u.d in s.pendingObjects { QueuedSound(s, u, ending, rest); }
      if SamePending(s, t) { Progress(s, t, u, ending, rest); }
    }
  }

  /** What an ending operation held back can be dispatched one by one. */
  ghost predicate Unclaimed(s: State, rest: seq<ObjectUpdate>) {
    forall k, c | 0 <= k < |rest| && rest[k].EnterLocation? && c in s.pending :: !OperationCovers(s.pending[c], rest[k].at)
  }

  lemma {:induction false} DispatchedSound(s: State, rest: seq<ObjectUpdate>, order: Ordering, ending: Context)
    requires Sound(s, ending, rest) && Unclaimed(s, rest) && s.standing != Faulted
    ensures var t := Dispatched(s, rest, order);
            t.standing != Faulted && (t.standing == Connected ==> Sound(t, ending, []))
    decreases |rest|
  {
    if rest != [] && s.standing == Connected {
      hide Sound, Updated;
      assert Dispatchable(s, rest[0], rest);
      UpdatedSound(s, rest[0], order, ending, rest);
      DispatchedSound(Updated(s, rest[0], order), rest[1..], order, ending);
    }
  }

  lemma {:induction false} SnapshotTaken(s: State, generates: seq<Generate>)
    ensures var t := AllEntered(s, generates);
            && t.pending == s.pending && t.nextContext == s.nextContext && t.standing == s.standing
            && (forall d :: d in t.pendingObjects <==> d in s.pendingObjects && !Generated(generates, d))
            && (forall d | d in t.pendingObjects :: t.pendingObjects[d] == s.pendingObjects[d])
    decreases |generates|
  {
    if generates != [] {
      var front := generates[..|generates|-1];
      SnapshotTaken(s, front);
      forall d ensures Generated(generates, d) <==> generates[|generates|-1].d == d || Generated(front, d) {
        if k :| 0 <= k < |front| && front[k].d == d { assert generates[k].d == d; }
        if k :| 0 <= k < |generates| && generates[k].d == d { assert k < |front| ==> front[k].d == d; }
      }
    }
  }

  lemma FinishedSound(s: State, request: Context, order: Ordering)
    requires Sound(s, 0, []) && request in s.pending && s.standing == Connected
    ensures var t := Finished(s, request, order);
            t.standing != Faulted && (t.standing == Connected ==> Sound(t, 0, []))
  {
    hide AllEntered, Dispatched, ProperQueue, FirstAbout, OperationCovers;
    var op := s.pending[request];
    SnapshotTaken(s, op.generates);
    var shown := Announced(AllEntered(s, op.generates), op);
    var begun := shown.(pending := shown.pending - {request});
    forall d ensures WellPlaced(begun, d, request, op.datagrams) {
      assert WellPlaced(s, d, 0, []);
      NothingEnters(d);
    }
    EnteringInside(op);
    DispatchedSound(begun, op.datagrams, order, request);
    var t := Dispatched(begun, op.datagrams, order);
    if t.standing == Connected {
      forall d ensures WellPlaced(t, d, 0, []) {
        assert WellPlaced(t, d, request, []);
        NothingEnters(d);
      }
    }
  }

  lemma NothingEnters(d: Doid)
    ensures !EntersFirst([], d)
  {
  }

  lemma EnteringInside(op: Operation)
    requires ProperQueue(op)
    ensures forall k | 0 <= k < |op.datagrams| && op.datagrams[k].EnterLocation? :: OperationCovers(op, op.datagrams[k].at)
  {
  }

  /** The new zones of an interest are not being asked for already. This is what must hold
      when an interest is opened or altered. */
  ghost predicate AsksApart(s: State, i: Interest) {
    forall z, c | z in NewZones(s.interests, i) && c in s.pending :: !OperationCovers(s.pending[c], Location(i.parent, z))
  }

  lemma RequestedSound(s: State, id: InterestId, i: Interest, zones: set<Zone>, context: Context, caller: nat)
    requires Sound(s, 0, [])
    requires forall z, c | z in zones && c in s.pending :: !OperationCovers(s.pending[c], Location(i.parent, z))
    ensures Sound(Requested(s, id, i, zones, context, caller), 0, [])
  {
    hide WaitsIn, ProperQueue;
    var t := Requested(s, id, i, zones, context, caller);
    var op := t.pending[s.nextContext];
    assert ProperQueue(op) by { NothingHeldBack(op); }
    forall c, at | c in s.pending ensures !(OperationCovers(op, at) && OperationCovers(s.pending[c], at)) {
      if OperationCovers(op, at) { assert at == Location(i.parent, at.zone); }
    }
    forall d ensures WellPlaced(t, d, 0, []) { assert WellPlaced(s, d, 0, []); }
  }

  lemma NothingHeldBack(op: Operation)
    requires op.datagrams == []
    ensures ProperQueue(op)
  {
  }

  lemma Elsewhere(s: State, t: State)
    requires Sound(s, 0, []) && t.pending == s.pending && t.pendingObjects == s.pendingObjects && t.nextContext >= s.nextContext
    ensures Sound(t, 0, [])
  {
    hide WaitsIn, ProperQueue, Apart;
    forall d ensures WellPlaced(t, d, 0, []) { assert WellPlaced(s, d, 0, []); }
  }

  lemma AddedSound(s: State, id: InterestId, i: Interest, context: Context, caller: nat, order: Ordering)
    requires Sound(s, 0, []) && AsksApart(s, i) && s.standing == Connected
    ensures var t := Added(s, id, i, context, caller, order);
            t.standing != Faulted && Sound(t, 0, [])
  {
    hide Sound, AlteredZones, Holders, NewZones, Closing, OperationCovers;
    var closed := if id in s.interests
                  then Closed(s, s.interests[id].parent, AlteredZones(s.interests, id, i), order) else s;
    var altered := closed.(interests := closed.interests[id := i]);
    Elsewhere(s, closed);
    Elsewhere(s, altered);
    Elsewhere(s, DoneAtOnce(altered, id, context, caller));
    RequestedSound(altered, id, i, NewZones(s.interests, i), context, caller);
  }

  lemma DroppedSound(s: State, id: InterestId, context: Context, caller: nat, order: Ordering)
    requires Sound(s, 0, []) && id in s.interests && s.standing == Connected
    ensures var t := Dropped(s, id, context, caller, order);
            t.standing != Faulted && Sound(t, 0, [])
  {
    hide Sound, RemovedZones, Closing;
    Elsewhere(s, Dropped(s, id, context, caller, order));
  }

  lemma ExpectedSound(s: State, request: Context, g: Generate)
    requires Sound(s, 0, []) && request in s.pending
    ensures Sound(Expected(s, request, g), 0, [])
  {
    hide FirstAbout, ProperQueue, EntersFirst;
    var t := Expected(s, request, g);
    var op, grown := s.pending[request], t.pending[request];
    assert grown.generates[|op.generates|].d == g.d;
    forall d ensures WaitsIn(op, d) ==> WaitsIn(grown, d) {
      if k :| 0 <= k < |op.generates| && op.generates[k].d == d { assert grown.generates[k].d == d; }
    }
    StillProper(op, grown);
    forall d ensures WellPlaced(t, d, 0, []) { assert WellPlaced(s, d, 0, []); }
  }

  lemma StillProper(op: Operation, grown: Operation)
    requires ProperQueue(op) && forall d :: WaitsIn(op, d) ==> WaitsIn(grown, d)
    requires op.datagrams == grown.datagrams && op.parent == grown.parent && op.zones == grown.zones
    ensures ProperQueue(grown)
  {
  }

  lemma CountedSound(s: State, request: Context, count: nat)
    requires Sound(s, 0, []) && request in s.pending
    ensures Sound(Counted(s, request, count), 0, [])
  {
    hide FirstAbout, ProperQueue, EntersFirst;
    var t := Counted(s, request, count);
    StillProper(s.pending[request], t.pending[request]);
    forall d ensures WellPlaced(t, d, 0, []) { assert WellPlaced(s, d, 0, []); }
  }

  /** An event opens an interest, if it does, only over zones nobody is asking for. */
  ghost predicate OpensApart(s: State, e: Event) {
    match e
    case Open(_, i, _, _) => AsksApart(s, i)
    case Receive(AddInterest(_, i, _), _) => AsksApart(s, i)
    case _ => true
  }

  lemma StepSound(s: State, e: Event)
    requires Sound(s, 0, []) && OpensApart(s, e) && s.standing == Connected
    ensures Next(s, e).standing != Faulted && (Next(s, e).standing == Connected ==> Sound(Next(s, e), 0, []))
  {
    hide Sound, Finished, Added, Dropped, Permitted, Handled, AsksApart;
    match e {
      case Open(id, i, context, order) => AddedSound(s, id, i, context, 0, order);
      case Shutting(id, context, order) => if id in s.interests { DroppedSound(s, id, context, 0, order); }
      case Timeout(request, order) => if request in s.pending { FinishedSound(s, request, order); }
      case Receive(g, order) => ReceiveSound(s, g, order);
    }
  }

  lemma ReceiveSound(s: State, g: Datagram, order: Ordering)
    requires Sound(s, 0, []) && OpensApart(s, Receive(g, order)) && s.standing == Connected
    ensures var t := Handled(s, g, order);
            t.standing != Faulted && (t.standing == Connected ==> Sound(t, 0, []))
  {
    hide Sound, Finished, Added, Dropped, Updated, Ready;
    match g {
      case Update(u) => UpdatedSound(s, u, order, 0, []);
      case AddInterest(id, i, caller) =>
        var told := Say(s.(nextContext := s.nextContext + 1), InterestOpened(id, s.nextContext));
        Elsewhere(s, told);
        AddedSound(told, id, i, s.nextContext, caller, order);
      case RemoveInterest(id, caller) =>
        var told := Say(s.(nextContext := s.nextContext + 1), InterestClosed(id, s.nextContext));
        Elsewhere(s, told);
        if id in s.interests { DroppedSound(told, id, s.nextContext, caller, order); }
      case EnterInterest(request, d, at) =>
        if request in s.pending {
          ExpectedSound(s, request, Generate(d, at));
          FinishedSound(Expected(s, request, Generate(d, at)), request, order);
        }
      case ZonesCount(request, count) =>
        if request in s.pending {
          CountedSound(s, request, count);
          FinishedSound(Counted(s, request, count), request, order);
        }
      case _ => Elsewhere(s, Handled(s, g, order));
    }
  }

  ghost predicate AllOpenApart(s: State, events: seq<Event>) {
    events != [] ==>
      && AllOpenApart(s, events[..|events|-1])
      && OpensApart(After(s, events[..|events|-1]), events[|events|-1])
  }

  /** As long as no interest is opened over a zone that an unfinished operation still asks
      for, no datagram is ever held back for an operation that has gone. */
  lemma OpeningApartIsSafe(uberdogs: set<Doid>, permission: Permission, events: seq<Event>)
    requires AllOpenApart(Fresh(uberdogs, permission), events)
    ensures var s := After(Fresh(uberdogs, permission), events);
            && s.standing != Faulted
            && (s.standing == Connected ==> forall d | d in s.pendingObjects :: s.pendingObjects[d] in s.pending)
  {
    RunSound(Fresh(uberdogs, permission), events);
    var s := After(Fresh(uberdogs, permission), events);
    if s.standing == Connected {
      forall d | d in s.pendingObjects ensures s.pendingObjects[d] in s.pending { assert WellPlaced(s, d, 0, []); }
    }
  }

  lemma {:induction false} RunSound(s: State, events: seq<Event>)
    requires Sound(s, 0, []) && s.standing == Connected && AllOpenApart(s, events)
    ensures After(s, events).standing != Faulted
    ensures After(s, events).standing == Connected ==> Sound(After(s, events), 0, [])
    decreases |events|
  {
    if events != [] {
      var before := After(s, events[..|events|-1]);
      RunSound(s, events[..|events|-1]);
      if before.standing == Connected { hide Sound, Handled, Opened, Shut, Finished; StepSound(before, events[|events|-1]); }
    }
  }

  // ----- And when it is opened over such a zone -----

  /** An object enters while two operations ask for its zone, the one it was made to wait
      for ends first, and the object moves before the other one ends. */
  function Stranding(d: Doid, at: Location, first: Context, entering: Ordering, ending: Ordering, moving: Ordering): seq<Event> {
    [Receive(Update(EnterLocation(d, at)), entering),
     Timeout(first, ending),
     Receive(Update(ChangingLocation(d, at)), moving)]
  }

  lemma AfterOne(s: State, e: Event, events: seq<Event>)
    ensures After(s, [e]) == Next(s, e)
    ensures After(s, events + [e]) == Next(After(s, events), e)
  {
    assert (events + [e])[..|events|] == events;
    assert [e][..0] == [];
    assert After(s, []) == s;
  }

  lemma AfterThree(s: State, a: Event, b: Event, c: Event)
    ensures After(s, [a, b, c]) == Next(Next(Next(s, a), b), c)
  {
    AfterOne(s, a, []);
    AfterOne(s, b, [a]);
    AfterOne(s, c, [a, b]);
    assert [a, b, c] == [a, b] + [c] && [a, b] == [a] + [b];
  }

  /** The object still waits for the operation that is ending, and that one alone. */
  predicate Stranded(s: State, d: Doid, at: Location, first: Context, second: Context) {
    && d in s.pendingObjects && s.pendingObjects[d] == first && first !in s.pending
    && second in s.pending && OperationCovers(s.pending[second], at)
  }

  lemma UpdateElsewhere(s: State, u: ObjectUpdate, order: Ordering, d: Doid, at: Location, first: Context, second: Context)
    requires Stranded(s, d, at, first, second) && u.d != d
    ensures Stranded(Updated(s, u, order), d, at, first, second)
  {
    hide ChangedLocation, Deleted, Knows, FirstCovering;
    if !u.EnterLocation? { PlainUpdate(s, u); }
  }

  /** The last datagram held back is the entry of the object: it is held back again, for
      another operation, while the object goes on waiting for the one that has gone. */
  lemma {:induction false} DispatchStrands(s: State, datagrams: seq<ObjectUpdate>, order: Ordering, d: Doid, at: Location, first: Context, second: Context)
    requires Stranded(s, d, at, first, second) && second in order.requests
    requires forall k | 0 <= k < |datagrams| :: datagrams[k].d != d
    ensures var t := Dispatched(s, datagrams + [EnterLocation(d, at)], order);
            Stranded(t, d, at, first, second)
    ensures datagrams == [] && s.standing == Connected ==> Dispatched(s, datagrams + [EnterLocation(d, at)], order).standing == Connected
    decreases |datagrams|
  {
    var all := datagrams + [EnterLocation(d, at)];
    if s.standing == Connected {
      if datagrams == [] {
        assert all[1..] == [];
        assert FirstCovering(s.pending, order.requests, at).Some?;
        var t := Updated(s, EnterLocation(d, at), order);
        assert Dispatched(t, all[1..], order) == t;
        assert all[0] == EnterLocation(d, at);
      } else {
        assert all[1..] == datagrams[1..] + [EnterLocation(d, at)] && all[0] == datagrams[0];
        UpdateElsewhere(s, datagrams[0], order, d, at, first, second);
        hide Updated, Stranded;
        DispatchStrands(Updated(s, datagrams[0], order), datagrams[1..], order, d, at, first, second);
      }
    }
  }

  lemma FinishStrands(s: State, d: Doid, at: Location, first: Context, second: Context, datagrams: seq<ObjectUpdate>, order: Ordering)
    requires s.standing == Connected && first != second && second in order.requests
    requires first in s.pending && second in s.pending && OperationCovers(s.pending[second], at)
    requires d in s.pendingObjects && s.pendingObjects[d] == first && !Generates(s.pending[first], d)
    requires s.pending[first].datagrams == datagrams + [EnterLocation(d, at)]
    requires forall k | 0 <= k < |datagrams| :: datagrams[k].d != d
    ensures Stranded(Finished(s, first, order), d, at, first, second)
    ensures datagrams == [] ==> Finished(s, first, order).standing == Connected
  {
    hide AllEntered, Dispatched, OperationCovers;
    var op := s.pending[first];
    SnapshotTaken(s, op.generates);
    var shown := Announced(AllEntered(s, op.generates), op);
    var begun := shown.(pending := shown.pending - {first});
    DispatchStrands(begun, datagrams, order, d, at, first, second);
  }

  /** Two operations over one location can always strand an object that neither of them
      knows yet: once it has entered and the first operation has ended, its next move
      finds no operation, unless something else has cost the connection before. */
  lemma OverlapStrands(s: State, d: Doid, at: Location, first: Context, second: Context, entering: Ordering, ending: Ordering, moving: Ordering)
    requires s.standing == Connected && first != second && d !in s.pendingObjects
    requires first in s.pending && second in s.pending && OperationCovers(s.pending[second], at)
    requires FirstCovering(s.pending, entering.requests, at) == Some(first) && second in ending.requests
    requires !Generates(s.pending[first], d)
    requires forall k | 0 <= k < |s.pending[first].datagrams| :: s.pending[first].datagrams[k].d != d
    ensures var t := After(s, Stranding(d, at, first, entering, ending, moving));
            t.standing != Connected && (s.pending[first].datagrams == [] ==> t.standing == Faulted)
  {
    hide After, OperationCovers, Holders, Finished, FirstCovering;
    var datagrams, events := s.pending[first].datagrams, Stranding(d, at, first, entering, ending, moving);
    AfterThree(s, events[0], events[1], events[2]);
    var s1 := Next(s, events[0]);
    EnteringWaits(s, d, at, first, entering);
    assert s1.pending[second] == s.pending[second];
    FinishStrands(s1, d, at, first, second, datagrams, ending);
  }

  lemma EnteringWaits(s: State, d: Doid, at: Location, first: Context, order: Ordering)
    requires s.standing == Connected && d !in s.pendingObjects && FirstCovering(s.pending, order.requests, at) == Some(first)
    ensures var t := Next(s, Receive(Update(EnterLocation(d, at)), order));
            && t.standing == Connected && t.pendingObjects == s.pendingObjects[d := first]
            && t.pending == s.pending[first := s.pending[first].(datagrams := s.pending[first].datagrams + [EnterLocation(d, at)])]
            && t.visible == s.visible
  {
  }

  /** So it happens to a client that opens an interest, closes it and opens it again before
      the state server has answered. */
  lemma ReopeningStrands(d: Doid, at: Location, id: InterestId)
    ensures var order := Ordering([], [1, 2]);
            var i := Interest(at.parent, {at.zone});
            var reopened := [Open(id, i, 1, order), Shutting(id, 2, order), Open(id, i, 3, order)];
            After(Fresh({}, InterestsEnabled), reopened + Stranding(d, at, 1, order, order, order)).standing == Faulted
  {
    hide After, FirstCovering;
    var order := Ordering([], [1, 2]);
    var i := Interest(at.parent, {at.zone});
    var e1, e2, e3 := Open(id, i, 1, order), Shutting(id, 2, order), Open(id, i, 3, order);
    var s := Fresh({}, InterestsEnabled);
    var s1 := Next(s, e1);
    assert at.zone in NewZones(s.interests, i);
    assert s1.pending.Keys == {1} && s1.interests == map[id := i];
    var s2 := Next(s1, e2);
    assert s2.interests == map[] && s2.pending == s1.pending && s2.nextContext == 2;
    var s3 := Next(s2, e3);
    assert at.zone in NewZones(s2.interests, i);
    assert 2 in s3.pending && 1 in s3.pending;
    assert s3.pending[1].zones == {at.zone} by { assert NewZones(s.interests, i) == {at.zone}; }
    assert s3.pending[2].zones == {at.zone} by { assert NewZones(s2.interests, i) == {at.zone}; }
    FirstInLine(s3.pending, order.requests, at);
    OverlapStrands(s3, d, at, 1, 2, order, order, order);
    AfterThree(s, e1, e2, e3);
    AfterBoth(s, [e1, e2, e3], Stranding(d, at, 1, order, order, order));
  }

  lemma FirstInLine(pending: map<Context, Operation>, requests: seq<Context>, at: Location)
    requires requests != [] && requests[0] in pending && OperationCovers(pending[requests[0]], at)
    ensures FirstCovering(pending, requests, at) == Some(requests[0])
  {
  }

  lemma {:induction false} AfterBoth(s: State, a: seq<Event>, b: seq<Event>)
    ensures After(s, a + b) == After(After(s, a), b)
    decreases |b|
  {
    if b == [] {
      assert a + b == a;
    } else {
      assert (a + b)[..|a + b|-1] == a + b[..|b|-1];
      AfterBoth(s, a, b[..|b|-1]);
    }
  }

  // ----- Exactly when opening an interest is safe -----

  /** The events of a run walk over all the keys of the tables there are. */
  ghost predicate AllWalk(s: State, events: seq<Event>) {
    events != [] ==>
      && AllWalk(s, events[..|events|-1])
      && Walks(After(s, events[..|events|-1]), OrderOf(events[|events|-1]))
  }

  function OrderOf(e: Event): Ordering {
    match e
    case Receive(_, order) => order
    case Open(_, _, _, order) => order
    case Shutting(_, _, order) => order
    case Timeout(_, order) => order
  }

  ghost predicate Walks(s: State, order: Ordering) {
    && (forall d :: d in order.objects <==> d in s.visible)
    && (forall c :: c in order.requests <==> c in s.pending)
  }

  /** The keys of a table, one of them first. */
  lemma {:induction false} WalkOver(keys: set<nat>) returns (w: Walk)
    ensures forall k :: k in w <==> k in keys
  {
    if keys == {} {
      w := [];
    } else {
      var k :| k in keys;
      var rest := WalkOver(keys - {k});
      w := WalkFrom(k, rest);
    }
  }

  lemma WalkFrom(k: nat, rest: Walk) returns (w: Walk)
    requires k !in rest
    ensures w == [k] + rest
  {
    var all: seq<nat> := [k] + rest;
    assert forall i, j | 0 <= i < j < |all| :: all[i] != all[j];
    w := all;
  }

  lemma {:induction false} SomethingElse(keys: set<nat>) returns (d: nat)
    ensures d !in keys && forall k | k in keys :: k < d
    decreases |keys|
  {
    if keys == {} {
      d := 0;
    } else {
      var k :| k in keys;
      var e := SomethingElse(keys - {k});
      d := if e <= k then k + 1 else e;
      assert forall x | x in keys :: x == k || x in keys - {k};
    }
  }

  /** Whatever follows, as long as interests go on being opened apart, the lookup of the
      operation an object waits for finds one. */
  ghost predicate StaysSafe(s: State) {
    forall more :: AllOpenApart(s, more) && AllWalk(s, more) ==> After(s, more).standing != Faulted
  }

  /** The same for runs that walk their tables in any way at all. */
  ghost predicate SafeInAnyOrder(s: State) {
    forall more :: AllOpenApart(s, more) ==> After(s, more).standing != Faulted
  }

  lemma UnsafeWhenWalking(s: State)
    requires !StaysSafe(s)
    ensures !SafeInAnyOrder(s)
  {
  }

  predicate OpensInterest(s: State, e: Event, i: Interest) {
    (e.Open? && e.interest == i) || (e.Receive? && e.datagram.AddInterest? && e.datagram.interest == i)
  }

  /** Opening or altering an interest over a zone that an operation asks for already. */
  lemma OverlapIsUnsafe(s: State, e: Event, i: Interest)
    requires Sound(s, 0, []) && s.standing == Connected && OpensInterest(s, e, i) && Next(s, e).standing == Connected
    requires !AsksApart(s, i)
    ensures !StaysSafe(Next(s, e))
  {
    var t := Next(s, e);
    var z, second :| z in NewZones(s.interests, i) && second in s.pending && OperationCovers(s.pending[second], Location(i.parent, z));
    var at := Location(i.parent, z);
    var first := OpenedRequest(s, e, i);
    var d := SomethingElse(t.pendingObjects.Keys);
    UnsafeAfterwards(t, d, at, first, second);
  }

  /** The operation that opening the interest has begun. */
  lemma OpenedRequest(s: State, e: Event, i: Interest) returns (first: Context)
    requires Sound(s, 0, []) && s.standing == Connected && OpensInterest(s, e, i) && Next(s, e).standing == Connected
    requires NewZones(s.interests, i) != {}
    ensures var t := Next(s, e);
            && first in t.pending && first !in s.pending
            && t.pending[first].parent == i.parent && t.pending[first].zones == NewZones(s.interests, i)
            && t.pending[first].generates == [] && t.pending[first].datagrams == []
            && forall c | c in s.pending :: c in t.pending && t.pending[c] == s.pending[c]
  {
    hide NewZones, Added, Permitted, Apart, ProperQueue;
    match e {
      case Open(id, _, context, order) =>
        first := s.nextContext;
        AddedRequest(s, id, i, context, 0, order);
      case Receive(g, order) =>
        first := s.nextContext + 1;
        var told := Say(s.(nextContext := s.nextContext + 1), InterestOpened(g.id, s.nextContext));
        AddedRequest(told, g.id, i, s.nextContext, g.caller, order);
    }
  }

  lemma AddedRequest(s: State, id: InterestId, i: Interest, context: Context, caller: nat, order: Ordering)
    requires s.nextContext !in s.pending && Added(s, id, i, context, caller, order).standing == Connected
    requires NewZones(s.interests, i) != {}
    ensures Added(s, id, i, context, caller, order).pending
         == s.pending[s.nextContext := Operation(id, context, i.parent, NewZones(s.interests, i), caller, None, [], [])]
  {
    hide NewZones, AlteredZones, Closing, Locations;
  }

  lemma UnsafeAfterwards(t: State, d: Doid, at: Location, first: Context, second: Context)
    requires t.standing == Connected && d !in t.pendingObjects && first != second
    requires first in t.pending && second in t.pending
    requires OperationCovers(t.pending[first], at) && OperationCovers(t.pending[second], at)
    requires t.pending[first].generates == [] && t.pending[first].datagrams == []
    ensures !StaysSafe(t)
  {
    hide After, OperationCovers, Finished, FirstCovering;
    var objects := WalkOver(t.visible.Keys);
    var others := WalkOver(t.pending.Keys - {first});
    var requests := WalkFrom(first, others);
    var order, moving := Ordering(objects, requests), Ordering(objects, others);
    var events := Stranding(d, at, first, order, order, moving);
    FirstInLine(t.pending, requests, at);
    OverlapStrands(t, d, at, first, second, order, order, moving);
    AllOfStranding(t, d, at, first, second, order, moving);
  }

  lemma AllOfStranding(t: State, d: Doid, at: Location, first: Context, second: Context, order: Ordering, moving: Ordering)
    requires t.standing == Connected && d !in t.pendingObjects && first != second
    requires first in t.pending && second in t.pending && OperationCovers(t.pending[second], at)
    requires t.pending[first].generates == [] && t.pending[first].datagrams == []
    requires FirstCovering(t.pending, order.requests, at) == Some(first)
    requires Walks(t, order) && moving.objects == order.objects && forall c :: c in moving.requests <==> c in t.pending && c != first
    ensures var events := Stranding(d, at, first, order, order, moving);
            AllOpenApart(t, events) && AllWalk(t, events)
  {
    hide After, OperationCovers, FirstCovering, Finished;
    var events := Stranding(d, at, first, order, order, moving);
    var t1 := Next(t, events[0]);
    EnteringWaits(t, d, at, first, order);
    var t2 := Next(t1, events[1]);
    EmptyFinish(t1, first, second, d, at, order);
    assert events[..3] == events && events[..2] == [events[0], events[1]] && events[..1] == [events[0]];
    assert events[..2][..1] == events[..1] && events[..1][..0] == [];
    AfterOne(t, events[0], []);
    AfterOne(t, events[1], [events[0]]);
    assert events[..2] == [events[0]] + [events[1]];
    assert After(t, []) == t by { AfterNone(t); }
    assert Walks(t1, order) && Walks(t2, moving);
    AllOfThree(t, events);
  }

  lemma AfterNone(s: State)
    ensures After(s, []) == s
  {
  }

  lemma AllOfThree(t: State, events: seq<Event>)
    requires |events| == 3 && forall k | 0 <= k < 3 :: OpensApart(After(t, events[..k]), events[k]) && Walks(After(t, events[..k]), OrderOf(events[k]))
    ensures AllOpenApart(t, events) && AllWalk(t, events)
  {
    hide After, OpensApart, Walks;
    assert events[..2][..1] == events[..1] && events[..1][..0] == events[..0] && events[..0] == [];
    assert AllOpenApart(t, []) && AllWalk(t, []);
    assert AllOpenApart(t, events[..1]) && AllWalk(t, events[..1]);
    assert AllOpenApart(t, events[..2]) && AllWalk(t, events[..2]);
  }

  lemma EmptyFinish(s: State, first: Context, second: Context, d: Doid, at: Location, order: Ordering)
    requires s.standing == Connected && first in s.pending && first != second && second in s.pending
    requires OperationCovers(s.pending[second], at) && second in order.requests
    requires s.pending[first].generates == [] && s.pending[first].datagrams == [EnterLocation(d, at)]
    ensures var t := Next(s, Timeout(first, order));
            t.visible == s.visible && t.pending.Keys == s.pending.Keys - {first}
  {
    var u := EnterLocation(d, at);
    assert AllEntered(s, []) == s;
    var shown := Announced(s, s.pending[first]);
    var begun := shown.(pending := shown.pending - {first});
    assert FirstCovering(begun.pending, order.requests, at).Some?;
    var t := Updated(begun, u, order);
    assert Dispatched(t, [], order) == t;
    assert Dispatched(begun, [u], order) == Dispatched(t, [u][1..], order) == t;
  }

  /** The exact condition, to be checked before an interest is opened or altered: its new
      zones are not being asked for already. It holds if and only if nothing that can
      follow makes the client miss the operation that an object waits for. */
  lemma OpeningIsSafeExactly(uberdogs: set<Doid>, permission: Permission, events: seq<Event>, e: Event, i: Interest)
    requires AllOpenApart(Fresh(uberdogs, permission), events)
    requires var s := After(Fresh(uberdogs, permission), events);
             s.standing == Connected && OpensInterest(s, e, i) && Next(s, e).standing == Connected
    ensures var s := After(Fresh(uberdogs, permission), events);
            AsksApart(s, i) <==> StaysSafe(Next(s, e))
    ensures var s := After(Fresh(uberdogs, permission), events);
            AsksApart(s, i) <==> SafeInAnyOrder(Next(s, e))
  {
    hide After, Next, Sound, AsksApart, AllWalk;
    FreshIsSound(uberdogs, permission);
    RunSound(Fresh(uberdogs, permission), events);
    var s := After(Fresh(uberdogs, permission), events);
    if AsksApart(s, i) {
      StepSound(s, e);
      forall more | AllOpenApart(Next(s, e), more) ensures After(Next(s, e), more).standing != Faulted {
        RunSound(Next(s, e), more);
      }
    } else {
      OverlapIsUnsafe(s, e, i);
      UnsafeWhenWalking(Next(s, e));
    }
  }

  lemma FreshIsSound(uberdogs: set<Doid>, permission: Permission)
    ensures Sound(Fresh(uberdogs, permission), 0, []) && Fresh(uberdogs, permission).standing == Connected
  {
  }
}
