/** Exactly which objects their parents have acknowledged: those whose last move was
    delivered while the new parent was alive to hear it. */
module Acknowledgements {
  import opened DistributedObject
  import opened VisibilityTree
  import opened ZoneQueries

  datatype Maybe = Nothing | Just(m: Message)

  predicate IsMove(m: Message, d: Doid) {
    m.body.ChangingLocation? && m.body.child == d
  }

  /** The last move of an object among the messages under way. */
  function LastMove(queue: seq<Message>, d: Doid): Maybe {
    if queue == [] then Nothing
    else if IsMove(queue[|queue|-1], d) then Just(queue[|queue|-1])
    else LastMove(queue[..|queue|-1], d)
  }

  lemma {:induction false} LastMoveConcat(a: seq<Message>, b: seq<Message>, d: Doid)
    ensures LastMove(a + b, d) == if LastMove(b, d).Just? then LastMove(b, d) else LastMove(a, d)
    decreases |b|
  {
    if b == [] {
      assert a + b == a;
    } else {
      assert (a + b)[..|a + b|-1] == a + b[..|b|-1];
      LastMoveConcat(a, b[..|b|-1], d);
    }
  }

  lemma {:induction false} LastMoveIsThere(queue: seq<Message>, d: Doid)
    ensures LastMove(queue, d).Just? ==> LastMove(queue, d).m in queue && IsMove(LastMove(queue, d).m, d)
    ensures LastMove(queue, d).Nothing? ==> forall m | m in queue :: !IsMove(m, d)
    decreases |queue|
  {
    if queue != [] {
      LastMoveIsThere(queue[..|queue|-1], d);
      assert queue == queue[..|queue|-1] + [queue[|queue|-1]];
    }
  }

  predicate Tells(m: Message, o: ObjectState) {
    m.body.ChangingLocation? && m.body.newParent == o.parent && m.body.newZone == o.zone
  }

  /** Moves are about objects there have been and reach the new parent; acknowledgements
      come from and go to objects there have been. */
  ghost predicate Sane(w: World, m: Message) {
    match m.body
    case ChangingLocation(child, newParent, newZone, oldParent, oldZone) =>
      child in w.ever && (newParent != INVALID_DO_ID ==>
        ToObject(newParent) in m.targets && !(oldParent == newParent && oldZone == newZone))
    case LocationAck(acker, _) => acker in w.ever && forall t | t in m.targets :: t.ToObject? && t.doid in w.ever
    case _ => true
  }

  ghost predicate AckPending(w: World, m: Message, todo: seq<Doid>, d: Doid)
    requires d in w.objects
  {
    (exists q :: q in w.queue && Acknowledges(q, w.objects[d])) || (d in todo && Acknowledges(m, w.objects[d]))
  }

  /** What holds of one object: the last move under way tells where it is; if its last
      delivered move was heard it is acknowledged, or will be; and if it is acknowledged
      its last delivered move was heard, or there is a later one. */
  ghost predicate Kept(w: World, m: Message, todo: seq<Doid>, d: Doid)
    requires d in w.objects
  {
    var o, last := w.objects[d], LastMove(w.queue, d);
    && (last.Just? ==> Tells(last.m, o))
    && (d in w.heard && o.parent in w.objects ==> Expected(w, m, todo, d))
    && (d in w.heard && last.Nothing? ==> o.parent in w.ever)
    && (o.synchronized || AckPending(w, m, todo, d) ==> o.parent in w.ever && (d in w.heard || last.Just? || o.parent !in w.objects))
  }

  ghost predicate Settled(w: World, m: Message, todo: seq<Doid>) {
    && (forall q | q in w.queue :: Sane(w, q))
    && Sane(w, m) && w.heard <= w.ever
    && (m.body.ChangingLocation? && m.body.newParent in todo ==> m.body.child in w.heard)
    && (forall d | d in w.objects :: Kept(w, m, todo, d))
  }

  // ----- One handler -----

  lemma OthersMoves(o: ObjectState, body: Body, d: Doid)
    requires d != o.doid
    ensures LastMove(Handled(o, body).routed, d) == Nothing
  {
    NoMoves(Handled(o, body).routed, d);
  }

  lemma {:induction false} NoMoves(queue: seq<Message>, d: Doid)
    requires forall m | m in queue :: !IsMove(m, d)
    ensures LastMove(queue, d) == Nothing
    decreases |queue|
  {
    if queue != [] {
      assert queue[|queue|-1] in queue;
      assert forall m | m in queue[..|queue|-1] :: m in queue;
      NoMoves(queue[..|queue|-1], d);
    }
  }

  lemma OwnMoves(o: ObjectState, body: Body)
    requires Handled(o, body).Still?
    ensures var after := Handled(o, body);
            var last := LastMove(after.routed, o.doid);
            if after.o.parent == o.parent && after.o.zone == o.zone then last == Nothing
            else last.Just? && Tells(last.m, after.o) && !after.o.synchronized
  {
    var after := Handled(o, body);
    match body {
      case SetLocation(newParent, newZone) =>
        MovedTells(o, newParent, newZone);
      case _ =>
        NoMoves(after.routed, o.doid);
    }
  }

  lemma MovedTells(o: ObjectState, newParent: Doid, newZone: Zone)
    ensures var (o', routed) := Moved(o, newParent, newZone);
            var last := LastMove(routed, o.doid);
            if o'.parent == o.parent && o'.zone == o.zone then last == Nothing
            else last.Just? && Tells(last.m, o') && !o'.synchronized
  {
    var (o', routed) := Moved(o, newParent, newZone);
    if routed != [] {
      assert routed == [routed[0]] + routed[1..];
      assert [routed[0]][..0] == [];
      LastMoveConcat([routed[0]], routed[1..], o.doid);
      NoMoves(routed[1..], o.doid);
    }
  }

  lemma RoutedIsSane(w: World, d: Doid, m: Message)
    requires Tree(w) && d in w.objects && Sane(w, m)
    ensures forall q | q in Handled(w.objects[d], m.body).routed :: Sane(w, q)
  {
    match m.body {
      case ChangingLocation(_, _, _, _, _) =>
      case SetLocation(_, _) =>
      case DeleteChildren(_) =>
      case DeleteRam(_) =>
      case GetZonesObjects(_, _, _, _) =>
      case _ =>
    }
  }

  /** A new acknowledgement is for a move that this parent has just heard. */
  lemma NewAckIsHeard(w: World, r: Doid, m: Message, q: Message, o: ObjectState)
    requires Tree(w) && r in w.objects && q in Handled(w.objects[r], m.body).routed && Acknowledges(q, o)
    ensures r == o.parent && m.body.ChangingLocation? && m.body.newParent == r && m.body.child == o.doid
  {
  }

  lemma HandleKeepsOne(w: World, m: Message, todo: seq<Doid>, d: Doid)
    requires Tree(w) && Pending(w, m, todo) && todo != [] && Settled(w, m, todo)
    requires d in Handle(w, todo[0], m.body).objects
    ensures Kept(Handle(w, todo[0], m.body), m, todo[1..], d)
  {
    var r := todo[0];
    var w' := Handle(w, r, m.body);
    var o, o' := w.objects[d], w'.objects[d];
    var routed := Handled(w.objects[r], m.body).routed;
    assert Kept(w, m, todo, d);
    assert w'.queue == w.queue + routed;
    LastMoveConcat(w.queue, routed, d);
    if r == d { OwnMoves(o, m.body); } else { OthersMoves(w.objects[r], m.body, d); }
    assert forall e :: e in todo <==> e == r || e in todo[1..];
    HeardStaysExpected(w, m, todo, d);
    if o'.synchronized || AckPending(w', m, todo[1..], d) {
      AcknowledgedBefore(w, m, todo, d);
    }
  }

  lemma HeardStaysExpected(w: World, m: Message, todo: seq<Doid>, d: Doid)
    requires Tree(w) && Pending(w, m, todo) && todo != []
    requires d in w.objects && Kept(w, m, todo, d) && d in Handle(w, todo[0], m.body).objects
    ensures var w' := Handle(w, todo[0], m.body);
            d in w'.heard && w'.objects[d].parent in w'.objects ==> Expected(w', m, todo[1..], d)
  {
    var w' := Handle(w, todo[0], m.body);
    if d in w'.heard && w'.objects[d].parent in w'.objects {
      HandleKeepsExpected(w, m, todo, d);
    }
  }

  lemma AcknowledgedBefore(w: World, m: Message, todo: seq<Doid>, d: Doid)
    requires Tree(w) && Pending(w, m, todo) && todo != [] && Settled(w, m, todo)
    requires var w' := Handle(w, todo[0], m.body);
             d in w'.objects && (w'.objects[d].synchronized || AckPending(w', m, todo[1..], d))
    ensures var w' := Handle(w, todo[0], m.body);
            var o' := w'.objects[d];
            o'.parent in w'.ever && (d in w'.heard || LastMove(w'.queue, d).Just? || o'.parent !in w'.objects)
  {
    var r := todo[0];
    var w' := Handle(w, r, m.body);
    var routed := Handled(w.objects[r], m.body).routed;
    assert Kept(w, m, todo, d);
    LastMoveConcat(w.queue, routed, d);
    if r == d { OwnMoves(w.objects[d], m.body); } else { OthersMoves(w.objects[r], m.body, d); }
    assert w'.queue == w.queue + routed;
    AckKnown(w, m, todo, d);
  }

  /** Where an acknowledgement comes from: it was there before, or the parent has just
      heard a move, or the object has moved to where an older one is still under way. */
  lemma AckKnown(w: World, m: Message, todo: seq<Doid>, d: Doid)
    requires Tree(w) && Pending(w, m, todo) && todo != [] && Settled(w, m, todo)
    requires var w' := Handle(w, todo[0], m.body);
             d in w'.objects && (w'.objects[d].synchronized || AckPending(w', m, todo[1..], d))
    ensures var w' := Handle(w, todo[0], m.body);
            if StaysAt(w, w', d)
            then w.objects[d].synchronized || AckPending(w, m, todo, d) || (d in w.heard && w'.objects[d].parent in w.ever)
            else todo[0] == d && w'.objects[d].parent in w.ever
  {
    hide Kept, LastMove;
    var r := todo[0];
    var w' := Handle(w, r, m.body);
    var o, o' := w.objects[d], w'.objects[d];
    var routed := Handled(w.objects[r], m.body).routed;
    if r == d { OwnMoves(o, m.body); }
    if AckPending(w', m, todo[1..], d) {
      if q :| q in w'.queue && Acknowledges(q, o') {
        if q in routed {
          NewAckIsHeard(w, r, m, q, o');
        } else {
          assert q in w.queue && Sane(w, q);
        }
      }
      assert d in todo[1..] ==> d in todo;
    }
  }

  lemma HandleKeepsSettled(w: World, m: Message, todo: seq<Doid>)
    requires Tree(w) && Pending(w, m, todo) && todo != [] && Settled(w, m, todo)
    ensures Settled(Handle(w, todo[0], m.body), m, todo[1..])
  {
    hide Kept;
    var w' := Handle(w, todo[0], m.body);
    RoutedIsSane(w, todo[0], m);
    forall q | q in w'.queue ensures Sane(w', q) {
      assert q in w.queue || q in Handled(w.objects[todo[0]], m.body).routed;
    }
    assert forall e | e in todo[1..] :: e in todo;
    forall d | d in w'.objects ensures Kept(w', m, todo[1..], d) {
      HandleKeepsOne(w, m, todo, d);
    }
  }

  lemma {:induction false} HandleAllKeepsSettled(w: World, m: Message, todo: seq<Doid>)
    requires Tree(w) && Pending(w, m, todo) && Settled(w, m, todo)
    ensures Settled(HandleAll(w, todo, m.body), QUIET, [])
    decreases |todo|
  {
    if todo == [] {
      forall d | d in w.objects ensures Kept(w, QUIET, [], d) {
        assert Kept(w, m, todo, d);
      }
    } else {
      hide Settled, Handle;
      HandleKeepsTree(w, m, todo);
      HandleKeepsSettled(w, m, todo);
      HandleAllKeepsSettled(Handle(w, todo[0], m.body), m, todo[1..]);
    }
  }

  // ----- The steps of a run -----

  lemma TakenKeepsOne(w: World, order: seq<Doid>, d: Doid)
    requires Tree(w) && Settled(w, QUIET, []) && w.queue != [] && IsDelivery(w, w.queue[0], order) && d in w.objects
    ensures Kept(Taken(w), w.queue[0], order, d)
  {
    var m, w', o := w.queue[0], Taken(w), w.objects[d];
    assert w.queue == [m] + w'.queue;
    assert forall q :: q in w.queue <==> q == m || q in w'.queue;
    LastMoveConcat([m], w'.queue, d);
    assert [m][..0] == [];
    LastMoveIsThere(w'.queue, d);
    assert Kept(w, QUIET, [], d);
    if IsMove(m, d) && LastMove(w'.queue, d).Just? {
      assert Sane(w, LastMove(w'.queue, d).m);
    }
    assert Sane(w, m);
  }

  lemma RouteKeepsSettled(w: World, order: seq<Doid>)
    requires Good(w) && Settled(w, QUIET, []) && Enabled(w, Route(order))
    ensures Settled(Next(w, Route(order)), QUIET, [])
  {
    hide Kept;
    var m, w' := w.queue[0], Taken(w);
    assert w.queue == [m] + w'.queue;
    assert forall q :: q in w.queue <==> q == m || q in w'.queue;
    assert forall q | q in w.queue :: Proper(w, q) && Proper(w', q) && Sane(w, q) && Sane(w', q);
    forall d | d in w'.objects ensures Kept(w', m, order, d) {
      TakenKeepsOne(w, order, d);
    }
    HandleAllKeepsSettled(w', m, order);
  }

  lemma CommandKeepsSettled(w: World, m: Message)
    requires Settled(w, QUIET, []) && IsCommand(m.body)
    ensures Settled(Next(w, Command(m)), QUIET, [])
  {
    var w' := Next(w, Command(m));
    assert forall q | q in w.queue :: Sane(w, q) && Sane(w', q);
    forall d | d in w'.objects ensures Kept(w', QUIET, [], d) {
      assert Kept(w, QUIET, [], d);
      assert [m][..0] == [];
      LastMoveConcat(w.queue, [m], d);
    }
  }

  lemma GeneratedMoves(w: World, doid: Doid, parent: Doid, zone: Zone, d: Doid)
    requires Enabled(w, Generate(doid, parent, zone))
    ensures var w' := Next(w, Generate(doid, parent, zone));
            var unplaced := ObjectState(doid, INVALID_DO_ID, 0, false, map[]);
            LastMove(w'.queue, d) == var last := LastMove(Moved(unplaced, parent, zone).1, d); if last.Just? then last else LastMove(w.queue, d)
  {
    var w' := Next(w, Generate(doid, parent, zone));
    var routed := Moved(ObjectState(doid, INVALID_DO_ID, 0, false, map[]), parent, zone).1;
    assert w'.queue == w.queue + (routed + [Waking(doid)]);
    LastMoveConcat(w.queue, routed + [Waking(doid)], d);
    LastMoveConcat(routed, [Waking(doid)], d);
    NoMoves([Waking(doid)], d);
  }

  lemma NewbornIsKept(w: World, doid: Doid, parent: Doid, zone: Zone)
    requires Tree(w) && Settled(w, QUIET, []) && Enabled(w, Generate(doid, parent, zone))
    ensures Kept(Next(w, Generate(doid, parent, zone)), QUIET, [], doid)
  {
    hide LastMove, Kept;
    var w' := Next(w, Generate(doid, parent, zone));
    var unplaced := ObjectState(doid, INVALID_DO_ID, 0, false, map[]);
    GeneratedMoves(w, doid, parent, zone, doid);
    LastMoveIsThere(w.queue, doid);
    assert forall q | q in w.queue :: Sane(w, q) && !IsMove(q, doid);
    MovedTells(unplaced, parent, zone);
    assert forall q | q in w.queue :: Sane(w, q) && !Acknowledges(q, w'.objects[doid]);
    assert !AckPending(w', QUIET, [], doid);
    NeverAcknowledged(w', doid);
  }

  lemma NeverAcknowledged(w: World, d: Doid)
    requires d in w.objects && d !in w.heard && !w.objects[d].synchronized && !AckPending(w, QUIET, [], d)
    requires LastMove(w.queue, d).Just? ==> Tells(LastMove(w.queue, d).m, w.objects[d])
    ensures Kept(w, QUIET, [], d)
  {
  }

  lemma GenerateKeepsOther(w: World, doid: Doid, parent: Doid, zone: Zone, d: Doid)
    requires Tree(w) && Settled(w, QUIET, []) && Enabled(w, Generate(doid, parent, zone)) && d in w.objects
    ensures Kept(Next(w, Generate(doid, parent, zone)), QUIET, [], d)
  {
    hide LastMove;
    var w' := Next(w, Generate(doid, parent, zone));
    var routed := Moved(ObjectState(doid, INVALID_DO_ID, 0, false, map[]), parent, zone).1;
    GeneratedMoves(w, doid, parent, zone, d);
    NoMoves(routed, d);
    LastMoveIsThere(w.queue, d);
    assert Kept(w, QUIET, [], d);
    if q :| q in w'.queue && Acknowledges(q, w'.objects[d]) { assert q in w.queue; }
    if LastMove(w.queue, d).Just? { assert Sane(w, LastMove(w.queue, d).m) && LastMove(w.queue, d).m in w'.queue; }
  }

  lemma GenerateKeepsSettled(w: World, doid: Doid, parent: Doid, zone: Zone)
    requires Tree(w) && Settled(w, QUIET, []) && Enabled(w, Generate(doid, parent, zone))
    ensures Settled(Next(w, Generate(doid, parent, zone)), QUIET, [])
  {
    hide Kept;
    var w' := Next(w, Generate(doid, parent, zone));
    assert forall q | q in w.queue :: Sane(w, q) && Sane(w', q);
    assert forall q | q in Created(doid, parent, zone).1 :: Sane(w', q);
    forall d | d in w'.objects ensures Kept(w', QUIET, [], d) {
      if d == doid { NewbornIsKept(w, doid, parent, zone); } else { GenerateKeepsOther(w, doid, parent, zone, d); }
    }
  }

  lemma {:induction false} RunKeepsSettled(w: World, run: seq<Event>)
    requires Good(w) && Settled(w, QUIET, []) && Possible(w, run)
    ensures Settled(After(w, run), QUIET, [])
    decreases |run|
  {
    if run != [] {
      hide Settled, Good, Next, Enabled;
      StepKeepsGood(w, run[0]);
      StepKeepsSettled(w, run[0]);
      RunKeepsSettled(Next(w, run[0]), run[1..]);
    }
  }

  lemma StepKeepsSettled(w: World, e: Event)
    requires Good(w) && Settled(w, QUIET, []) && Enabled(w, e)
    ensures Settled(Next(w, e), QUIET, [])
  {
    hide Settled;
    match e
    case Generate(doid, parent, zone) => GenerateKeepsSettled(w, doid, parent, zone);
    case Command(m) => CommandKeepsSettled(w, m);
    case Route(order) => RouteKeepsSettled(w, order);
  }

  /** In every run, whenever the queue is drained, an object under a live parent has been
      acknowledged exactly if the parent was alive when the object's last move was
      delivered. */
  lemma AcknowledgedExactly(run: seq<Event>, d: Doid)
    requires Possible(EMPTY_WORLD, run)
    ensures var w := After(EMPTY_WORLD, run);
            w.queue == [] && d in w.objects && w.objects[d].parent in w.objects ==>
              (w.objects[d].synchronized <==> d in w.heard)
  {
    hide After, Possible;
    RunKeepsSettled(EMPTY_WORLD, run);
    var w := After(EMPTY_WORLD, run);
    if w.queue == [] && d in w.objects && w.objects[d].parent in w.objects {
      assert Kept(w, QUIET, [], d);
    }
  }

  /** So a query is answered by as many interest entries as it announces exactly if the
      parent was alive at the last move of each of the objects in the zones. */
  lemma QueryAgreesExactly(run: seq<Event>, parent: Doid, zones: seq<Zone>, requester: Channel, context: nat, order: seq<Doid>)
    requires Possible(EMPTY_WORLD, run)
    requires var w := After(EMPTY_WORLD, run);
             && w.queue == [] && parent in w.objects && Distinct(zones)
             && IsDelivery(w, Message({ToChildrenOf(parent)}, GetZonesObjects(requester, context, parent, zones)), order)
    ensures var w := After(EMPTY_WORLD, run);
            var residents := Residents(w, parent, In(zones));
            && CountListed(w.objects[parent].zoneObjects, zones) == |residents|
            && (Entries(w, parent, requester, context, zones, order) == |residents| <==> residents <= w.heard)
  {
    hide After, Possible, Entries;
    var w := After(EMPTY_WORLD, run);
    QueryAgreement(run, parent, zones, requester, context, order);
    DrainedIndexCounts(run, parent, zones);
    forall d | d in Residents(w, parent, In(zones)) ensures w.objects[d].synchronized <==> d in w.heard {
      AcknowledgedExactly(run, d);
    }
  }

  // ----- The query as a run of its own -----

  /** The query is sent, reaches its parent, the count leaves for the requester, and the
      query passes to the children, each in its turn through the queue. */
  function QueryRun(parent: Doid, query: Body, relayed: bool, order: seq<Doid>): seq<Event> {
    [Command(Message({ToObject(parent)}, query)), Route([parent]), Route([])] + (if relayed then [Route(order)] else [])
  }

  lemma HandleOne(w: World, d: Doid, body: Body)
    requires d in w.objects
    ensures HandleAll(w, [d], body) == Handle(w, d, body) && HandleAll(w, [], body) == w
  {
    assert [d][1..] == [];
  }

  lemma QueryIsARun(w: World, parent: Doid, requester: Channel, context: nat, zones: seq<Zone>, order: seq<Doid>)
    requires Tree(w) && w.queue == [] && parent in w.objects
    requires IsDelivery(w, Message({ToChildrenOf(parent)}, GetZonesObjects(requester, context, parent, zones)), order)
    ensures var query := GetZonesObjects(requester, context, parent, zones);
            var relayed := CountListed(w.objects[parent].zoneObjects, zones) > 0;
            var run := QueryRun(parent, query, relayed, order);
            && Possible(w, run)
            && After(w, run) == if relayed then Answered(w, parent, query, order) else Asked(w, parent, query).(queue := [])
  {
    hide Asked, Answered, Next, Enabled;
    var query := GetZonesObjects(requester, context, parent, zones);
    var relayed := CountListed(w.objects[parent].zoneObjects, zones) > 0;
    var e1, e2, e3 := Command(Message({ToObject(parent)}, query)), Route([parent]), Route([]);
    var asked := Asked(w, parent, query);
    AskedAnnounces(w, parent, requester, context, zones);
    var w1, w3 := w.(queue := [Message({ToObject(parent)}, query)]), asked.(queue := asked.queue[1..]);
    ParentIsAsked(w, parent, query);
    CountLeaves(asked);
    var tail := if relayed then [Route(order)] else [];
    if relayed {
      RelayIsRouted(w, asked, parent, query, order);
      assert w3.queue == [Message({ToChildrenOf(parent)}, query)];
      assert Possible(Answered(w, parent, query, order), []) && [Route(order)] + [] == [Route(order)];
      Prepend(w3, Route(order), Answered(w, parent, query, order), []);
    }
    Prepend(asked, e3, w3, tail);
    Prepend(w1, e2, asked, [e3] + tail);
    Prepend(w, e1, w1, [e2] + ([e3] + tail));
    assert QueryRun(parent, query, relayed, order) == [e1] + ([e2] + ([e3] + tail));
  }

  lemma ParentIsAsked(w: World, parent: Doid, query: Body)
    requires Tree(w) && w.queue == [] && parent in w.objects && query.GetZonesObjects?
    ensures var m := Message({ToObject(parent)}, query);
            var w1 := w.(queue := [m]);
            && Enabled(w, Command(m)) && Next(w, Command(m)) == w1
            && Enabled(w1, Route([parent])) && Next(w1, Route([parent])) == Asked(w, parent, query)
  {
    hide Handle;
    var w1 := w.(queue := [Message({ToObject(parent)}, query)]);
    assert w.(queue := []) == w;
    assert IsDelivery(w1, w1.queue[0], [parent]);
    assert Taken(w1) == w;
    HandleOne(w, parent, query);
  }

  /** Nobody in the tree hears what goes to the requester. */
  lemma CountLeaves(w: World)
    requires w.queue != [] && w.queue[0].body.ZonesCount? && forall t | t in w.queue[0].targets :: t.ToPeer?
    ensures Enabled(w, Route([])) && Next(w, Route([])) == w.(queue := w.queue[1..])
  {
    assert IsDelivery(w, w.queue[0], []);
  }

  lemma RelayIsRouted(w: World, asked: World, parent: Doid, query: Body, order: seq<Doid>)
    requires Tree(w) && parent in w.objects && query.GetZonesObjects? && query.queried == parent
    requires asked == Asked(w, parent, query) && IsDelivery(w, Message({ToChildrenOf(parent)}, query), order)
    ensures var relay := asked.(queue := [Message({ToChildrenOf(parent)}, query)]);
            Enabled(relay, Route(order)) && Next(relay, Route(order)) == Answered(w, parent, query, order)
  {
    RelayedTo(w, asked, parent, query, order);
    hide Asked, HandleAll;
    var relay := asked.(queue := [Message({ToChildrenOf(parent)}, query)]);
    assert Taken(relay) == asked.(queue := []);
  }

  /** The children hear the relayed query as they would have before it. */
  lemma RelayedTo(w: World, asked: World, parent: Doid, query: Body, order: seq<Doid>)
    requires Tree(w) && parent in w.objects && query.GetZonesObjects? && query.queried == parent
    requires asked == Asked(w, parent, query) && IsDelivery(w, Message({ToChildrenOf(parent)}, query), order)
    ensures IsDelivery(asked.(queue := [Message({ToChildrenOf(parent)}, query)]), Message({ToChildrenOf(parent)}, query), order)
  {
  }
}
