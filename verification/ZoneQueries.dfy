/** Whether a client that asks a parent for the objects in some zones is told to
    expect as many of them as will answer. */
module ZoneQueries {
  import opened DistributedObject
  import opened VisibilityTree

  // ----- Synchronisation -----

  /** The parent has still to hear where this object went, and will acknowledge it. */
  ghost predicate Announces(m: Message, o: ObjectState) {
    && m.body.ChangingLocation? && ToObject(o.parent) in m.targets
    && m.body.child == o.doid && m.body.newParent == o.parent && m.body.newZone == o.zone
    && !(m.body.oldParent == o.parent && m.body.oldZone == o.zone)
  }

  ghost predicate Acknowledges(m: Message, o: ObjectState) {
    ToObject(o.doid) in m.targets && m.body == LocationAck(o.parent, o.zone)
  }

  ghost predicate Expected(w: World, m: Message, todo: seq<Doid>, d: Doid)
    requires d in w.objects
  {
    var o := w.objects[d];
    || o.synchronized
    || (exists q :: q in w.queue && (Announces(q, o) || Acknowledges(q, o)))
    || (o.parent in todo && Announces(m, o))
    || (d in todo && Acknowledges(m, o))
  }

  /** An object that moved under a live parent is known to it, or will be. */
  ghost predicate KeptInformed(w: World, m: Message, todo: seq<Doid>) {
    && (forall d | d in w.objects && d in w.founded :: w.objects[d].parent in w.ever)
    && (forall d | d in w.objects && d in w.founded && w.objects[d].parent in w.objects :: Expected(w, m, todo, d))
  }

  lemma MoveAnnounces(o: ObjectState, newParent: Doid, newZone: Zone)
    requires Moved(o, newParent, newZone).0 != o && newParent != INVALID_DO_ID
    ensures var (o', routed) := Moved(o, newParent, newZone);
            exists q :: q in routed && Announces(q, o')
  {
    var (o', routed) := Moved(o, newParent, newZone);
    assert Announces(routed[0], o');
    assert routed[0] in routed;
  }

  lemma MoverIsExpected(w: World, m: Message, d: Doid, todo: seq<Doid>)
    requires Tree(w) && d in w.objects
    requires var w' := Handle(w, d, m.body);
             && d in w'.objects && w'.objects[d].parent in w'.objects
             && (w'.objects[d].parent != w.objects[d].parent || w'.objects[d].zone != w.objects[d].zone)
    ensures Expected(Handle(w, d, m.body), m, todo, d)
  {
    var w' := Handle(w, d, m.body);
    MoveAnnounces(w.objects[d], m.body.newParent, m.body.newZone);
    var q :| q in Handled(w.objects[d], m.body).routed && Announces(q, w'.objects[d]);
    assert q in w'.queue;
  }

  /** A parent that hears the announcement of a move acknowledges it. */
  lemma ParentAcknowledges(w: World, m: Message, o: ObjectState)
    requires o.parent in w.objects && w.objects[o.parent].doid == o.parent && Announces(m, o)
    ensures exists q :: q in Handle(w, o.parent, m.body).queue && Acknowledges(q, o)
  {
    var ack := Message({ToObject(o.doid)}, LocationAck(o.parent, o.zone));
    assert Handled(w.objects[o.parent], m.body).routed == [ack];
    assert Handle(w, o.parent, m.body).queue == w.queue + [ack];
    assert ack in Handle(w, o.parent, m.body).queue && Acknowledges(ack, o);
  }

  predicate StaysAt(w: World, w': World, d: Doid)
    requires d in w.objects && d in w'.objects
  {
    w'.objects[d].parent == w.objects[d].parent && w'.objects[d].zone == w.objects[d].zone
  }

  lemma HandleKeepsExpected(w: World, m: Message, todo: seq<Doid>, d: Doid)
    requires Tree(w) && Pending(w, m, todo) && todo != []
    requires var w' := Handle(w, todo[0], m.body);
             d in w'.objects && w'.objects[d].parent in w'.objects
             && (StaysAt(w, w', d) ==> Expected(w, m, todo, d))
    ensures Expected(Handle(w, todo[0], m.body), m, todo[1..], d)
  {
    var r := todo[0];
    var w' := Handle(w, r, m.body);
    var o := w.objects[d];
    assert forall e :: e in todo <==> e == r || e in todo[1..];
    if !StaysAt(w, w', d) {
      MoverIsExpected(w, m, d, todo[1..]);
    } else {
      if r == o.parent && Announces(m, o) {
        ParentAcknowledges(w, m, o);
      }
      if q :| q in w.queue && (Announces(q, o) || Acknowledges(q, o)) {
        assert q in w'.queue;
        assert Announces(q, w'.objects[d]) || Acknowledges(q, w'.objects[d]);
      }
    }
  }

  lemma HandleKeepsInformed(w: World, m: Message, todo: seq<Doid>)
    requires Tree(w) && Pending(w, m, todo) && todo != [] && KeptInformed(w, m, todo)
    ensures KeptInformed(Handle(w, todo[0], m.body), m, todo[1..])
  {
    var w' := Handle(w, todo[0], m.body);
    forall d | d in w'.objects && d in w'.founded && w'.objects[d].parent in w'.objects
      ensures Expected(w', m, todo[1..], d)
    {
      HandleKeepsExpected(w, m, todo, d);
    }
  }

  lemma {:induction false} HandleAllKeepsInformed(w: World, m: Message, todo: seq<Doid>)
    requires Tree(w) && Pending(w, m, todo) && KeptInformed(w, m, todo)
    ensures KeptInformed(HandleAll(w, todo, m.body), QUIET, [])
    decreases |todo|
  {
    if todo == [] {
      forall d | d in w.objects && d in w.founded && w.objects[d].parent in w.objects ensures Expected(w, QUIET, [], d) {
        assert Expected(w, m, todo, d);
      }
    } else {
      HandleKeepsTree(w, m, todo);
      HandleKeepsInformed(w, m, todo);
      HandleAllKeepsInformed(Handle(w, todo[0], m.body), m, todo[1..]);
    }
  }

  lemma RouteKeepsInformed(w: World, order: seq<Doid>)
    requires Good(w) && Enabled(w, Route(order)) && KeptInformed(w, QUIET, [])
    ensures KeptInformed(Next(w, Route(order)), QUIET, [])
  {
    var m := w.queue[0];
    var w' := Taken(w);
    assert w.queue == [m] + w'.queue;
    assert forall q :: q in w.queue <==> q == m || q in w'.queue;
    assert forall q | q in w.queue :: Proper(w, q) && Proper(w', q);
    forall d | d in w'.objects && d in w'.founded && w'.objects[d].parent in w'.objects ensures Expected(w', m, order, d) {
      assert Expected(w, QUIET, [], d);
    }
    HandleAllKeepsInformed(w', m, order);
  }

  lemma GenerateKeepsInformed(w: World, doid: Doid, parent: Doid, zone: Zone)
    requires Good(w) && Enabled(w, Generate(doid, parent, zone)) && KeptInformed(w, QUIET, [])
    ensures KeptInformed(Next(w, Generate(doid, parent, zone)), QUIET, [])
  {
    var w' := Next(w, Generate(doid, parent, zone));
    forall d | d in w'.objects && d in w'.founded && w'.objects[d].parent in w'.objects ensures Expected(w', QUIET, [], d) {
      if d == doid {
        var unplaced := ObjectState(doid, INVALID_DO_ID, 0, false, map[]);
        MoveAnnounces(unplaced, parent, zone);
        var q :| q in Moved(unplaced, parent, zone).1 && Announces(q, w'.objects[d]);
        assert q in w'.queue;
      } else {
        assert Expected(w, QUIET, [], d);
      }
    }
  }

  lemma StepKeepsInformed(w: World, e: Event)
    requires Good(w) && Enabled(w, e) && KeptInformed(w, QUIET, [])
    ensures KeptInformed(Next(w, e), QUIET, [])
  {
    match e
    case Generate(doid, parent, zone) => GenerateKeepsInformed(w, doid, parent, zone);
    case Command(m) =>
      forall d | d in w.objects && d in w.founded && w.objects[d].parent in w.objects ensures Expected(Next(w, e), QUIET, [], d) {
        assert Expected(w, QUIET, [], d);
      }
    case Route(order) => RouteKeepsInformed(w, order);
  }

  lemma {:induction false} RunKeepsInformed(w: World, run: seq<Event>)
    requires Good(w) && Possible(w, run) && KeptInformed(w, QUIET, [])
    ensures KeptInformed(After(w, run), QUIET, [])
    decreases |run|
  {
    if run != [] {
      StepKeepsGood(w, run[0]);
      StepKeepsInformed(w, run[0]);
      RunKeepsInformed(Next(w, run[0]), run[1..]);
    }
  }

  /** In every run, whenever the queue is drained, an object that last moved while its
      present parent was alive has that parent's acknowledgement. */
  lemma FoundedIsSynchronized(run: seq<Event>, d: Doid)
    requires Possible(EMPTY_WORLD, run)
    ensures var w := After(EMPTY_WORLD, run);
            w.queue == [] && d in w.objects && d in w.founded && w.objects[d].parent in w.objects ==> w.objects[d].synchronized
  {
    RunKeepsInformed(EMPTY_WORLD, run);
    var w := After(EMPTY_WORLD, run);
    if d in w.objects && d in w.founded && w.objects[d].parent in w.objects {
      assert Expected(w, QUIET, [], d);
    }
  }

  // ----- Counting -----

  function Residents(w: World, parent: Doid, zones: set<Zone>): set<Doid> {
    set d | d in w.objects && w.objects[d].parent == parent && w.objects[d].zone in zones
  }

  predicate Distinct(zones: seq<Zone>) {
    forall i, j | 0 <= i < j < |zones| :: zones[i] != zones[j]
  }

  function Ready(w: World, residents: set<Doid>): set<Doid>
    requires residents <= w.objects.Keys
  {
    set d | d in residents && w.objects[d].synchronized
  }

  function In(zones: seq<Zone>): set<Zone> {
    set z | z in zones
  }

  lemma ResidentsOneMore(w: World, parent: Doid, init: seq<Zone>, last: Zone)
    requires last !in init
    ensures Residents(w, parent, In(init + [last])) == Residents(w, parent, In(init)) + Residents(w, parent, {last})
    ensures Residents(w, parent, In(init)) !! Residents(w, parent, {last})
  {
    assert In(init + [last]) == In(init) + {last};
  }

  /** The count a parent announces is the number of objects located in the zones. */
  lemma {:induction false} CountIsResidents(w: World, parent: Doid, index: ZoneIndex, zones: seq<Zone>)
    requires Distinct(zones)
    requires forall z :: Listed(index, z) == Residents(w, parent, {z})
    ensures CountListed(index, zones) == |Residents(w, parent, In(zones))|
    decreases |zones|
  {
    if zones == [] {
      assert Residents(w, parent, In(zones)) == {};
    } else {
      hide Residents;
      var init, last := zones[..|zones|-1], zones[|zones|-1];
      CountIsResidents(w, parent, index, init);
      assert zones == init + [last];
      ResidentsOneMore(w, parent, init, last);
    }
  }

  /** The interest entries for one query among the messages on their way. */
  function InterestEntries(queue: seq<Message>, context: nat): nat {
    if queue == [] then 0
    else InterestEntries(queue[..|queue|-1], context) + (if IsEntry(queue[|queue|-1], context) then 1 else 0)
  }

  predicate IsEntry(m: Message, context: nat) {
    m.body.EnterInterest? && m.body.context == context
  }

  function Answering(w: World, order: seq<Doid>, zones: seq<Zone>): set<Doid> {
    set d | d in order && d in w.objects && w.objects[d].zone in zones && w.objects[d].synchronized
  }

  lemma RelayOne(w: World, d: Doid, requester: Channel, context: nat, parent: Doid, zones: seq<Zone>)
    requires d in w.objects && w.objects[d].parent == parent
    ensures var w' := Handle(w, d, GetZonesObjects(requester, context, parent, zones));
            && w' == w.(queue := w'.queue)
            && InterestEntries(w'.queue, context) == InterestEntries(w.queue, context)
                 + (if w.objects[d].zone in zones && w.objects[d].synchronized then 1 else 0)
  {
    var routed := Handled(w.objects[d], GetZonesObjects(requester, context, parent, zones)).routed;
    assert w.objects[d := w.objects[d]] == w.objects;
    if routed == [] {
      assert w.queue + routed == w.queue;
    } else {
      assert (w.queue + routed)[..|w.queue|] == w.queue;
    }
  }

  lemma AnsweringOneMore(w: World, order: seq<Doid>, zones: seq<Zone>)
    requires order != [] && order[0] in w.objects && order[0] !in order[1..]
    ensures |Answering(w, order, zones)| == |Answering(w, order[1..], zones)|
              + (if w.objects[order[0]].zone in zones && w.objects[order[0]].synchronized then 1 else 0)
  {
    var rest := Answering(w, order[1..], zones);
    assert order == [order[0]] + order[1..];
    if w.objects[order[0]].zone in zones && w.objects[order[0]].synchronized {
      assert Answering(w, order, zones) == rest + {order[0]};
    } else {
      assert Answering(w, order, zones) == rest;
    }
  }

  /** Each child of the parent that hears the relayed query answers for itself, with an
      interest entry exactly when it is in one of the zones and synchronized. */
  lemma {:induction false} RelayAnswers(w: World, order: seq<Doid>, requester: Channel, context: nat, parent: Doid, zones: seq<Zone>)
    requires forall d | d in order :: d in w.objects && w.objects[d].parent == parent
    requires forall i, j | 0 <= i < j < |order| :: order[i] != order[j]
    ensures var w' := HandleAll(w, order, GetZonesObjects(requester, context, parent, zones));
            && w'.objects == w.objects
            && InterestEntries(w'.queue, context) == InterestEntries(w.queue, context) + |Answering(w, order, zones)|
    decreases |order|
  {
    if order == [] {
      assert Answering(w, order, zones) == {};
    } else {
      hide Handle, InterestEntries;
      RelayOne(w, order[0], requester, context, parent, zones);
      var w' := Handle(w, order[0], GetZonesObjects(requester, context, parent, zones));
      RelayAnswers(w', order[1..], requester, context, parent, zones);
      AnsweringOneMore(w, order, zones);
      assert Answering(w', order[1..], zones) == Answering(w, order[1..], zones);
    }
  }

  lemma DrainedIndexCounts(run: seq<Event>, parent: Doid, zones: seq<Zone>)
    requires Possible(EMPTY_WORLD, run)
    requires var w := After(EMPTY_WORLD, run);
             w.queue == [] && parent in w.objects && Distinct(zones)
    ensures var w := After(EMPTY_WORLD, run);
            CountListed(w.objects[parent].zoneObjects, zones) == |Residents(w, parent, In(zones))|
  {
    var w := After(EMPTY_WORLD, run);
    var index := w.objects[parent].zoneObjects;
    forall z ensures Listed(index, z) == Residents(w, parent, {z}) {
      forall d ensures d in Listed(index, z) <==> d in Residents(w, parent, {z}) {
        DrainedIndexIsExact(run, parent, z, d);
      }
    }
    CountIsResidents(w, parent, index, zones);
  }

  /** The course of one query on a tree in which nothing else moves: the parent handles
      it, and if it announces any children they all handle the relayed copy, in
      whatever order. */
  function Asked(w: World, parent: Doid, query: Body): World
    requires parent in w.objects
  {
    Handle(w.(queue := []), parent, query)
  }

  function Answered(w: World, parent: Doid, query: Body, order: seq<Doid>): World
    requires parent in w.objects
  {
    HandleAll(Asked(w, parent, query).(queue := []), order, query)
  }

  lemma AskedAnnounces(w: World, parent: Doid, requester: Channel, context: nat, zones: seq<Zone>)
    requires Tree(w) && parent in w.objects
    ensures var query := GetZonesObjects(requester, context, parent, zones);
            var count := CountListed(w.objects[parent].zoneObjects, zones);
            Asked(w, parent, query).queue
              == [Message({ToPeer(requester)}, ZonesCount(context, count))]
                 + (if count > 0 then [Message({ToChildrenOf(parent)}, query)] else [])
    ensures forall d | d in w.objects && d != parent ::
              d in Asked(w, parent, GetZonesObjects(requester, context, parent, zones)).objects
              && Asked(w, parent, GetZonesObjects(requester, context, parent, zones)).objects[d] == w.objects[d]
  {
  }

  /** The synchronized residents answer with interest entries, and nobody else. */
  lemma InterestEntriesAreSynchronized(w: World, parent: Doid, requester: Channel, context: nat, zones: seq<Zone>, order: seq<Doid>)
    requires Tree(w) && parent in w.objects
    requires IsDelivery(w, Message({ToChildrenOf(parent)}, GetZonesObjects(requester, context, parent, zones)), order)
    ensures InterestEntries(Answered(w, parent, GetZonesObjects(requester, context, parent, zones), order).queue, context)
         == |Ready(w, Residents(w, parent, In(zones)))|
  {
    var query := GetZonesObjects(requester, context, parent, zones);
    var asked := Asked(w, parent, query).(queue := []);
    AskedAnnounces(w, parent, requester, context, zones);
    hide Asked, HandleAll;
    assert parent !in order;
    RelayAnswers(asked, order, requester, context, parent, zones);
    assert Answering(asked, order, zones) == Ready(w, Residents(w, parent, In(zones)));
  }

  ghost predicate AllSynchronized(w: World, residents: set<Doid>)
    requires residents <= w.objects.Keys
  {
    forall d | d in residents :: w.objects[d].synchronized
  }

  /** The number of interest entries with which a query is answered. */
  function Entries(w: World, parent: Doid, requester: Channel, context: nat, zones: seq<Zone>, order: seq<Doid>): nat
    requires parent in w.objects
  {
    InterestEntries(Answered(w, parent, GetZonesObjects(requester, context, parent, zones), order).queue, context)
  }

  lemma EntriesMatch(w: World, parent: Doid, requester: Channel, context: nat, zones: seq<Zone>, order: seq<Doid>)
    requires Tree(w) && parent in w.objects
    requires IsDelivery(w, Message({ToChildrenOf(parent)}, GetZonesObjects(requester, context, parent, zones)), order)
    ensures Entries(w, parent, requester, context, zones, order) == |Residents(w, parent, In(zones))|
       <==> AllSynchronized(w, Residents(w, parent, In(zones)))
  {
    hide Answered, InterestEntries;
    InterestEntriesAreSynchronized(w, parent, requester, context, zones, order);
    var residents := Residents(w, parent, In(zones));
    SubsetOfSameSize(Ready(w, residents), residents);
  }

  /** On a drained tree a query over distinct zones announces the number of objects
      located there, and passes the query down if there are any. It is answered by as
      many interest entries exactly when all of them are synchronized, and they are if
      each moved there while the parent was alive. */
  lemma QueryAgreement(run: seq<Event>, parent: Doid, zones: seq<Zone>, requester: Channel, context: nat, order: seq<Doid>)
    requires Possible(EMPTY_WORLD, run)
    requires var w := After(EMPTY_WORLD, run);
             && w.queue == [] && parent in w.objects && Distinct(zones)
             && IsDelivery(w, Message({ToChildrenOf(parent)}, GetZonesObjects(requester, context, parent, zones)), order)
    ensures var w := After(EMPTY_WORLD, run);
            var query := GetZonesObjects(requester, context, parent, zones);
            var residents := Residents(w, parent, In(zones));
            var announcement := Message({ToPeer(requester)}, ZonesCount(context, |residents|));
            var relayed := if |residents| > 0 then [Message({ToChildrenOf(parent)}, query)] else [];
            && Asked(w, parent, query).queue == [announcement] + relayed
            && (Entries(w, parent, requester, context, zones, order) == |residents| <==> AllSynchronized(w, residents))
            && (residents <= w.founded ==> Entries(w, parent, requester, context, zones, order) == |residents|)
  {
    var w := After(EMPTY_WORLD, run);
    RunKeepsGood(EMPTY_WORLD, run);
    hide Entries, Asked, Good, KeptInformed, After, Possible;
    DrainedIndexCounts(run, parent, zones);
    AskedAnnounces(w, parent, requester, context, zones);
    EntriesMatch(w, parent, requester, context, zones, order);
    var residents := Residents(w, parent, In(zones));
    if residents <= w.founded {
      forall d | d in residents ensures w.objects[d].synchronized {
        FoundedIsSynchronized(run, d);
      }
    }
  }

  lemma SubsetOfSameSize(a: set<Doid>, b: set<Doid>)
    requires a <= b
    ensures |a| <= |b| && (|a| == |b| <==> a == b)
  {
    assert b == a + (b - a);
  }

  lemma Prepend(w: World, e: Event, w': World, run: seq<Event>)
    requires Enabled(w, e) && Next(w, e) == w' && Possible(w', run)
    ensures Possible(w, [e] + run) && After(w, [e] + run) == After(w', run)
  {
    assert ([e] + run)[1..] == run;
  }

  // The worlds of the run below: a child alone, then with its parent, then listed by it.
  const CHILD := ObjectState(2, 1, 5, false, map[])
  const PARENT := ObjectState(1, INVALID_DO_ID, 0, false, map[])
  const MOVE := Message({ToObject(1)}, ChangingLocation(2, 1, 5, INVALID_DO_ID, 0))
  const ENTRY := Message({ToLocation(1, 5)}, EnterLocation(2))
  const REPLY := Message({ToObject(1)}, GetLocationResp(2, 1, 5))
  const ALONE := World(map[2 := CHILD], [], {2}, {}, {})
  const BOTH := World(map[2 := CHILD, 1 := PARENT], [], {1, 2}, {}, {})
  const LISTED := World(map[2 := CHILD, 1 := PARENT.(zoneObjects := map[5 := {2}])], [], {1, 2}, {}, {})

  lemma ChildFirst()
    ensures Enabled(EMPTY_WORLD, Generate(2, 1, 5))
    ensures Next(EMPTY_WORLD, Generate(2, 1, 5)) == ALONE.(queue := [MOVE, ENTRY, Waking(2)])
  {
    assert {ToObject(1)} == {} + {ToObject(1)};
  }

  /** Nobody is there to hear the child. */
  lemma NobodyHears(m: Message, rest: seq<Message>)
    requires m in {MOVE, ENTRY, Waking(2)}
    ensures Enabled(ALONE.(queue := [m] + rest), Route([]))
    ensures Next(ALONE.(queue := [m] + rest), Route([])) == ALONE.(queue := rest)
  {
    assert ([m] + rest)[1..] == rest;
  }

  lemma ParentWakesChild()
    ensures Enabled(ALONE, Generate(1, INVALID_DO_ID, 0))
    ensures Next(ALONE, Generate(1, INVALID_DO_ID, 0)) == BOTH.(queue := [Waking(1)])
    ensures Enabled(BOTH.(queue := [Waking(1)]), Route([2]))
    ensures Next(BOTH.(queue := [Waking(1)]), Route([2])) == BOTH.(queue := [REPLY])
  {
    assert [2][1..] == [] && [Waking(1)][1..] == [];
    assert BOTH.objects[2 := CHILD] == BOTH.objects;
    var w := BOTH.(queue := [Waking(1)]);
    assert IsDelivery(w, Waking(1), [2]);
  }

  lemma ParentListsChild()
    ensures Enabled(BOTH.(queue := [REPLY]), Route([1]))
    ensures Next(BOTH.(queue := [REPLY]), Route([1])) == LISTED
  {
    assert [1][1..] == [] && [REPLY][1..] == [];
    assert IsDelivery(BOTH.(queue := [REPLY]), REPLY, [1]);
    assert Listed(map[], 5) + {2} == {2};
  }

  lemma ListedIsNotAnswered(context: nat)
    ensures Residents(LISTED, 1, {5}) == {2} && Entries(LISTED, 1, 0, context, [5], [2]) == 0
  {
    assert IsDelivery(LISTED, Message({ToChildrenOf(1)}, GetZonesObjects(0, context, 1, [5])), [2]);
    InterestEntriesAreSynchronized(LISTED, 1, 0, context, [5], [2]);
    assert Ready(LISTED, Residents(LISTED, 1, In([5]))) == {};
  }

  /** A parent generated after its child counts the child it has woken, but the child,
      never acknowledged, answers with a location entry: nobody sends an interest entry. */
  lemma LateParentIsNotAnswered(context: nat)
    ensures exists run :: Possible(EMPTY_WORLD, run) && After(EMPTY_WORLD, run) == LISTED
    ensures Residents(LISTED, 1, {5}) == {2} && Entries(LISTED, 1, 0, context, [5], [2]) == 0
  {
    hide Next, Enabled, Entries, Residents;
    ListedIsNotAnswered(context);
    ParentListsChild();
    Prepend(BOTH.(queue := [REPLY]), Route([1]), LISTED, []);
    var run := [Route([1])] + [];
    ParentWakesChild();
    Prepend(BOTH.(queue := [Waking(1)]), Route([2]), BOTH.(queue := [REPLY]), run);
    run := [Route([2])] + run;
    Prepend(ALONE, Generate(1, INVALID_DO_ID, 0), BOTH.(queue := [Waking(1)]), run);
    run := [Generate(1, INVALID_DO_ID, 0)] + run;
    NobodyHears(Waking(2), []);
    Prepend(ALONE.(queue := [Waking(2)] + []), Route([]), ALONE, run);
    run := [Route([])] + run;
    NobodyHears(ENTRY, [Waking(2)] + []);
    Prepend(ALONE.(queue := [ENTRY] + ([Waking(2)] + [])), Route([]), ALONE.(queue := [Waking(2)] + []), run);
    run := [Route([])] + run;
    NobodyHears(MOVE, [ENTRY] + ([Waking(2)] + []));
    Prepend(ALONE.(queue := [MOVE] + ([ENTRY] + ([Waking(2)] + []))), Route([]), ALONE.(queue := [ENTRY] + ([Waking(2)] + [])), run);
    run := [Route([])] + run;
    ChildFirst();
    assert [MOVE] + ([ENTRY] + ([Waking(2)] + [])) == [MOVE, ENTRY, Waking(2)];
    Prepend(EMPTY_WORLD, Generate(2, 1, 5), ALONE.(queue := [MOVE] + ([ENTRY] + ([Waking(2)] + []))), run);
  }
}
