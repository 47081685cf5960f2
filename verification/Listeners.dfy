/** What those who listen to a location make of the messages routed to it. */
module Listeners {
  import opened DistributedObject
  import opened VisibilityTree
  import opened ZoneQueries

  /** A listener knows an object from its entry, until it is told that the object
      went elsewhere or was deleted. */
  function HeardOne(known: set<Doid>, m: Message, parent: Doid, zone: Zone): set<Doid> {
    if ToLocation(parent, zone) !in m.targets then known
    else match m.body
      case EnterLocation(entered) => known + {entered}
      case ChangingLocation(child, newParent, newZone, _, _) =>
        if newParent == parent && newZone == zone then known else known - {child}
      case DeleteRam(deleted) => known - {deleted}
      case _ => known
  }

  function Heard(known: set<Doid>, messages: seq<Message>, parent: Doid, zone: Zone): set<Doid> {
    if messages == [] then known
    else HeardOne(Heard(known, messages[..|messages|-1], parent, zone), messages[|messages|-1], parent, zone)
  }

  /** How many messages of the queue are still there after the event. */
  function Kept(w: World, e: Event): nat
    requires Enabled(w, e)
  {
    if e.Route? then |w.queue| - 1 else |w.queue|
  }

  /** The messages that the objects route in one step: those that stand in the queue
      behind what stood there before. A command comes from outside. */
  function Routed(w: World, e: Event): seq<Message>
    requires Enabled(w, e)
  {
    QueueGrows(w, e);
    if e.Command? then [] else Next(w, e).queue[Kept(w, e)..]
  }

  function RoutedIn(w: World, run: seq<Event>): seq<Message>
    requires Possible(w, run)
    decreases |run|
  {
    if run == [] then [] else Routed(w, run[0]) + RoutedIn(Next(w, run[0]), run[1..])
  }

  lemma {:induction false} HandleAllGrows(w: World, order: seq<Doid>, body: Body)
    ensures |w.queue| <= |HandleAll(w, order, body).queue|
    decreases |order|
  {
    if order != [] {
      HandleAllGrows(if order[0] in w.objects then Handle(w, order[0], body) else w, order[1..], body);
    }
  }

  lemma QueueGrows(w: World, e: Event)
    requires Enabled(w, e)
    ensures Kept(w, e) <= |Next(w, e).queue|
  {
    if e.Route? {
      HandleAllGrows(Taken(w), e.order, w.queue[0].body);
    }
  }

  lemma {:induction false} HeardConcat(known: set<Doid>, a: seq<Message>, b: seq<Message>, parent: Doid, zone: Zone)
    ensures Heard(known, a + b, parent, zone) == Heard(Heard(known, a, parent, zone), b, parent, zone)
    decreases |b|
  {
    if b == [] {
      assert a + b == a;
    } else {
      assert (a + b)[..|a + b|-1] == a + b[..|b|-1];
      HeardConcat(known, a, b[..|b|-1], parent, zone);
    }
  }

  lemma HeardThree(known: set<Doid>, messages: seq<Message>, parent: Doid, zone: Zone)
    requires |messages| <= 3
    ensures |messages| == 0 ==> Heard(known, messages, parent, zone) == known
    ensures |messages| == 1 ==> Heard(known, messages, parent, zone) == HeardOne(known, messages[0], parent, zone)
    ensures |messages| == 2 ==> Heard(known, messages, parent, zone) == HeardOne(HeardOne(known, messages[0], parent, zone), messages[1], parent, zone)
    ensures |messages| == 3 ==>
              var two := HeardOne(HeardOne(known, messages[0], parent, zone), messages[1], parent, zone);
              Heard(known, messages, parent, zone) == HeardOne(two, messages[2], parent, zone)
  {
    var n := |messages|;
    if n > 0 {
      var m1 := messages[..n-1];
      if n > 1 {
        var m2 := m1[..n-2];
        if n > 2 {
          assert m2[..n-3] == [];
        }
      }
    }
  }

  /** Where one object is, as far as a location is concerned. */
  function Here(o: ObjectState, parent: Doid, zone: Zone): set<Doid> {
    if o.parent == parent && o.zone == zone then {o.doid} else {}
  }

  /** What one object routes to a location tells there where the object goes. */
  lemma MovedIsHeard(o: ObjectState, newParent: Doid, newZone: Zone, known: set<Doid>, parent: Doid, zone: Zone)
    requires parent != INVALID_DO_ID && (o.doid in known <==> Here(o, parent, zone) != {})
    ensures var (o', routed) := Moved(o, newParent, newZone);
            Heard(known, routed, parent, zone) == known - {o.doid} + Here(o', parent, zone)
  {
    var routed := Moved(o, newParent, newZone).1;
    HeardThree(known, routed, parent, zone);
  }

  lemma AnnihilatedIsHeard(o: ObjectState, notifyParent: bool, known: set<Doid>, parent: Doid, zone: Zone)
    requires parent != INVALID_DO_ID && (o.doid in known <==> Here(o, parent, zone) != {})
    ensures Heard(known, Annihilated(o, notifyParent), parent, zone) == known - {o.doid}
  {
    HeardThree(known, Annihilated(o, notifyParent), parent, zone);
  }

  lemma HandlingIsHeard(o: ObjectState, body: Body, known: set<Doid>, parent: Doid, zone: Zone)
    requires parent != INVALID_DO_ID && (o.doid in known <==> Here(o, parent, zone) != {})
    ensures var after := Handled(o, body);
            var here := if after.Still? then Here(after.o, parent, zone) else {};
            Heard(known, after.routed, parent, zone) == known - {o.doid} + here
  {
    hide Heard, Annihilated, Moved, Insert, Remove, Touch, CountListed;
    match body
    case SetLocation(newParent, newZone) =>
      MovedIsHeard(o, newParent, newZone, known, parent, zone);
    case DeleteRam(_) =>
      AnnihilatedIsHeard(o, true, known, parent, zone);
      HeardThree(known, [], parent, zone);
    case DeleteChildren(_) =>
      AnnihilatedIsHeard(o, false, known, parent, zone);
      HeardThree(known, ChildrenDeletion(o), parent, zone);
      HeardThree(known, [], parent, zone);
    case _ =>
      StaysWhereItIs(o, body);
      NothingHeard(known, Handled(o, body).routed, parent, zone);
  }

  lemma {:induction false} NothingHeard(known: set<Doid>, messages: seq<Message>, parent: Doid, zone: Zone)
    requires forall m, t | m in messages && t in m.targets :: !t.ToLocation?
    ensures Heard(known, messages, parent, zone) == known
    decreases |messages|
  {
    if messages != [] {
      var last, here := messages[|messages|-1], ToLocation(parent, zone);
      assert last in messages && here.ToLocation? && here !in last.targets;
      NothingHeard(known, messages[..|messages|-1], parent, zone);
    }
  }

  /** Every other datagram leaves the object where it is and tells no location. */
  lemma StaysWhereItIs(o: ObjectState, body: Body)
    requires !body.SetLocation? && !body.DeleteRam? && !body.DeleteChildren?
    ensures var after := Handled(o, body);
            && after.Still? && after.o.doid == o.doid && after.o.parent == o.parent && after.o.zone == o.zone
            && forall m, t | m in after.routed && t in m.targets :: !t.ToLocation?
  {
  }

  lemma HandleIsHeard(w: World, d: Doid, body: Body, known: set<Doid>, from: nat, parent: Doid, zone: Zone)
    requires d in w.objects && w.objects[d].doid == d && parent != INVALID_DO_ID && from <= |w.queue|
    requires forall e | e in w.objects :: w.objects[e].doid == e
    requires Heard(known, w.queue[from..], parent, zone) == Residents(w, parent, {zone})
    ensures var w' := Handle(w, d, body);
            from <= |w'.queue| && Heard(known, w'.queue[from..], parent, zone) == Residents(w', parent, {zone})
  {
    hide Heard, Handled;
    var w' := Handle(w, d, body);
    var after := Handled(w.objects[d], body);
    assert w'.queue[from..] == w.queue[from..] + after.routed;
    HeardConcat(known, w.queue[from..], after.routed, parent, zone);
    HandlingIsHeard(w.objects[d], body, Residents(w, parent, {zone}), parent, zone);
    HandledKeepsId(w.objects[d], body);
  }

  lemma HandledKeepsId(o: ObjectState, body: Body)
    ensures var after := Handled(o, body);
            after.Still? ==> after.o.doid == o.doid
  {
  }

  lemma {:induction false} HandleAllIsHeard(w: World, m: Message, todo: seq<Doid>, known: set<Doid>, from: nat, parent: Doid, zone: Zone)
    requires Tree(w) && Pending(w, m, todo) && parent != INVALID_DO_ID && from <= |w.queue|
    requires Heard(known, w.queue[from..], parent, zone) == Residents(w, parent, {zone})
    ensures var w' := HandleAll(w, todo, m.body);
            from <= |w'.queue| && Heard(known, w'.queue[from..], parent, zone) == Residents(w', parent, {zone})
    decreases |todo|
  {
    hide Heard, Handle, Residents;
    if todo != [] {
      assert todo[0] in todo;
      HandleKeepsTree(w, m, todo);
      HandleIsHeard(w, todo[0], m.body, known, from, parent, zone);
      HandleAllIsHeard(Handle(w, todo[0], m.body), m, todo[1..], known, from, parent, zone);
    }
  }

  lemma StepIsHeard(w: World, e: Event, parent: Doid, zone: Zone)
    requires Good(w) && Enabled(w, e) && parent != INVALID_DO_ID
    ensures Heard(Residents(w, parent, {zone}), Routed(w, e), parent, zone) == Residents(Next(w, e), parent, {zone})
  {
    var known := Residents(w, parent, {zone});
    match e
    case Generate(doid, newParent, newZone) =>
      GenerationIsHeard(w, doid, newParent, newZone, parent, zone);
    case Command(_) =>
      HeardThree(known, [], parent, zone);
    case Route(order) =>
      RouteIsHeard(w, order, parent, zone);
  }

  lemma RouteIsHeard(w: World, order: seq<Doid>, parent: Doid, zone: Zone)
    requires Good(w) && Enabled(w, Route(order)) && parent != INVALID_DO_ID
    ensures Heard(Residents(w, parent, {zone}), Routed(w, Route(order)), parent, zone) == Residents(Next(w, Route(order)), parent, {zone})
  {
    hide Heard, HandleAll;
    var known := Residents(w, parent, {zone});
    var m, w1 := w.queue[0], Taken(w);
    assert m in w.queue && forall q | q in w1.queue :: q in w.queue;
    assert Tree(w1) && Pending(w1, m, order);
    assert w1.queue[|w1.queue|..] == [];
    HeardThree(known, [], parent, zone);
    assert Residents(w1, parent, {zone}) == known;
    HandleAllIsHeard(w1, m, order, known, |w1.queue|, parent, zone);
  }

  lemma GenerationIsHeard(w: World, doid: Doid, newParent: Doid, newZone: Zone, parent: Doid, zone: Zone)
    requires Good(w) && Enabled(w, Generate(doid, newParent, newZone)) && parent != INVALID_DO_ID
    ensures var e := Generate(doid, newParent, newZone);
            Heard(Residents(w, parent, {zone}), Routed(w, e), parent, zone) == Residents(Next(w, e), parent, {zone})
  {
    hide Heard, Moved;
    var e := Generate(doid, newParent, newZone);
    var known := Residents(w, parent, {zone});
    var unplaced := ObjectState(doid, INVALID_DO_ID, 0, false, map[]);
    var (o, routed) := Moved(unplaced, newParent, newZone);
    assert Routed(w, e) == routed + [Waking(doid)];
    assert doid !in w.objects;
    MovedIsHeard(unplaced, newParent, newZone, known, parent, zone);
    HeardConcat(known, routed, [Waking(doid)], parent, zone);
    HeardThree(Heard(known, routed, parent, zone), [Waking(doid)], parent, zone);
    assert o.doid == doid by {
      MovedKeepsId(unplaced, newParent, newZone);
    }
  }

  lemma MovedKeepsId(o: ObjectState, newParent: Doid, newZone: Zone)
    ensures Moved(o, newParent, newZone).0.doid == o.doid
  {
  }

  lemma {:induction false} RunIsHeard(w: World, run: seq<Event>, parent: Doid, zone: Zone)
    requires Good(w) && Possible(w, run) && parent != INVALID_DO_ID
    ensures Heard(Residents(w, parent, {zone}), RoutedIn(w, run), parent, zone) == Residents(After(w, run), parent, {zone})
    decreases |run|
  {
    hide Heard, Residents, Routed, Good;
    var known := Residents(w, parent, {zone});
    if run == [] {
      HeardThree(known, [], parent, zone);
    } else {
      StepKeepsGood(w, run[0]);
      StepIsHeard(w, run[0], parent, zone);
      var w' := Next(w, run[0]);
      HeardConcat(known, Routed(w, run[0]), RoutedIn(w', run[1..]), parent, zone);
      RunIsHeard(w', run[1..], parent, zone);
    }
  }

  /** At every step of every run, whoever has listened to a location knows, from the
      messages routed there alone, exactly the live objects located there. */
  lemma ListenersKnowResidents(run: seq<Event>, parent: Doid, zone: Zone, d: Doid)
    requires Possible(EMPTY_WORLD, run) && parent != INVALID_DO_ID
    ensures var w := After(EMPTY_WORLD, run);
            d in Heard({}, RoutedIn(EMPTY_WORLD, run), parent, zone) <==>
              d in w.objects && w.objects[d].parent == parent && w.objects[d].zone == zone
  {
    RunIsHeard(EMPTY_WORLD, run, parent, zone);
    assert Residents(EMPTY_WORLD, parent, {zone}) == {};
  }
}
