/** Objects go with their parents: whoever has been heard by its parent does not outlive it. */
module ChildrenDeletion {
  import opened DistributedObject
  import opened VisibilityTree
  import opened ZoneQueries
  import opened Acknowledgements

  /** The order to go is under way to the children of an object. */
  ghost predicate Doomed(w: World, m: Message, todo: seq<Doid>, parent: Doid, d: Doid) {
    || (exists q :: q in w.queue && q.body == DeleteChildren(parent))
    || (m.body == DeleteChildren(parent) && d in todo)
  }

  /** An object whose last move was heard is in its parent's index, or is just about to be;
      and if the parent is gone the object is to go. */
  ghost predicate Traced(w: World, m: Message, todo: seq<Doid>, d: Doid)
    requires d in w.objects
  {
    var o := w.objects[d];
    d in w.heard && o.parent != INVALID_DO_ID && LastMove(w.queue, d).Nothing? ==>
      && (o.parent in todo && IsMove(m, d) ==> Tells(m, o) && !(m.body.oldParent == o.parent && m.body.oldZone == o.zone))
      && (o.parent in w.objects ==> o.zone in Indexed(w, o.parent, d) || (o.parent in todo && IsMove(m, d)))
      && (o.parent !in w.objects ==> Doomed(w, m, todo, o.parent, d))
  }

  ghost predicate AllTraced(w: World, m: Message, todo: seq<Doid>) {
    forall d | d in w.objects :: Traced(w, m, todo, d)
  }

  // ----- One handler -----

  lemma QueueKeepsDoom(w: World, w': World, m: Message, todo: seq<Doid>, parent: Doid, d: Doid)
    requires Doomed(w, m, todo, parent, d) && w.queue <= w'.queue && (d in todo ==> d in todo[1..])
    requires todo != []
    ensures Doomed(w', m, todo[1..], parent, d)
  {
    if q :| q in w.queue && q.body == DeleteChildren(parent) {
      assert q in w'.queue;
    }
  }

  /** The object itself handles the message: it stays where it is, or goes. */
  lemma OwnStaysTraced(w: World, m: Message, todo: seq<Doid>)
    requires Tree(w) && Pending(w, m, todo) && todo != [] && Traced(w, m, todo, todo[0])
    requires Handled(w.objects[todo[0]], m.body).Still?
    ensures Traced(Handle(w, todo[0], m.body), m, todo[1..], todo[0])
  {
    var d := todo[0];
    var w', o := Handle(w, d, m.body), w.objects[d];
    var after := Handled(o, m.body);
    OwnMoves(o, m.body);
    LastMoveConcat(w.queue, after.routed, d);
    assert forall e :: e in todo <==> e == d || e in todo[1..];
    assert w'.queue == w.queue + after.routed;
    if LastMove(w'.queue, d).Nothing? && d in w.heard && o.parent != INVALID_DO_ID {
      assert after.o.parent == o.parent && after.o.zone == o.zone;
      if o.parent !in w.objects {
        if m.body == DeleteChildren(o.parent) {
          assert false;
        }
        var q :| q in w.queue && q.body == DeleteChildren(o.parent);
        assert q in w'.queue;
      }
    }
  }

  /** The parent handles the message: it keeps the object in its index, or leaves the
      order to go behind. */
  lemma ParentKeepsTraced(w: World, m: Message, todo: seq<Doid>, d: Doid)
    requires Tree(w) && Pending(w, m, todo) && todo != [] && d in w.objects && d != todo[0] && Traced(w, m, todo, d)
    requires w.objects[d].parent == todo[0]
    ensures Traced(Handle(w, todo[0], m.body), m, todo[1..], d)
  {
    var p := todo[0];
    var w', o := Handle(w, p, m.body), w.objects[d];
    var after := Handled(w.objects[p], m.body);
    OthersMoves(w.objects[p], m.body, d);
    LastMoveConcat(w.queue, after.routed, d);
    assert w'.queue == w.queue + after.routed;
    assert p !in todo[1..];
    if LastMove(w'.queue, d).Nothing? && d in w.heard && o.parent != INVALID_DO_ID {
      if after.Still? {
        HandlingUpdatesIndex(w.objects[p], d, m);
        assert Indexed(w', p, d) == Effect(Indexed(w, p, d), p, d, m);
      } else {
        assert o.zone in ZonesOf(w.objects[p].zoneObjects, d);
        OrderLeft(w.objects[p], m.body, o.zone);
      }
    }
  }

  /** Whoever goes while it has a zone in its index tells its children to go. */
  lemma OrderLeft(o: ObjectState, body: Body, zone: Zone)
    requires Handled(o, body).Gone? && zone in o.zoneObjects
    ensures exists q :: q in Handled(o, body).routed && q.body == DeleteChildren(o.doid)
  {
    var routed := Handled(o, body).routed;
    var last := routed[|routed| - 1];
    assert last in routed && last.body == DeleteChildren(o.doid);
  }

  lemma OtherKeepsTraced(w: World, m: Message, todo: seq<Doid>, d: Doid)
    requires Tree(w) && Pending(w, m, todo) && todo != [] && d in w.objects && d != todo[0] && Traced(w, m, todo, d)
    requires w.objects[d].parent != todo[0]
    ensures Traced(Handle(w, todo[0], m.body), m, todo[1..], d)
  {
    var r := todo[0];
    var w', o := Handle(w, r, m.body), w.objects[d];
    var routed := Handled(w.objects[r], m.body).routed;
    OthersMoves(w.objects[r], m.body, d);
    LastMoveConcat(w.queue, routed, d);
    assert w'.queue == w.queue + routed;
    assert forall e :: e in todo <==> e == r || e in todo[1..];
    if LastMove(w'.queue, d).Nothing? && d in w.heard && o.parent != INVALID_DO_ID && o.parent !in w.objects {
      QueueKeepsDoom(w, w', m, todo, o.parent, d);
    }
  }

  lemma HandleKeepsTraced(w: World, m: Message, todo: seq<Doid>)
    requires Tree(w) && Pending(w, m, todo) && todo != [] && AllTraced(w, m, todo)
    ensures AllTraced(Handle(w, todo[0], m.body), m, todo[1..])
  {
    hide Traced, Handled;
    var w' := Handle(w, todo[0], m.body);
    forall d | d in w'.objects ensures Traced(w', m, todo[1..], d) {
      assert Traced(w, m, todo, d);
      if d == todo[0] {
        OwnStaysTraced(w, m, todo);
      } else if w.objects[d].parent == todo[0] {
        ParentKeepsTraced(w, m, todo, d);
      } else {
        OtherKeepsTraced(w, m, todo, d);
      }
    }
  }

  lemma {:induction false} HandleAllKeepsTraced(w: World, m: Message, todo: seq<Doid>)
    requires Tree(w) && Pending(w, m, todo) && AllTraced(w, m, todo)
    ensures AllTraced(HandleAll(w, todo, m.body), QUIET, [])
    decreases |todo|
  {
    if todo == [] {
      forall d | d in w.objects ensures Traced(w, QUIET, [], d) {
        assert Traced(w, m, todo, d);
      }
    } else {
      hide AllTraced, Handle;
      HandleKeepsTree(w, m, todo);
      HandleKeepsTraced(w, m, todo);
      HandleAllKeepsTraced(Handle(w, todo[0], m.body), m, todo[1..]);
    }
  }

  // ----- The steps of a run -----

  lemma TakenKeepsTraced(w: World, order: seq<Doid>, d: Doid)
    requires Tree(w) && Settled(w, QUIET, []) && w.queue != [] && IsDelivery(w, w.queue[0], order)
    requires d in w.objects && Traced(w, QUIET, [], d)
    ensures Traced(Taken(w), w.queue[0], order, d)
  {
    var m, w', o := w.queue[0], Taken(w), w.objects[d];
    assert w.queue == [m] + w'.queue;
    LastMoveConcat([m], w'.queue, d);
    assert [m][..0] == [];
    assert Kept(w, QUIET, [], d) && Sane(w, m) && Proper(w, m);
    assert forall q :: q in w.queue <==> q == m || q in w'.queue;
  }

  lemma RouteKeepsTraced(w: World, order: seq<Doid>)
    requires Good(w) && Settled(w, QUIET, []) && AllTraced(w, QUIET, []) && Enabled(w, Route(order))
    ensures AllTraced(Next(w, Route(order)), QUIET, [])
  {
    hide Traced, Settled, HandleAll;
    var m, w' := w.queue[0], Taken(w);
    assert forall q :: q in w'.queue ==> q in w.queue;
    assert forall q | q in w.queue :: Proper(w, q) && Proper(w', q);
    assert m in w.queue;
    forall d | d in w'.objects ensures Traced(w', m, order, d) {
      TakenKeepsTraced(w, order, d);
    }
    HandleAllKeepsTraced(w', m, order);
  }

  lemma CommandKeepsTraced(w: World, m: Message)
    requires AllTraced(w, QUIET, []) && IsCommand(m.body)
    ensures AllTraced(Next(w, Command(m)), QUIET, [])
  {
    var w' := Next(w, Command(m));
    forall d | d in w'.objects ensures Traced(w', QUIET, [], d) {
      assert Traced(w, QUIET, [], d);
      assert [m][..0] == [];
      LastMoveConcat(w.queue, [m], d);
      assert forall q | q in w.queue :: q in w'.queue;
    }
  }

  lemma GenerateKeepsTraced(w: World, doid: Doid, parent: Doid, zone: Zone)
    requires Tree(w) && Settled(w, QUIET, []) && AllTraced(w, QUIET, []) && Enabled(w, Generate(doid, parent, zone))
    ensures AllTraced(Next(w, Generate(doid, parent, zone)), QUIET, [])
  {
    hide LastMove, Moved;
    var w' := Next(w, Generate(doid, parent, zone));
    var routed := Moved(ObjectState(doid, INVALID_DO_ID, 0, false, map[]), parent, zone).1;
    forall d | d in w'.objects ensures Traced(w', QUIET, [], d) {
      if d != doid {
        assert Traced(w, QUIET, [], d) && Kept(w, QUIET, [], d);
        GeneratedMoves(w, doid, parent, zone, d);
        assert forall q | q in w.queue :: q in w'.queue;
      }
    }
  }

  lemma {:induction false} RunKeepsTraced(w: World, run: seq<Event>)
    requires Good(w) && Settled(w, QUIET, []) && AllTraced(w, QUIET, []) && Possible(w, run)
    ensures AllTraced(After(w, run), QUIET, [])
    decreases |run|
  {
    if run != [] {
      hide Settled, Good, AllTraced, Next;
      StepKeepsGood(w, run[0]);
      StepKeepsSettled(w, run[0]);
      StepKeepsTraced(w, run[0]);
      RunKeepsTraced(Next(w, run[0]), run[1..]);
    }
  }

  lemma StepKeepsTraced(w: World, e: Event)
    requires Good(w) && Settled(w, QUIET, []) && AllTraced(w, QUIET, []) && Enabled(w, e)
    ensures AllTraced(Next(w, e), QUIET, [])
  {
    hide Settled, AllTraced;
    match e
    case Generate(doid, parent, zone) => GenerateKeepsTraced(w, doid, parent, zone);
    case Command(m) => CommandKeepsTraced(w, m);
    case Route(order) => RouteKeepsTraced(w, order);
  }

  /** In every run, whenever the queue is drained, an object whose last move was delivered
      while its parent was alive still has that parent: had it gone, so had the object. */
  lemma ChildrenGoWithParents(run: seq<Event>, d: Doid)
    requires Possible(EMPTY_WORLD, run)
    ensures var w := After(EMPTY_WORLD, run);
            w.queue == [] && d in w.objects && d in w.heard ==>
              w.objects[d].parent == INVALID_DO_ID || w.objects[d].parent in w.objects
  {
    hide After, Possible;
    RunKeepsTraced(EMPTY_WORLD, run);
    var w := After(EMPTY_WORLD, run);
    if w.queue == [] && d in w.objects && d in w.heard {
      assert Traced(w, QUIET, [], d);
    }
  }
}
