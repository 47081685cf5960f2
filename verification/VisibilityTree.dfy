/** The tree as a whole: objects exchanging messages through the one queue of the
    message director, which hands each message to whoever is subscribed when it
    comes to the front. */
module VisibilityTree {
  import opened DistributedObject

  datatype World = World(
    objects: map<Doid, ObjectState>,  // the objects that are alive
    queue: seq<Message>,
    ever: set<Doid>,                  // every id ever used
    founded: set<Doid>,               // objects that last moved under a parent alive at that moment
    heard: set<Doid>)                 // objects whose last move so far delivered had its new parent alive to hear it

  /** The participants a message reaches: an object hears its own channel, and the
      children channel of its parent if it has one. */
  predicate Hears(o: ObjectState, m: Message) {
    ToObject(o.doid) in m.targets || (o.parent != INVALID_DO_ID && ToChildrenOf(o.parent) in m.targets)
  }

  /** The director's participants form a set without order: any order is possible. */
  predicate IsDelivery(w: World, m: Message, order: seq<Doid>) {
    && (forall i, j | 0 <= i < j < |order| :: order[i] != order[j])
    && (forall d | d in order :: d in w.objects && Hears(w.objects[d], m))
    && (forall d | d in w.objects && Hears(w.objects[d], m) :: d in order)
  }

  function Located(w: World, d: Doid, o: ObjectState): World {
    var moved := d !in w.objects || o.parent != w.objects[d].parent || o.zone != w.objects[d].zone;
    w.(objects := w.objects[d := o],
       founded := if !moved then w.founded else if o.parent in w.objects then w.founded + {d} else w.founded - {d})
  }

  /** One participant handles one message. */
  function Handle(w: World, d: Doid, body: Body): World
    requires d in w.objects
  {
    match Handled(w.objects[d], body)
    case Gone(routed) => w.(objects := w.objects - {d}, queue := w.queue + routed)
    case Still(o, routed) => Located(w, d, o).(queue := w.queue + routed)
  }

  function HandleAll(w: World, order: seq<Doid>, body: Body): World
    decreases |order|
  {
    if order == [] then w
    else HandleAll(if order[0] in w.objects then Handle(w, order[0], body) else w, order[1..], body)
  }

  /** What may happen: the state server generates an object under an id not used
      before; anybody sends an object a command; the director routes the front message. */
  datatype Event =
    | Generate(doid: Doid, parent: Doid, zone: Zone)
    | Command(message: Message)
    | Route(order: seq<Doid>)

  predicate IsCommand(body: Body) {
    body.SetLocation? || body.DeleteRam? || body.GetZonesObjects?
  }

  predicate Enabled(w: World, e: Event) {
    match e
    case Generate(doid, _, _) => doid != INVALID_DO_ID && doid !in w.ever
    case Command(m) => IsCommand(m.body)
    case Route(order) => w.queue != [] && IsDelivery(w, w.queue[0], order)
  }

  function Next(w: World, e: Event): World
    requires Enabled(w, e)
  {
    match e
    case Generate(doid, parent, zone) =>
      var (o, routed) := Created(doid, parent, zone);
      Located(w, doid, o).(queue := w.queue + routed, ever := w.ever + {doid})
    case Command(m) => w.(queue := w.queue + [m])
    case Route(order) => HandleAll(Taken(w), order, w.queue[0].body)
  }

  /** The front message leaves the queue. */
  function Taken(w: World): World
    requires w.queue != []
  {
    w.(queue := w.queue[1..], heard := Hearing(w, w.queue[0].body))
  }

  function Hearing(w: World, body: Body): set<Doid> {
    if !body.ChangingLocation? then w.heard
    else if body.newParent in w.objects then w.heard + {body.child}
    else w.heard - {body.child}
  }

  const EMPTY_WORLD := World(map[], [], {}, {}, {})

  predicate Possible(w: World, run: seq<Event>)
    decreases |run|
  {
    run == [] || (Enabled(w, run[0]) && Possible(Next(w, run[0]), run[1..]))
  }

  function After(w: World, run: seq<Event>): World
    requires Possible(w, run)
    decreases |run|
  {
    if run == [] then w else After(Next(w, run[0]), run[1..])
  }

  // ----- What the messages under way will make of an index -----

  /** The zones under which an index lists a child. */
  function ZonesOf(index: ZoneIndex, child: Doid): set<Zone> {
    set z | z in index && child in index[z]
  }

  function Indexed(w: World, parent: Doid, child: Doid): set<Zone> {
    if parent in w.objects then ZonesOf(w.objects[parent].zoneObjects, child) else {}
  }

  /** Where a child really is, as far as this parent is concerned. */
  function Actual(w: World, parent: Doid, child: Doid): set<Zone> {
    if child in w.objects then Under(w.objects[child], parent) else {}
  }

  function Under(o: ObjectState, parent: Doid): set<Zone> {
    if o.parent == parent then {o.zone} else {}
  }

  /** What hearing one message does to the zones under which a parent lists a child. */
  function Effect(zones: set<Zone>, parent: Doid, child: Doid, m: Message): set<Zone> {
    if ToObject(parent) !in m.targets then zones
    else match m.body
      case ChangingLocation(c, newParent, newZone, oldParent, oldZone) =>
        if c != child then zones
        else if newParent == parent && oldParent == parent && newZone == oldZone then zones
        else (if oldParent == parent then zones - {oldZone} else zones) + (if newParent == parent then {newZone} else {})
      case GetLocationResp(c, atParent, atZone) =>
        if c == child && atParent == parent then zones + {atZone} else zones
      case _ => zones
  }

  function Effects(zones: set<Zone>, parent: Doid, child: Doid, queue: seq<Message>): set<Zone> {
    if queue == [] then zones
    else Effect(Effects(zones, parent, child, queue[..|queue|-1]), parent, child, queue[|queue|-1])
  }

  lemma {:induction false} EffectsConcat(zones: set<Zone>, parent: Doid, child: Doid, a: seq<Message>, b: seq<Message>)
    ensures Effects(zones, parent, child, a + b) == Effects(Effects(zones, parent, child, a), parent, child, b)
    decreases |b|
  {
    if b == [] {
      assert a + b == a;
    } else {
      assert (a + b)[..|a + b|-1] == a + b[..|b|-1];
      EffectsConcat(zones, parent, child, a, b[..|b|-1]);
    }
  }

  lemma {:induction false} EffectsMonotonic(less: set<Zone>, more: set<Zone>, parent: Doid, child: Doid, queue: seq<Message>)
    requires less <= more
    ensures Effects(less, parent, child, queue) <= Effects(more, parent, child, queue)
    decreases |queue|
  {
    if queue != [] {
      EffectsMonotonic(less, more, parent, child, queue[..|queue|-1]);
    }
  }

  lemma EffectsFirst(zones: set<Zone>, parent: Doid, child: Doid, queue: seq<Message>)
    requires queue != []
    ensures Effects(zones, parent, child, queue) == Effects(Effect(zones, parent, child, queue[0]), parent, child, queue[1..])
  {
    assert queue == [queue[0]] + queue[1..];
    EffectsConcat(zones, parent, child, [queue[0]], queue[1..]);
    assert [queue[0]][..0] == [];
    assert Effects(zones, parent, child, [queue[0]]) == Effect(zones, parent, child, queue[0]);
  }

  /** A message that leaves this parent's listing of this child as it is. */
  ghost predicate Silent(m: Message, parent: Doid, child: Doid) {
    forall z: set<Zone> :: Effect(z, parent, child, m) == z
  }

  lemma {:induction false} NoEffects(zones: set<Zone>, parent: Doid, child: Doid, queue: seq<Message>)
    requires forall m | m in queue :: Silent(m, parent, child)
    ensures Effects(zones, parent, child, queue) == zones
    decreases |queue|
  {
    if queue != [] {
      assert queue[|queue|-1] in queue;
      assert forall m | m in queue[..|queue|-1] :: m in queue;
      NoEffects(zones, parent, child, queue[..|queue|-1]);
    }
  }

  // ----- One handler -----

  /** Effect is what handling the message does to the index of the parent. */
  lemma HandlingUpdatesIndex(o: ObjectState, child: Doid, m: Message)
    requires Handled(o, m.body).Still?
    requires m.body.ChangingLocation? || m.body.GetLocationResp? ==> ToObject(o.doid) in m.targets
    ensures ZonesOf(Handled(o, m.body).o.zoneObjects, child) == Effect(ZonesOf(o.zoneObjects, child), o.doid, child, m)
  {
  }

  /** No message an object routes says anything about where another object is. */
  lemma RoutesOnlyAboutItself(o: ObjectState, body: Body, parent: Doid, child: Doid, zones: set<Zone>)
    requires child != o.doid
    ensures Effects(zones, parent, child, Handled(o, body).routed) == zones
  {
    forall m | m in Handled(o, body).routed ensures Silent(m, parent, child) {
    }
    NoEffects(zones, parent, child, Handled(o, body).routed);
  }

  /** What an object routes about itself keeps pace with where it goes. A parent that
      was up to date stays so; one that asked is brought up to date; and in any case
      it never lists the child where it is not. Only a parent that is itself being
      deleted is not told. */
  lemma RoutesTrackMoves(o: ObjectState, body: Body, parent: Doid, zones: set<Zone>)
    requires parent != INVALID_DO_ID && parent != o.doid && o.parent != o.doid
    requires zones <= Under(o, parent)
    requires body != DeleteChildren(parent)
    ensures var after := Handled(o, body);
            var now := if after.Still? then Under(after.o, parent) else {};
            var zones' := Effects(zones, parent, o.doid, after.routed);
            && zones' <= now
            && (zones == Under(o, parent) || body == GetLocation(parent) ==> zones' == now)
  {
    match body
    case ChangingLocation(_, _, _, _, _) =>
      RoutesNothing(o, body, parent, zones);
    case LocationAck(_, _) =>
    case GetLocation(asker) =>
      EffectsOne(zones, parent, o.doid, Handled(o, body).routed);
    case GetLocationResp(_, _, _) =>
    case DeleteChildren(_) =>
      AnnihilationEffects(o, parent, zones, false);
      if Handled(o, body).Still? { RoutesNothing(o, body, parent, zones); }
    case DeleteRam(_) =>
      AnnihilationEffects(o, parent, zones, true);
    case SetLocation(newParent, newZone) =>
      MoveEffects(o, newParent, newZone, parent, zones);
    case GetZonesObjects(_, _, _, _) =>
      RoutesNothing(o, body, parent, zones);
    case ZonesCount(_, _) =>
    case EnterLocation(_) =>
    case EnterInterest(_, _) =>
  }

  lemma EffectsOne(zones: set<Zone>, parent: Doid, child: Doid, queue: seq<Message>)
    requires |queue| == 1
    ensures Effects(zones, parent, child, queue) == Effect(zones, parent, child, queue[0])
  {
    EffectsFirst(zones, parent, child, queue);
  }

  lemma RoutesNothing(o: ObjectState, body: Body, parent: Doid, zones: set<Zone>)
    requires body.ChangingLocation? || body.GetZonesObjects? || (body.DeleteChildren? && Handled(o, body).Still?)
    ensures Effects(zones, parent, o.doid, Handled(o, body).routed) == zones
  {
    forall m | m in Handled(o, body).routed ensures Silent(m, parent, o.doid) {
    }
    NoEffects(zones, parent, o.doid, Handled(o, body).routed);
  }

  lemma AnnihilationEffects(o: ObjectState, parent: Doid, zones: set<Zone>, notifyParent: bool)
    requires parent != INVALID_DO_ID && parent != o.doid
    ensures Effects(zones, parent, o.doid, Annihilated(o, notifyParent))
         == if notifyParent && o.parent == parent then zones - {o.zone} else zones
  {
    var routed := Annihilated(o, notifyParent);
    if notifyParent && o.parent != INVALID_DO_ID {
      EffectsFirst(zones, parent, o.doid, routed);
      forall m | m in routed[1..] ensures Silent(m, parent, o.doid) {
      }
      NoEffects(Effect(zones, parent, o.doid, routed[0]), parent, o.doid, routed[1..]);
    } else {
      forall m | m in routed ensures Silent(m, parent, o.doid) {
      }
      NoEffects(zones, parent, o.doid, routed);
    }
  }

  lemma MoveEffects(o: ObjectState, newParent: Doid, newZone: Zone, parent: Doid, zones: set<Zone>)
    requires parent != INVALID_DO_ID && zones <= Under(o, parent)
    ensures var (o', routed) := Moved(o, newParent, newZone);
            var zones' := Effects(zones, parent, o.doid, routed);
            && zones' <= Under(o', parent)
            && (zones == Under(o, parent) ==> zones' == Under(o', parent))
            && (o' != o ==> zones' == Under(o', parent))
  {
    var (o', routed) := Moved(o, newParent, newZone);
    if routed != [] {
      EffectsFirst(zones, parent, o.doid, routed);
      forall m | m in routed[1..] ensures Silent(m, parent, o.doid) {
      }
      NoEffects(Effect(zones, parent, o.doid, routed[0]), parent, o.doid, routed[1..]);
    }
  }

  // ----- The invariant -----

  /** The messages the protocol itself has routed are about what they seem to be about. */
  ghost predicate Proper(w: World, m: Message) {
    match m.body
    case ChangingLocation(child, newParent, _, oldParent, _) =>
      child != newParent && child != oldParent && forall t | t in m.targets :: !t.ToChildrenOf?
    case GetLocationResp(child, atParent, _) =>
      child != atParent && forall t | t in m.targets :: !t.ToChildrenOf?
    case GetLocation(asker) => m.targets == {ToChildrenOf(asker)}
    case DeleteChildren(deleted) => m.targets == {ToChildrenOf(deleted)} && deleted in w.ever && deleted !in w.objects
    case _ => true
  }

  ghost predicate Tree(w: World) {
    && (forall d | d in w.objects :: w.objects[d].doid == d && d != INVALID_DO_ID && d in w.ever && w.objects[d].parent != d
          && ZonesOf(w.objects[d].zoneObjects, d) == {})
    && (forall m | m in w.queue :: Proper(w, m))
  }

  /** A wake query that this child has still to hear. todo are the participants that
      have yet to handle the message m, which has left the queue. */
  ghost predicate Awaiting(w: World, m: Message, todo: seq<Doid>, parent: Doid, child: Doid) {
    || (exists q :: q in w.queue && q.body == GetLocation(parent))
    || (m.body == GetLocation(parent) && child in todo)
  }

  /** The index of a parent, once the messages under way have been heard, lists a
      child nowhere but where it is; and it does list it there, unless the parent was
      generated after the child and its wake query is still under way. */
  ghost predicate Agrees(w: World, m: Message, todo: seq<Doid>, parent: Doid, child: Doid) {
    var indexed := if parent in todo then Effect(Indexed(w, parent, child), parent, child, m) else Indexed(w, parent, child);
    var zones := Effects(indexed, parent, child, w.queue);
    && (parent in w.objects || parent !in w.ever ==> zones <= Actual(w, parent, child))
    && (parent in w.objects && !Awaiting(w, m, todo, parent, child) ==> zones == Actual(w, parent, child))
  }

  /** Those who have still to handle a message that left the queue. */
  ghost predicate Pending(w: World, m: Message, todo: seq<Doid>) {
    && Proper(w, m)
    && (forall d | d in todo :: d in w.objects && Hears(w.objects[d], m))
    && (forall i, j | 0 <= i < j < |todo| :: todo[i] != todo[j])
  }

  lemma RoutedIsProper(w: World, d: Doid, m: Message)
    requires Tree(w) && d in w.objects && Proper(w, m) && Hears(w.objects[d], m)
    ensures forall r | r in Handled(w.objects[d], m.body).routed :: Proper(Handle(w, d, m.body), r)
  {
  }

  lemma HandleKeepsTree(w: World, m: Message, todo: seq<Doid>)
    requires Tree(w) && Pending(w, m, todo) && todo != []
    ensures Tree(Handle(w, todo[0], m.body)) && Pending(Handle(w, todo[0], m.body), m, todo[1..])
  {
    var d := todo[0];
    var w' := Handle(w, d, m.body);
    RoutedIsProper(w, d, m);
    if Handled(w.objects[d], m.body).Still? {
      HandlingUpdatesIndex(w.objects[d], d, m);
    }
    assert forall q | q in w.queue :: Proper(w', q);
    HandleKeepsPending(w, m, todo);
  }

  lemma HandleKeepsPending(w: World, m: Message, todo: seq<Doid>)
    requires Tree(w) && Pending(w, m, todo) && todo != []
    ensures Pending(Handle(w, todo[0], m.body), m, todo[1..])
  {
    assert forall e | e in todo[1..] :: e in todo && e != todo[0];
  }

  lemma HandleKeepsAgreement(w: World, m: Message, todo: seq<Doid>, parent: Doid, child: Doid)
    requires Tree(w) && Pending(w, m, todo) && todo != []
    requires parent != INVALID_DO_ID && parent != child
    requires Agrees(w, m, todo, parent, child)
    ensures Agrees(Handle(w, todo[0], m.body), m, todo[1..], parent, child)
  {
    var d := todo[0];
    var o := w.objects[d];
    var w' := Handle(w, d, m.body);
    var routed := Handled(o, m.body).routed;
    var indexed := if parent in todo then Effect(Indexed(w, parent, child), parent, child, m) else Indexed(w, parent, child);
    var zones := Effects(indexed, parent, child, w.queue);
    EffectsConcat(indexed, parent, child, w.queue, routed);
    assert forall e :: e in todo <==> e == d || e in todo[1..];
    if d == child {
      if (parent in w.objects || parent !in w.ever) {
        RoutesTrackMoves(o, m.body, parent, zones);
      }
    } else {
      RoutesOnlyAboutItself(o, m.body, parent, child, zones);
      if d == parent && w'.objects.Keys == w.objects.Keys {
        HandlingUpdatesIndex(o, child, m);
      }
    }
  }

  lemma {:induction false} HandleAllKeeps(w: World, m: Message, todo: seq<Doid>)
    requires Tree(w) && Pending(w, m, todo)
    requires forall p, c | p != INVALID_DO_ID && p != c :: Agrees(w, m, todo, p, c)
    ensures Good(HandleAll(w, todo, m.body))
    decreases |todo|
  {
    if todo == [] {
      forall p, c | p != INVALID_DO_ID && p != c ensures Agrees(w, QUIET, [], p, c) {
        assert Agrees(w, m, todo, p, c);
      }
    } else {
      HandleKeepsTree(w, m, todo);
      forall p, c | p != INVALID_DO_ID && p != c ensures Agrees(Handle(w, todo[0], m.body), m, todo[1..], p, c) {
        HandleKeepsAgreement(w, m, todo, p, c);
      }
      HandleAllKeeps(Handle(w, todo[0], m.body), m, todo[1..]);
    }
  }

  const QUIET := Message({}, ZonesCount(0, 0))

  /** What holds between the steps of every run. */
  ghost predicate Good(w: World) {
    Tree(w) && forall p, c | p != INVALID_DO_ID && p != c :: Agrees(w, QUIET, [], p, c)
  }

  lemma RouteBegins(w: World, order: seq<Doid>, parent: Doid, child: Doid)
    requires Tree(w) && w.queue != [] && IsDelivery(w, w.queue[0], order)
    requires parent != INVALID_DO_ID && parent != child && Agrees(w, QUIET, [], parent, child)
    ensures Agrees(Taken(w), w.queue[0], order, parent, child)
  {
    var m := w.queue[0];
    var w' := Taken(w);
    assert w.queue == [m] + w'.queue;
    var indexed := Indexed(w, parent, child);
    EffectsFirst(indexed, parent, child, w.queue);
    if parent !in order {
      EffectsMonotonic(indexed, Effect(indexed, parent, child, m), parent, child, w'.queue);
    }
    assert forall q :: q in w.queue <==> q == m || q in w'.queue;
    if m.body == GetLocation(parent) && child !in order {
      assert Proper(w, m);
      assert Actual(w, parent, child) == {};
    }
  }

  lemma RouteKeeps(w: World, order: seq<Doid>)
    requires Good(w) && Enabled(w, Route(order))
    ensures Good(Next(w, Route(order)))
  {
    var m := w.queue[0];
    var w' := Taken(w);
    assert w.queue == [m] + w'.queue;
    assert forall q :: q in w.queue <==> q == m || q in w'.queue;
    assert forall q | q in w.queue :: Proper(w, q) && Proper(w', q);
    forall p, c | p != INVALID_DO_ID && p != c ensures Agrees(w', m, order, p, c) {
      RouteBegins(w, order, p, c);
    }
    HandleAllKeeps(w', m, order);
  }

  lemma CommandKeeps(w: World, m: Message)
    requires Good(w) && IsCommand(m.body)
    ensures Good(Next(w, Command(m)))
  {
    var w' := Next(w, Command(m));
    assert forall q | q in w.queue :: Proper(w, q);
    assert forall q | q in w'.queue :: Proper(w', q);
    forall p, c | p != INVALID_DO_ID && p != c ensures Agrees(w', QUIET, [], p, c) {
      assert Agrees(w, QUIET, [], p, c);
      assert (w.queue + [m])[..|w.queue|] == w.queue;
    }
  }

  lemma GenerateKeepsTree(w: World, doid: Doid, parent: Doid, zone: Zone)
    requires Tree(w) && Enabled(w, Generate(doid, parent, zone))
    ensures Tree(Next(w, Generate(doid, parent, zone)))
  {
    var w' := Next(w, Generate(doid, parent, zone));
    assert forall q | q in w.queue :: Proper(w, q) && Proper(w', q);
    assert forall q | q in Created(doid, parent, zone).1 :: Proper(w', q);
  }

  lemma GenerateKeepsAgreement(w: World, doid: Doid, parent: Doid, zone: Zone, p: Doid, c: Doid)
    requires Tree(w) && Enabled(w, Generate(doid, parent, zone))
    requires p != INVALID_DO_ID && p != c && Agrees(w, QUIET, [], p, c)
    ensures Agrees(Next(w, Generate(doid, parent, zone)), QUIET, [], p, c)
  {
    var w' := Next(w, Generate(doid, parent, zone));
    var unplaced := ObjectState(doid, INVALID_DO_ID, 0, false, map[]);
    var routed := Moved(unplaced, parent, zone).1;
    var indexed := Indexed(w, p, c);
    assert Indexed(w', p, c) == indexed;
    EffectsConcat(indexed, p, c, w.queue, routed + [Waking(doid)]);
    var zones := Effects(indexed, p, c, w.queue);
    assert (routed + [Waking(doid)])[..|routed|] == routed;
    assert Effects(zones, p, c, routed + [Waking(doid)]) == Effects(zones, p, c, routed);
    if c == doid {
      if p in w.objects || p !in w.ever {
        MoveEffects(unplaced, parent, zone, p, zones);
      }
    } else {
      forall m | m in routed ensures Silent(m, p, c) {
      }
      NoEffects(zones, p, c, routed);
      if p == doid {
        assert w'.queue[|w'.queue| - 1] == Waking(doid);
        assert Waking(doid) in w'.queue;
      }
    }
  }

  lemma StepKeepsGood(w: World, e: Event)
    requires Good(w) && Enabled(w, e)
    ensures Good(Next(w, e))
  {
    match e
    case Generate(doid, parent, zone) =>
      GenerateKeepsTree(w, doid, parent, zone);
      forall p, c | p != INVALID_DO_ID && p != c ensures Agrees(Next(w, e), QUIET, [], p, c) {
        GenerateKeepsAgreement(w, doid, parent, zone, p, c);
      }
    case Command(m) =>
      CommandKeeps(w, m);
    case Route(order) =>
      RouteKeeps(w, order);
  }

  lemma {:induction false} RunKeepsGood(w: World, run: seq<Event>)
    requires Good(w) && Possible(w, run)
    ensures Good(After(w, run))
    decreases |run|
  {
    if run != [] {
      StepKeepsGood(w, run[0]);
      RunKeepsGood(Next(w, run[0]), run[1..]);
    }
  }

  /** In every run, whenever the queue is drained, every object that is alive lists in
      each of its zones exactly the live objects located there. */
  lemma DrainedIndexIsExact(run: seq<Event>, parent: Doid, zone: Zone, child: Doid)
    requires Possible(EMPTY_WORLD, run)
    ensures var w := After(EMPTY_WORLD, run);
            w.queue == [] && parent in w.objects ==>
              (child in Listed(w.objects[parent].zoneObjects, zone) <==>
               child in w.objects && w.objects[child].parent == parent && w.objects[child].zone == zone)
  {
    RunKeepsGood(EMPTY_WORLD, run);
    var w := After(EMPTY_WORLD, run);
    if w.queue == [] && parent in w.objects && parent != child {
      assert Agrees(w, QUIET, [], parent, child);
      assert zone in Indexed(w, parent, child) <==> zone in Actual(w, parent, child);
    }
    if w.queue == [] && parent in w.objects && parent == child {
      assert zone !in ZonesOf(w.objects[parent].zoneObjects, child);
    }
  }
}
