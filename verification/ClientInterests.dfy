/** What a client sees of the object tree: its open interests, the operations that are
    still collecting the objects of a new interest, and the objects that came into view. */
module ClientInterests {
  type Doid = nat
  type Zone = nat
  type Context = nat
  type InterestId = nat

  datatype Option<T> = None | Some(value: T)

  datatype Location = Location(parent: Doid, zone: Zone)

  datatype Interest = Interest(parent: Doid, zones: set<Zone>)

  /** Datagrams about one object, which an unfinished operation may hold back. */
  datatype ObjectUpdate =
    | EnterLocation(d: Doid, at: Location)
    | ChangingLocation(d: Doid, at: Location)
    | DeleteRam(d: Doid)
    | SetField(d: Doid)

  datatype Datagram =
    | Update(update: ObjectUpdate)
    | EnterInterest(request: Context, d: Doid, at: Location)
    | ZonesCount(request: Context, count: nat)
    | EnterOwner(d: Doid, at: Location)
    | ChangingOwner(d: Doid, toUs: bool)
    | AddSessionObject(d: Doid)
    | RemoveSessionObject(d: Doid)
    | DeclareObject(d: Doid)
    | UndeclareObject(d: Doid)
    | AddInterest(id: InterestId, interest: Interest, caller: nat)
    | RemoveInterest(id: InterestId, caller: nat)
    | Eject

  /** Datagrams sent, to the client itself or into the cluster. */
  datatype Sent =
    | Enter(d: Doid, at: Location)
    | Leaving(d: Doid)
    | Moved(d: Doid, at: Location)
    | FieldUpdate(d: Doid)
    | EnterAsOwner(d: Doid, at: Location)
    | LeavingAsOwner(d: Doid)
    | InterestOpened(id: InterestId, context: Context)
    | InterestClosed(id: InterestId, context: Context)
    | InterestDone(id: InterestId, context: Context)
    | NotifyCaller(caller: nat, id: InterestId)
    | GetZonesObjects(request: Context, parent: Doid, zones: set<Zone>)

  datatype Generate = Generate(d: Doid, at: Location)

  datatype Operation = Operation(
    id: InterestId, context: Context, parent: Doid, zones: set<Zone>, caller: nat,
    total: Option<nat>, generates: seq<Generate>, datagrams: seq<ObjectUpdate>)

  /** Faulted: the client looked up an operation that no longer exists. */
  datatype Standing = Connected | Ejected | Faulted

  datatype Permission = InterestsEnabled | InterestsVisible | InterestsDisabled

  datatype State = State(
    uberdogs: set<Doid>,
    permission: Permission,
    interests: map<InterestId, Interest>,
    locations: set<Location>,
    visible: map<Doid, Location>,
    seen: set<Doid>,
    owned: map<Doid, Location>,
    session: set<Doid>,
    declared: set<Doid>,
    historical: set<Doid>,
    pendingObjects: map<Doid, Context>,
    pending: map<Context, Operation>,
    nextContext: Context,
    outbox: seq<Sent>,
    standing: Standing)

  /** A walk over a hash table, which meets every key at most once. */
  type Walk = w: seq<nat> | forall i, j | 0 <= i < j < |w| :: w[i] != w[j]

  /** The order in which hash tables happen to be walked during one event. */
  datatype Ordering = Ordering(objects: Walk, requests: Walk)

  function Fresh(uberdogs: set<Doid>, permission: Permission): State {
    State(uberdogs, permission, map[], {}, map[], {}, map[], {}, {}, {}, map[], map[], 1, [], Connected)
  }

  /** Two states that look alike; what an ejected client still does is not described. */
  predicate Alike(a: State, b: State) {
    a.standing == b.standing && (a.standing == Connected ==> a == b)
  }

  function Say(s: State, m: Sent): State {
    s.(outbox := s.outbox + [m])
  }

  // ----- Interests -----

  predicate InterestCovers(i: Interest, at: Location) {
    i.parent == at.parent && at.zone in i.zones
  }

  /** The open interests that can see a location. */
  function Holders(interests: map<InterestId, Interest>, at: Location): set<InterestId> {
    set id | id in interests && InterestCovers(interests[id], at)
  }

  function NewZones(interests: map<InterestId, Interest>, i: Interest): set<Zone> {
    set z | z in i.zones && Holders(interests, Location(i.parent, z)) == {}
  }

  /** Zones that only the interest being altered can see, and no longer will. */
  function AlteredZones(interests: map<InterestId, Interest>, id: InterestId, next: Interest): set<Zone>
    requires id in interests
  {
    var previous := interests[id];
    set z | z in previous.zones && |Holders(interests, Location(previous.parent, z))| <= 1
              && !InterestCovers(next, Location(previous.parent, z))
  }

  function RemovedZones(interests: map<InterestId, Interest>, id: InterestId): set<Zone>
    requires id in interests
  {
    var i := interests[id];
    set z | z in i.zones && |Holders(interests, Location(i.parent, z))| == 1
  }

  function Locations(parent: Doid, zones: set<Zone>): set<Location> {
    set z | z in zones :: Location(parent, z)
  }

  predicate InZones(at: Location, parent: Doid, zones: set<Zone>) {
    at.parent == parent && at.zone in zones
  }

  /** The objects in the closed zones, in the order they are walked. */
  function Closing(visible: map<Doid, Location>, order: seq<Doid>, parent: Doid, zones: set<Zone>): seq<Doid> {
    if order == [] then []
    else
      var d := order[|order|-1];
      var others := Closing(visible, order[..|order|-1], parent, zones);
      if d in visible && InZones(visible[d], parent, zones) then others + [d] else others
  }

  function Leavings(objects: seq<Doid>): seq<Sent> {
    seq(|objects|, i requires 0 <= i < |objects| => Leaving(objects[i]))
  }

  function Members<T>(s: seq<T>): set<T> {
    set x | x in s
  }

  /** close_zones. A session object among those going out of view costs the connection. */
  function Closed(s: State, parent: Doid, zones: set<Zone>, order: Ordering): State {
    var closing := Closing(s.visible, order.objects, parent, zones);
    if Members(closing) * s.session != {} then s.(standing := Ejected)
    else
      s.(visible := s.visible - Members(closing),
         seen := s.seen - Members(closing),
         historical := s.historical + Members(closing),
         outbox := s.outbox + Leavings(closing),
         locations := s.locations - Locations(parent, zones))
  }

  function Notified(caller: nat, id: InterestId): seq<Sent> {
    if caller == 0 then [] else [NotifyCaller(caller, id)]
  }

  /** The end of an operation that needs nothing from the state server. */
  function DoneAtOnce(s: State, id: InterestId, context: Context, caller: nat): State {
    s.(outbox := s.outbox + Notified(caller, id) + [InterestDone(id, context)])
  }

  /** Asks for the objects of the new zones, and listens there from now on. */
  function Requested(s: State, id: InterestId, i: Interest, zones: set<Zone>, context: Context, caller: nat): State {
    var request := s.nextContext;
    var op := Operation(id, context, i.parent, zones, caller, None, [], []);
    s.(nextContext := request + 1,
       pending := if request in s.pending then s.pending else s.pending[request := op],
       outbox := s.outbox + [GetZonesObjects(request, i.parent, zones)],
       locations := s.locations + Locations(i.parent, zones))
  }

  /** add_interest. */
  function Added(s: State, id: InterestId, i: Interest, context: Context, caller: nat, order: Ordering): State {
    var zones := NewZones(s.interests, i);
    var closed := if id in s.interests
                  then Closed(s, s.interests[id].parent, AlteredZones(s.interests, id, i), order) else s;
    if closed.standing != Connected then closed
    else
      var altered := closed.(interests := closed.interests[id := i]);
      if zones == {} then DoneAtOnce(altered, id, context, caller)
      else Requested(altered, id, i, zones, context, caller)
  }

  /** remove_interest, of an interest that is open. */
  function Dropped(s: State, id: InterestId, context: Context, caller: nat, order: Ordering): State
    requires id in s.interests
  {
    var closed := Closed(s, s.interests[id].parent, RemovedZones(s.interests, id), order);
    if closed.standing != Connected then closed
    else
      var done := DoneAtOnce(closed, id, context, caller);
      done.(interests := done.interests - {id})
  }

  // ----- Objects -----

  /** lookup_object, as far as it finds something. */
  predicate Knows(s: State, d: Doid) {
    d in s.uberdogs || d in s.owned || (if d in s.seen then d in s.visible else d in s.declared)
  }

  /** handle_object_entrance. */
  function Entered(s: State, d: Doid, at: Location): State {
    var s := s.(pendingObjects := s.pendingObjects - {d});
    if d in s.seen || (d in s.owned && d in s.session) then s
    else
      s.(visible := if d in s.visible then s.visible else s.visible[d := at],
         seen := s.seen + {d},
         outbox := s.outbox + [Enter(d, at)])
  }

  function AllEntered(s: State, generates: seq<Generate>): State {
    if generates == [] then s
    else
      var last := generates[|generates|-1];
      Entered(AllEntered(s, generates[..|generates|-1]), last.d, last.at)
  }

  predicate OperationCovers(op: Operation, at: Location) {
    InZones(at, op.parent, op.zones)
  }

  /** The first unfinished operation over a location, in the order they are walked. */
  function FirstCovering(pending: map<Context, Operation>, requests: seq<Context>, at: Location): (r: Option<Context>)
    ensures r.Some? ==> r.value in pending && r.value in requests && OperationCovers(pending[r.value], at)
    ensures r.None? ==> forall c | c in requests && c in pending :: !OperationCovers(pending[c], at)
  {
    if requests == [] then None
    else if requests[0] in pending && OperationCovers(pending[requests[0]], at) then Some(requests[0])
    else FirstCovering(pending, requests[1..], at)
  }

  function HeldBack(s: State, request: Context, u: ObjectUpdate): State
    requires request in s.pending
  {
    s.(pending := s.pending[request := s.pending[request].(datagrams := s.pending[request].datagrams + [u])])
  }

  /** try_queue_pending, for an object that is waiting for an operation. */
  function Queued(s: State, u: ObjectUpdate): State
    requires u.d in s.pendingObjects
  {
    var request := s.pendingObjects[u.d];
    if request in s.pending then HeldBack(s, request, u) else s.(standing := Faulted)
  }

  function EnteredLocation(s: State, d: Doid, at: Location, order: Ordering): State {
    match FirstCovering(s.pending, order.requests, at)
    case None => Entered(s, d, at)
    case Some(request) =>
      var s := HeldBack(s, request, EnterLocation(d, at));
      s.(pendingObjects := if d in s.pendingObjects then s.pendingObjects else s.pendingObjects[d := request])
  }

  function OutOfView(s: State, d: Doid): State {
    s.(seen := s.seen - {d},
       visible := s.visible - {d},
       historical := s.historical + {d},
       outbox := s.outbox + [Leaving(d)])
  }

  function Relocated(s: State, d: Doid, at: Location): State {
    s.(visible := if d in s.visible then s.visible[d := at] else s.visible,
       owned := if d in s.owned then s.owned[d := at] else s.owned)
  }

  function ChangedLocation(s: State, d: Doid, at: Location): State {
    var disable := Holders(s.interests, at) == {};
    if d !in s.visible && d !in s.owned then s
    else
      var moved := Relocated(s, d, at);
      if disable && d in s.visible then
        if d !in s.session then OutOfView(moved, d)
        else if d in s.owned then Say(moved, Moved(d, at))
        else moved.(standing := Ejected)
      else Say(moved, Moved(d, at))
  }

  function Deleted(s: State, d: Doid): State {
    if d in s.session then s.(session := s.session - {d}, standing := Ejected)
    else
      s.(seen := s.seen - {d},
         visible := s.visible - {d},
         owned := s.owned - {d},
         historical := s.historical + {d},
         outbox := s.outbox + (if d in s.seen then [Leaving(d)] else [])
                            + (if d in s.owned then [LeavingAsOwner(d)] else []))
  }

  /** The datagrams about one object, on arrival and again when an operation lets go of them. */
  function Updated(s: State, u: ObjectUpdate, order: Ordering): State {
    match u
    case EnterLocation(d, at) => EnteredLocation(s, d, at, order)
    case ChangingLocation(d, at) => if d in s.pendingObjects then Queued(s, u) else ChangedLocation(s, d, at)
    case DeleteRam(d) =>
      if Knows(s, d) then Deleted(s, d) else if d in s.pendingObjects then Queued(s, u) else s
    case SetField(d) =>
      if Knows(s, d) then Say(s, FieldUpdate(d)) else if d in s.pendingObjects then Queued(s, u) else s
  }

  function Dispatched(s: State, datagrams: seq<ObjectUpdate>, order: Ordering): State
    decreases |datagrams|
  {
    if datagrams == [] || s.standing != Connected then s
    else Dispatched(Updated(s, datagrams[0], order), datagrams[1..], order)
  }

  // ----- Operations -----

  predicate Ready(op: Operation) {
    op.total.Some? && |op.generates| >= op.total.value
  }

  function Announced(s: State, op: Operation): State {
    s.(outbox := s.outbox + [NotifyCaller(op.caller, op.id), InterestDone(op.id, op.context)])
  }

  /** finish: the snapshot, the news that it is complete, then whatever was held back. */
  function Finished(s: State, request: Context, order: Ordering): State
    requires request in s.pending
  {
    var op := s.pending[request];
    var shown := Announced(AllEntered(s, op.generates), op);
    Dispatched(shown.(pending := shown.pending - {request}), op.datagrams, order)
  }

  function FinishedIfReady(s: State, request: Context, order: Ordering): State
    requires request in s.pending
  {
    if Ready(s.pending[request]) then Finished(s, request, order) else s
  }

  function Expected(s: State, request: Context, g: Generate): State
    requires request in s.pending
  {
    var op := s.pending[request];
    s.(pendingObjects := if g.d in s.pendingObjects then s.pendingObjects else s.pendingObjects[g.d := request],
       pending := s.pending[request := op.(generates := op.generates + [g])])
  }

  function Counted(s: State, request: Context, count: nat): State
    requires request in s.pending
  {
    var op := s.pending[request];
    s.(pending := s.pending[request := if op.total.None? then op.(total := Some(count)) else op])
  }

  /** handle_datagram, of a datagram somebody else sent. */
  function Handled(s: State, g: Datagram, order: Ordering): State {
    match g
    case Update(u) => Updated(s, u, order)
    case EnterInterest(request, d, at) =>
      if request !in s.pending then s
      else FinishedIfReady(Expected(s, request, Generate(d, at)), request, order)
    case ZonesCount(request, count) =>
      if request !in s.pending then s
      else FinishedIfReady(Counted(s, request, count), request, order)
    case EnterOwner(d, at) =>
      Say(s.(owned := if d in s.owned then s.owned else s.owned[d := at]), EnterAsOwner(d, at))
    case ChangingOwner(d, toUs) =>
      if toUs || d !in s.owned then s
      else if d in s.session then s.(standing := Ejected)
      else Say(s.(owned := s.owned - {d}), LeavingAsOwner(d))
    case AddSessionObject(d) => s.(session := s.session + {d})
    case RemoveSessionObject(d) => s.(session := s.session - {d})
    case DeclareObject(d) => s.(declared := s.declared + {d})
    case UndeclareObject(d) => s.(declared := s.declared - {d})
    case AddInterest(id, i, caller) =>
      var context := s.nextContext;
      Added(Say(s.(nextContext := context + 1), InterestOpened(id, context)), id, i, context, caller, order)
    case RemoveInterest(id, caller) =>
      var context := s.nextContext;
      if id !in s.interests then s
      else Dropped(Say(s.(nextContext := context + 1), InterestClosed(id, context)), id, context, caller, order)
    case Eject => s.(standing := Ejected)
  }

  predicate Permitted(s: State, parent: Doid) {
    s.permission == InterestsEnabled || (s.permission == InterestsVisible && Knows(s, parent))
  }

  /** What the client itself asks for. */
  function Opened(s: State, id: InterestId, i: Interest, context: Context, order: Ordering): State {
    if !Permitted(s, i.parent) then s.(standing := Ejected)
    else Added(s, id, i, context, 0, order)
  }

  function Shut(s: State, id: InterestId, context: Context, order: Ordering): State {
    if id !in s.interests || !Permitted(s, s.interests[id].parent) then s.(standing := Ejected)
    else Dropped(s, id, context, 0, order)
  }

  // ----- Runs -----

  datatype Event =
    | Receive(datagram: Datagram, order: Ordering)
    | Open(id: InterestId, interest: Interest, context: Context, order: Ordering)
    | Shutting(id: InterestId, context: Context, order: Ordering)
    | Timeout(request: Context, order: Ordering)

  function Next(s: State, e: Event): State {
    if s.standing != Connected then s
    else
      match e
      case Receive(g, order) => Handled(s, g, order)
      case Open(id, i, context, order) => Opened(s, id, i, context, order)
      case Shutting(id, context, order) => Shut(s, id, context, order)
      case Timeout(request, order) => if request in s.pending then Finished(s, request, order) else s
  }

  function After(s: State, events: seq<Event>): State {
    if events == [] then s else Next(After(s, events[..|events|-1]), events[|events|-1])
  }
}
