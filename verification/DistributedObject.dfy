/** One object of the visibility tree: where it is, and its part of the index that
    says which children are in which of its zones. */
module DistributedObject {

  type Doid = nat
  type Zone = nat
  type Channel = nat

  const INVALID_DO_ID: Doid := 0

  /** Whom a message is for: an object, whoever listens to an object's children
      channel, or somebody outside the tree (clients and their locations). */
  datatype Target = ToObject(doid: Doid) | ToChildrenOf(parent: Doid) | ToLocation(parent: Doid, zone: Zone) | ToPeer(channel: Channel)

  datatype Body =
    | ChangingLocation(child: Doid, newParent: Doid, newZone: Zone, oldParent: Doid, oldZone: Zone)
    | LocationAck(acker: Doid, ackedZone: Zone)
    | GetLocation(asker: Doid)
    | GetLocationResp(responder: Doid, atParent: Doid, atZone: Zone)
    | DeleteChildren(deleted: Doid)
    | DeleteRam(deleted: Doid)
    | SetLocation(newParent: Doid, newZone: Zone)
    | GetZonesObjects(requester: Channel, context: nat, queried: Doid, zones: seq<Zone>)
    | ZonesCount(context: nat, count: nat)
    | EnterLocation(entered: Doid)
    | EnterInterest(context: nat, entered: Doid)

  datatype Message = Message(targets: set<Target>, body: Body)

  type ZoneIndex = map<Zone, set<Doid>>

  datatype ObjectState = ObjectState(doid: Doid, parent: Doid, zone: Zone, synchronized: bool, zoneObjects: ZoneIndex)

  // ----- The zone index -----

  function Listed(index: ZoneIndex, zone: Zone): set<Doid> {
    if zone in index then index[zone] else {}
  }

  function Insert(index: ZoneIndex, zone: Zone, child: Doid): ZoneIndex {
    index[zone := Listed(index, zone) + {child}]
  }

  /** Removes a child from a zone, and the zone with its last child. */
  function Remove(index: ZoneIndex, zone: Zone, child: Doid): ZoneIndex {
    var left := Listed(index, zone) - {child};
    if left == {} then index - {zone} else index[zone := left]
  }

  /** Looking up a missing zone inserts it empty. */
  function Touch(index: ZoneIndex, zones: seq<Zone>): ZoneIndex {
    map z | z in index.Keys + (set z | z in zones) :: Listed(index, z)
  }

  function CountListed(index: ZoneIndex, zones: seq<Zone>): nat {
    if zones == [] then 0 else CountListed(index, zones[..|zones|-1]) + |Listed(index, zones[|zones|-1])|
  }

  // ----- What each handler does and routes -----

  function Moved(o: ObjectState, newParent: Doid, newZone: Zone): (ObjectState, seq<Message>) {
    var o' := o.(parent := newParent, zone := newZone, synchronized := false);
    var targets :=
      if newParent != o.parent then
        (if o.parent != INVALID_DO_ID then {ToObject(o.parent), ToLocation(o.parent, o.zone)} else {})
        + (if newParent != INVALID_DO_ID then {ToObject(newParent)} else {})
      else {ToObject(o.parent), ToLocation(o.parent, o.zone)};
    var change := Message(targets, ChangingLocation(o.doid, newParent, newZone, o.parent, o.zone));
    var entry := Message({ToLocation(newParent, newZone)}, EnterLocation(o.doid));
    if newParent == o.doid || (newParent == o.parent && newZone == o.zone) then (o, [])
    else (o', [change] + if newParent != INVALID_DO_ID then [entry] else [])
  }

  function ChildrenDeletion(o: ObjectState): seq<Message> {
    if o.zoneObjects != map[] then [Message({ToChildrenOf(o.doid)}, DeleteChildren(o.doid))] else []
  }

  /** The last messages of an object. */
  function Annihilated(o: ObjectState, notifyParent: bool): seq<Message> {
    var leave := Message({ToObject(o.parent)}, ChangingLocation(o.doid, INVALID_DO_ID, 0, o.parent, o.zone));
    var notice := Message(if o.parent != INVALID_DO_ID then {ToLocation(o.parent, o.zone)} else {}, DeleteRam(o.doid));
    (if o.parent != INVALID_DO_ID && notifyParent then [leave] else []) + [notice] + ChildrenDeletion(o)
  }

  function Waking(doid: Doid): Message {
    Message({ToChildrenOf(doid)}, GetLocation(doid))
  }

  function Created(doid: Doid, parent: Doid, zone: Zone): (ObjectState, seq<Message>) {
    var (o, routed) := Moved(ObjectState(doid, INVALID_DO_ID, 0, false, map[]), parent, zone);
    (o, routed + [Waking(doid)])
  }

  /** handle_datagram: None when the object is gone afterwards. */
  datatype Outcome = Gone(routed: seq<Message>) | Still(o: ObjectState, routed: seq<Message>)

  function Handled(o: ObjectState, body: Body): Outcome {
    match body
    case ChangingLocation(child, newParent, newZone, oldParent, oldZone) =>
      if newParent == o.doid then
        if oldParent == o.doid && newZone == oldZone then Still(o, [])
        else
          var index := if oldParent == o.doid then Remove(o.zoneObjects, oldZone, child) else o.zoneObjects;
          Still(o.(zoneObjects := Insert(index, newZone, child)), [Message({ToObject(child)}, LocationAck(o.doid, newZone))])
      else if oldParent == o.doid then
        Still(o.(zoneObjects := Remove(o.zoneObjects, oldZone, child)), [])
      else Still(o, [])
    case LocationAck(acker, zone) =>
      Still(if acker == o.parent && zone == o.zone then o.(synchronized := true) else o, [])
    case GetLocation(asker) =>
      Still(o, [Message({ToObject(asker)}, GetLocationResp(o.doid, o.parent, o.zone))])
    case GetLocationResp(child, parent, zone) =>
      Still(if parent == o.doid then o.(zoneObjects := Insert(o.zoneObjects, zone, child)) else o, [])
    case DeleteChildren(deleted) =>
      if deleted == o.doid then Still(o, ChildrenDeletion(o))
      else if deleted == o.parent then Gone(Annihilated(o, false))
      else Still(o, [])
    case DeleteRam(deleted) =>
      if deleted == o.doid then Gone(Annihilated(o, true)) else Still(o, [])
    case SetLocation(newParent, newZone) =>
      var (o', routed) := Moved(o, newParent, newZone);
      Still(o', routed)
    case GetZonesObjects(requester, context, queried, zones) =>
      if queried == o.parent then
        if o.zone !in zones then Still(o, [])
        else if o.synchronized then Still(o, [Message({ToPeer(requester)}, EnterInterest(context, o.doid))])
        else Still(o, [Message({ToPeer(requester)}, EnterLocation(o.doid))])
      else if queried == o.doid then
        var count := CountListed(o.zoneObjects, zones);
        var reply := Message({ToPeer(requester)}, ZonesCount(context, count));
        Still(o.(zoneObjects := Touch(o.zoneObjects, zones)),
              if count > 0 then [reply, Message({ToChildrenOf(o.doid)}, body)] else [reply])
      else Still(o, [])
    case ZonesCount(_, _) => Still(o, [])
    case EnterLocation(_) => Still(o, [])
    case EnterInterest(_, _) => Still(o, [])
  }

  // ----- The object itself -----

  class DistributedObject {
    const doid: Doid
    var parent: Doid
    var zone: Zone
    var synchronized: bool
    var zoneObjects: ZoneIndex
    var alive: bool
    var routed: seq<Message>  // everything handed to the message director

    /** The generate constructor: locate the object, then ask children that came first
        where they are. */
    constructor (doid: Doid, parent: Doid, zone: Zone)
      ensures this.doid == doid && alive
      ensures (State(), routed) == Created(doid, parent, zone)
    {
      this.doid := doid;
      this.parent := INVALID_DO_ID;
      this.zone := 0;
      this.synchronized := false;
      this.zoneObjects := map[];
      this.alive := true;
      this.routed := [];
      new;
      ghost var unplaced := ObjectState(doid, INVALID_DO_ID, 0, false, map[]);
      assert State() == unplaced;
      HandleLocationChange(parent, zone);
      assert routed == Moved(unplaced, parent, zone).1;
      routed := routed + [Waking(doid)];
    }

    function State(): ObjectState
      reads this
    {
      ObjectState(doid, parent, zone, synchronized, zoneObjects)
    }

    method HandleLocationChange(newParent: Doid, newZone: Zone)
      modifies this
      ensures alive == old(alive)
      ensures State() == Moved(old(State()), newParent, newZone).0
      ensures routed == old(routed) + Moved(old(State()), newParent, newZone).1
    {
      var oldParent, oldZone := parent, zone;
      var targets: set<Target> := {};
      if newParent == doid {
        return;
      }
      if newParent != oldParent {
        if oldParent != INVALID_DO_ID {
          targets := targets + {ToObject(oldParent)} + {ToLocation(oldParent, oldZone)};
        }
        parent, zone := newParent, newZone;
        if newParent != INVALID_DO_ID {
          targets := targets + {ToObject(newParent)};
        }
      } else if newZone != oldZone {
        zone := newZone;
        targets := targets + {ToObject(parent)} + {ToLocation(parent, oldZone)};
      } else {
        return;
      }
      assert targets == Moved(old(State()), newParent, newZone).1[0].targets;
      routed := routed + [Message(targets, ChangingLocation(doid, newParent, newZone, oldParent, oldZone))];
      synchronized := false;
      if newParent != INVALID_DO_ID {
        routed := routed + [Message({ToLocation(newParent, newZone)}, EnterLocation(doid))];
      }
    }

    method Annihilate(notifyParent: bool)
      modifies this
      ensures !alive && State() == old(State())
      ensures routed == old(routed) + Annihilated(old(State()), notifyParent)
    {
      var targets: set<Target> := {};
      ghost var leaving := if parent != INVALID_DO_ID && notifyParent
        then [Message({ToObject(parent)}, ChangingLocation(doid, INVALID_DO_ID, 0, parent, zone))] else [];
      if parent != INVALID_DO_ID {
        targets := targets + {ToLocation(parent, zone)};
        if notifyParent {
          routed := routed + [Message({ToObject(parent)}, ChangingLocation(doid, INVALID_DO_ID, 0, parent, zone))];
        }
      }
      assert targets == if parent != INVALID_DO_ID then {ToLocation(parent, zone)} else {};
      routed := routed + [Message(targets, DeleteRam(doid))];
      TellChildren();
      alive := false;
      assert routed == old(routed) + (leaving + [Message(targets, DeleteRam(doid))] + ChildrenDeletion(old(State())));
    }

    method TellChildren()
      modifies this`routed
      ensures routed == old(routed) + ChildrenDeletion(State())
    {
      if zoneObjects != map[] {
        routed := routed + [Message({ToChildrenOf(doid)}, DeleteChildren(doid))];
      }
    }

    method ChildMoved(child: Doid, newParent: Doid, newZone: Zone, oldParent: Doid, oldZone: Zone)
      modifies this
      ensures alive == old(alive)
      ensures var after := Handled(old(State()), ChangingLocation(child, newParent, newZone, oldParent, oldZone));
              after == Still(State(), after.routed) && routed == old(routed) + after.routed
    {
      if newParent == doid {
        if doid == oldParent {
          if newZone == oldZone {
            return;
          }
          zoneObjects := Remove(zoneObjects, oldZone, child);
        }
        zoneObjects := Insert(zoneObjects, newZone, child);
        routed := routed + [Message({ToObject(child)}, LocationAck(doid, newZone))];
      } else if oldParent == doid {
        zoneObjects := Remove(zoneObjects, oldZone, child);
      }
    }

    /** A query relayed from the parent: reply if located in one of the zones. */
    method AnswerAsChild(requester: Channel, context: nat, zones: seq<Zone>)
      modifies this`routed
      ensures routed == old(routed) + Handled(State(), GetZonesObjects(requester, context, parent, zones)).routed
    {
      var i := 0;
      while i < |zones|
        invariant 0 <= i <= |zones| && zone !in zones[..i] && routed == old(routed)
      {
        if zones[i] == zone {
          if synchronized {
            routed := routed + [Message({ToPeer(requester)}, EnterInterest(context, doid))];
          } else {
            routed := routed + [Message({ToPeer(requester)}, EnterLocation(doid))];
          }
          return;
        }
        i := i + 1;
      }
    }

    /** A query of this object's own zones: count the children listed in them. */
    method CountZones(zones: seq<Zone>) returns (count: nat)
      modifies this`zoneObjects
      ensures count == CountListed(old(zoneObjects), zones)
      ensures zoneObjects == Touch(old(zoneObjects), zones)
    {
      count := 0;
      for i := 0 to |zones|
        invariant zoneObjects == Touch(old(zoneObjects), zones[..i])
        invariant count == CountListed(old(zoneObjects), zones[..i])
      {
        assert zones[..i+1][..i] == zones[..i];
        if zones[i] !in zoneObjects {
          zoneObjects := zoneObjects[zones[i] := {}];
        }
        count := count + |zoneObjects[zones[i]]|;
      }
      assert zones[..|zones|] == zones;
    }

    method AnswerZones(requester: Channel, context: nat, queried: Doid, zones: seq<Zone>)
      modifies this
      ensures alive == old(alive)
      ensures var after := Handled(old(State()), GetZonesObjects(requester, context, queried, zones));
              after == Still(State(), after.routed) && routed == old(routed) + after.routed
    {
      if queried == parent {
        AnswerAsChild(requester, context, zones);
      } else if queried == doid {
        var count := CountZones(zones);
        routed := routed + [Message({ToPeer(requester)}, ZonesCount(context, count))];
        if count > 0 {
          routed := routed + [Message({ToChildrenOf(doid)}, GetZonesObjects(requester, context, queried, zones))];
        }
      }
    }

    method HandleDatagram(body: Body)
      requires alive
      modifies this
      ensures var after := Handled(old(State()), body);
              && routed == old(routed) + after.routed
              && (alive <==> after.Still?)
              && (after.Still? ==> State() == after.o)
    {
      match body
      case ChangingLocation(child, newParent, newZone, oldParent, oldZone) =>
        ChildMoved(child, newParent, newZone, oldParent, oldZone);
      case LocationAck(acker, ackedZone) =>
        if acker == parent && ackedZone == zone {
          synchronized := true;
        }
      case GetLocation(asker) =>
        routed := routed + [Message({ToObject(asker)}, GetLocationResp(doid, parent, zone))];
      case GetLocationResp(child, atParent, atZone) =>
        if atParent == doid {
          zoneObjects := Insert(zoneObjects, atZone, child);
        }
      case DeleteChildren(deleted) =>
        if deleted == doid {
          TellChildren();
        } else if deleted == parent {
          Annihilate(false);
        }
      case DeleteRam(deleted) =>
        if deleted == doid {
          Annihilate(true);
        }
      case SetLocation(newParent, newZone) =>
        HandleLocationChange(newParent, newZone);
      case GetZonesObjects(requester, context, queried, zones) =>
        AnswerZones(requester, context, queried, zones);
      case ZonesCount(_, _) =>
      case EnterLocation(_) =>
      case EnterInterest(_, _) =>
    }
  }
}
