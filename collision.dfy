/** The collision world (ncollide's `CollisionWorld<f32, ()>`) as far as the
    game uses it: objects with a pose, a collision group and a back-pointer
    to the owning entity, addressed by handle; the contact events and
    contact pairs produced by its last `update`. Shapes, broad and narrow
    phase are not modelled: what `update` produces is an input. */
module Collision {
  import opened Vectors

  /** Opaque handle of a collision object. */
  type Handle = nat

  /** Opaque identifier of a specs entity. */
  type Entity = nat

  /** `Isometry2`: a translation and a rotation angle. */
  datatype Pose = Pose(translation: Vec2, rotation: real)

  /** Collision group memberships used by the level. */
  const TerrainGroup: nat := 1
  const PlayerGroup: nat := 2
  const ObstacleGroup: nat := 3

  /** A live object: its pose, its group membership and the entity stored
      as its user data. */
  datatype CollisionObject = CollisionObject(position: Pose, group: nat, data: Entity)

  /** ncollide's `ContactEvent`. */
  datatype ContactEvent =
    | Started(h1: Handle, h2: Handle)
    | Stopped(h1: Handle, h2: Handle)

  /** The narrow phase found a contact pair for the handles `h1`, `h2`. */
  predicate PairListed(pairs: set<(Handle, Handle)>, h1: Handle, h2: Handle) {
    (h1, h2) in pairs
  }

  class CollisionWorld {
    var objects: map<Handle, CollisionObject>
    /** Handle pairs for which `contact_pair` returns a pair. */
    var contactPairs: set<(Handle, Handle)>
    /** The event stream of the last `update`. */
    var events: seq<ContactEvent>
    var nextHandle: Handle

    ghost predicate Valid()
      reads this
    {
      forall h | h in objects :: h < nextHandle
    }

    constructor ()
      ensures Valid()
      ensures objects == map[] && contactPairs == {} && events == []
    {
      objects := map[];
      contactPairs := {};
      events := [];
      nextHandle := 0;
    }

    /** `add`: registers a new object and returns its handle, which no
        live object had before. */
    method Add(position: Pose, group: nat, data: Entity) returns (h: Handle)
      requires Valid()
      modifies this`objects, this`nextHandle
      ensures Valid()
      ensures h !in old(objects)
      ensures objects == old(objects)[h := CollisionObject(position, group, data)]
    {
      h := nextHandle;
      objects := objects[h := CollisionObject(position, group, data)];
      nextHandle := nextHandle + 1;
    }

    /** `set_position`: replaces the pose of a live object; nothing else
        about it changes. */
    method SetPosition(h: Handle, position: Pose)
      requires h in objects
      modifies this`objects
      ensures objects == old(objects)[h := old(objects)[h].(position := position)]
      ensures objects.Keys == old(objects.Keys)
    {
      objects := objects[h := objects[h].(position := position)];
    }

    /** `update`: the broad and narrow phase. They are not modelled; their
        outcome, the new event stream and the contact pairs, is supplied.
        Poses are not changed. */
    method Update(newEvents: seq<ContactEvent>, newPairs: set<(Handle, Handle)>)
      modifies this`events, this`contactPairs
      ensures events == newEvents && contactPairs == newPairs
    {
      events := newEvents;
      contactPairs := newPairs;
    }

    /** `contact_pair(h1, h2).is_some()`. */
    predicate ContactPair(h1: Handle, h2: Handle)
      reads this
    {
      PairListed(contactPairs, h1, h2)
    }
  }
}
