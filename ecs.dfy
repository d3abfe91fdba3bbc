/** The components the core reads and writes, and the specs world that
    stores them. A storage is a map from entity to component (a set for the
    field-less markers `Mass` and `Obstacle`); the collision world is a
    resource of the specs world and owns every pose. */
module Ecs {
  import opened Vectors
  import opened Collision

  /** `Motion`: velocity and the acceleration accumulated this tick. */
  datatype Motion = Motion(velocity: Vec2, acceleration: Vec2)

  /** `Player`, with the fields the level builds it with. */
  datatype Player = Player(onGround: bool, jumping: bool, velocity: real, runAcceleration: real)

  /** `Collider`: the handle of the entity's collision object. */
  datatype Collider = Collider(objectHandle: Handle)

  /** What the per-tick passes read and write: four storages and the
      collision objects. */
  datatype State = State(
    players: map<Entity, Player>,
    motions: map<Entity, Motion>,
    colliders: map<Entity, Collider>,
    masses: set<Entity>,
    objects: map<Handle, CollisionObject>)

  /** Every collider's handle names a live collision object whose user data
      is that entity, and every live collision object is named by the
      collider of the entity in its user data. Each `.expect` on a handle
      lookup relies on this. */
  predicate Paired(s: State) {
    && (forall e | e in s.colliders ::
          s.colliders[e].objectHandle in s.objects && s.objects[s.colliders[e].objectHandle].data == e)
    && (forall h | h in s.objects ::
          s.objects[h].data in s.colliders && s.colliders[s.objects[h].data].objectHandle == h)
  }

  /** Where entity `e`'s collision object is. */
  function Translation(s: State, e: Entity): Vec2
    requires Paired(s) && e in s.colliders
  {
    s.objects[s.colliders[e].objectHandle].position.translation
  }

  /** Under the pairing, distinct entities have distinct collision objects. */
  lemma PairedHandlesDistinct(s: State, e1: Entity, e2: Entity)
    requires Paired(s) && e1 in s.colliders && e2 in s.colliders && e1 != e2
    ensures s.colliders[e1].objectHandle != s.colliders[e2].objectHandle
  {
  }

  /** The specs world with its component storages and its collision-world
      resource. */
  class World {
    var players: map<Entity, Player>
    var motions: map<Entity, Motion>
    var colliders: map<Entity, Collider>
    var masses: set<Entity>
    var gravities: map<Entity, real>
    var obstacles: set<Entity>
    var nextEntity: Entity
    const collide: CollisionWorld

    function Snap(): State
      reads this, collide
    {
      State(players, motions, colliders, masses, collide.objects)
    }

    /** The world's invariant: the collider/object pairing holds, and every
        entity and handle in use lies below the next one to be issued. */
    ghost predicate Valid()
      reads this, collide
    {
      Paired(Snap()) && Bounded()
    }

    ghost predicate Bounded()
      reads this, collide
    {
      && collide.Valid()
      && (forall e | e in players :: e < nextEntity)
      && (forall e | e in motions :: e < nextEntity)
      && (forall e | e in colliders :: e < nextEntity)
      && (forall e | e in masses :: e < nextEntity)
      && (forall e | e in gravities :: e < nextEntity)
      && (forall e | e in obstacles :: e < nextEntity)
    }

    /** The invariant survives any change to the players, the motions and
        the poses of collision objects that keeps their keys and the
        pairing. */
    twostate lemma ValidAfterMotion()
      requires old(Valid())
      requires unchanged(this`colliders, this`masses, this`gravities, this`obstacles, this`nextEntity)
      requires unchanged(collide`nextHandle)
      requires players.Keys == old(players.Keys) && motions.Keys == old(motions.Keys)
      requires collide.objects.Keys == old(collide.objects.Keys)
      requires Paired(Snap())
      ensures Valid()
    {
    }

    /** A world with no entities and an empty collision world. */
    constructor ()
      ensures Valid() && fresh(collide)
      ensures players == map[] && motions == map[] && colliders == map[] && masses == {}
      ensures gravities == map[] && obstacles == {}
      ensures collide.objects == map[] && collide.events == []
    {
      players, motions, colliders, masses := map[], map[], map[], {};
      gravities, obstacles := map[], {};
      nextEntity := 0;
      collide := new CollisionWorld();
    }

    /** `create_entity`: a new entity that has no component yet. */
    method CreateEntity() returns (e: Entity)
      requires Valid()
      modifies this`nextEntity
      ensures Valid()
      ensures e == old(nextEntity) && nextEntity == e + 1
      ensures e !in players && e !in motions && e !in colliders && e !in masses
      ensures e !in gravities && e !in obstacles
    {
      e := nextEntity;
      nextEntity := nextEntity + 1;
    }

    /** Adds a collision object owned by the new entity `e` and inserts the
        collider naming it: the two halves of the pairing are made together,
        so the pairing holds again afterwards. */
    method AttachCollider(e: Entity, position: Pose, group: nat) returns (h: Handle)
      requires Valid() && e < nextEntity && e !in colliders
      modifies this`colliders, collide`objects, collide`nextHandle
      ensures Valid()
      ensures h !in old(collide.objects)
      ensures collide.objects == old(collide.objects)[h := CollisionObject(position, group, e)]
      ensures colliders == old(colliders)[e := Collider(h)]
    {
      h := collide.Add(position, group, e);
      colliders := colliders[e := Collider(h)];
    }
  }
}
