/** The level scene: the contact-event resolver, the player's locomotion
    pass, the scene's construction and its per-tick `update`. */
module Level {
  import opened Vectors
  import opened Collision
  import opened Ecs
  import opened Systems

  /** The scene switch `update` returns: `None` or `Pop`. */
  datatype SceneSwitch = NoSwitch | Pop

  /** `collision_object_position`: the translation and the rotation angle
      of the collider's object. A stale handle aborts, so it is excluded. */
  function CollisionObjectPosition(cw: CollisionWorld, collider: Collider): (r: (Vec2, real))
    reads cw
    requires collider.objectHandle in cw.objects
    ensures Pose(r.0, r.1) == cw.objects[collider.objectHandle].position
  {
    var isometry := cw.objects[collider.objectHandle].position;
    (isometry.translation, isometry.rotation)
  }

  // ---------------------------------------------------------------------
  // Contact events

  /** `contact_pair(h1, h2)` finds a pair for the event's handles. */
  predicate HasPair(ev: ContactEvent, pairs: set<(Handle, Handle)>) {
    PairListed(pairs, ev.h1, ev.h2)
  }

  /** Both handles of the event name live objects. */
  predicate Resolvable(ev: ContactEvent, objects: map<Handle, CollisionObject>) {
    ev.h1 in objects && ev.h2 in objects
  }

  /** The handle lookups of the resolver do not abort: every event that has
      a contact pair names two live objects. Events without a pair are
      never looked up. */
  predicate EventsResolve(events: seq<ContactEvent>, pairs: set<(Handle, Handle)>,
                          objects: map<Handle, CollisionObject>)
  {
    forall i | 0 <= i < |events| :: HasPair(events[i], pairs) ==> Resolvable(events[i], objects)
  }

  /** The event acts on entity `e`: it has a contact pair and `e` is the
      user data of one of its two objects. */
  predicate Touches(ev: ContactEvent, pairs: set<(Handle, Handle)>,
                    objects: map<Handle, CollisionObject>, e: Entity)
    requires HasPair(ev, pairs) ==> Resolvable(ev, objects)
  {
    HasPair(ev, pairs) && (objects[ev.h1].data == e || objects[ev.h2].data == e)
  }

  /** `if let Some(player) = player_storage.get_mut(e) { player.on_ground = value }` */
  function SetOnGround(players: map<Entity, Player>, e: Entity, value: bool): (r: map<Entity, Player>)
    ensures r.Keys == players.Keys
    ensures forall x | x in players ::
              r[x] == if x == e then players[x].(onGround := value) else players[x]
  {
    if e in players then players[e := players[e].(onGround := value)] else players
  }

  /** One event of the stream: a `Started` event with a contact pair sets
      `on_ground` on each of its two entities that is a player, a `Stopped`
      one clears it, and an event without a pair changes nothing. */
  function ApplyEvent(players: map<Entity, Player>, ev: ContactEvent,
                      pairs: set<(Handle, Handle)>, objects: map<Handle, CollisionObject>): (r: map<Entity, Player>)
    requires HasPair(ev, pairs) ==> Resolvable(ev, objects)
    ensures r.Keys == players.Keys
    ensures !HasPair(ev, pairs) ==> r == players
    ensures forall e | e in players ::
              r[e] == if Touches(ev, pairs, objects, e) then players[e].(onGround := ev.Started?) else players[e]
  {
    if HasPair(ev, pairs) then
      var e1, e2 := objects[ev.h1].data, objects[ev.h2].data;
      SetOnGround(SetOnGround(players, e1, ev.Started?), e2, ev.Started?)
    else
      players
  }

  /** The events applied in stream order. Only `on_ground` ever changes,
      and no player is added or removed. */
  function ApplyEvents(players: map<Entity, Player>, events: seq<ContactEvent>,
                       pairs: set<(Handle, Handle)>, objects: map<Handle, CollisionObject>): (r: map<Entity, Player>)
    requires EventsResolve(events, pairs, objects)
    ensures r.Keys == players.Keys
    ensures forall e | e in players :: r[e] == players[e].(onGround := r[e].onGround)
    decreases |events|
  {
    if events == [] then players
    else
      var n := |events| - 1;
      var before := ApplyEvents(players, events[..n], pairs, objects);
      ApplyEvent(before, events[n], pairs, objects)
  }

  /** A player that no event of the stream touches keeps its state. */
  lemma {:induction false} ApplyEventsUntouched(players: map<Entity, Player>, events: seq<ContactEvent>,
                                               pairs: set<(Handle, Handle)>, objects: map<Handle, CollisionObject>,
                                               e: Entity)
    requires EventsResolve(events, pairs, objects)
    requires e in players
    requires forall i | 0 <= i < |events| :: !Touches(events[i], pairs, objects, e)
    ensures ApplyEvents(players, events, pairs, objects)[e] == players[e]
    decreases |events|
  {
    if events != [] {
      var n := |events| - 1;
      ApplyEventsUntouched(players, events[..n], pairs, objects, e);
    }
  }

  /** Stream order decides: a player's final `on_ground` is what the last
      event touching it says, `true` for `Started`, `false` for `Stopped`. */
  lemma {:induction false} ApplyEventsLastWins(players: map<Entity, Player>, events: seq<ContactEvent>,
                                              pairs: set<(Handle, Handle)>, objects: map<Handle, CollisionObject>,
                                              e: Entity, i: nat)
    requires EventsResolve(events, pairs, objects)
    requires e in players && i < |events|
    requires Touches(events[i], pairs, objects, e)
    requires forall j | i < j < |events| :: !Touches(events[j], pairs, objects, e)
    ensures ApplyEvents(players, events, pairs, objects)[e].onGround == events[i].Started?
    decreases |events|
  {
    var n := |events| - 1;
    var prefix := events[..n];
    assert EventsResolve(prefix, pairs, objects) by {
      forall j | 0 <= j < n ensures HasPair(prefix[j], pairs) ==> Resolvable(prefix[j], objects) {
        assert prefix[j] == events[j];
      }
    }
    var before := ApplyEvents(players, prefix, pairs, objects);
    assert ApplyEvents(players, events, pairs, objects) == ApplyEvent(before, events[n], pairs, objects);
    if i < n {
      assert prefix[i] == events[i];
      assert forall j | i < j < n :: prefix[j] == events[j];
      ApplyEventsLastWins(players, prefix, pairs, objects, e, i);
    }
  }

  // ---------------------------------------------------------------------
  // Player locomotion

  /** The player's own update in `run_player_motion`, given the unit normal
      pointing from the planet to the player. When grounded: the velocity
      along the normal is removed, the stored acceleration is discarded, a
      jump adds the normal and clears `on_ground`, and the run term (the
      normal scaled by the player's speed, turned by 90 degrees) is added
      with weight `run_acceleration`. Always: the player's speed grows by
      `run_acceleration`, the velocity gains the acceleration, and the
      acceleration is used up. */
  function PlayerStep(p: Player, m: Motion, normal: Vec2): (r: (Player, Motion))
    ensures r.0 == p.(onGround := p.onGround && !p.jumping, velocity := p.velocity + p.runAcceleration)
    ensures r.1.acceleration == Zero
    ensures !p.onGround ==> r.1.velocity == Add(m.velocity, m.acceleration)
  {
    var speed := p.velocity + p.runAcceleration;
    if p.onGround then
      var velocity := Sub(m.velocity, Scale(Dot(m.velocity, normal), normal));
      var jump := if p.jumping then normal else Zero;
      var acceleration := Add(jump, Scale(p.runAcceleration, Rot90(Scale(p.velocity, normal))));
      (p.(onGround := !p.jumping, velocity := speed), Motion(Add(velocity, acceleration), Zero))
    else
      (p.(velocity := speed), Motion(Add(m.velocity, m.acceleration), Zero))
  }

  lemma Rot90Scale(k: real, a: Vec2)
    ensures Rot90(Scale(k, a)) == Scale(k, Rot90(a))
  {
  }

  /** Grounded and not jumping: the new velocity is the old one with its
      radial part removed (the square-root-free RemoveRadial; the old
      acceleration plays no part) plus the run term, and it has no
      component along the planet-to-player offset. */
  lemma {:induction false} PlayerStepRadialLock(p: Player, m: Motion, normal: Vec2, offset: Vec2)
    requires p.onGround && !p.jumping
    requires IsUnitNormal(normal, offset)
    ensures offset != Zero
    ensures PlayerStep(p, m, normal).1.velocity
            == Add(RemoveRadial(m.velocity, offset), Scale(p.runAcceleration * p.velocity, Rot90(normal)))
    ensures Dot(PlayerStep(p, m, normal).1.velocity, offset) == 0.0
  {
    RemoveRadialByNormal(m.velocity, normal, offset);
    var k := p.runAcceleration * p.velocity;
    var run := Scale(k, Rot90(normal));
    Rot90Scale(p.velocity, normal);
    assert Scale(p.runAcceleration, Scale(p.velocity, Rot90(normal))) == run;
    var removed := RemoveRadial(m.velocity, offset);
    TangentPerpendicular(k, normal, offset);
    DotAdd(removed, run, offset);
  }

  /** A multiple of the tangent has no component along the offset. */
  lemma {:induction false} TangentPerpendicular(k: real, normal: Vec2, offset: Vec2)
    requires IsUnitNormal(normal, offset)
    ensures Dot(Scale(k, Rot90(normal)), offset) == 0.0
  {
    UnitNormalParallel(normal, offset);
    var d := Dot(offset, normal);
    var t := Rot90(normal);
    DotScale(k, t, offset);
    assert Dot(t, offset) == 0.0 by {
      assert offset == Scale(d, normal);
      DotScale(d, normal, t);
    }
  }

  /** Grounded and jumping: the radial part of the new velocity is exactly
      the unit impulse along the outward normal. */
  lemma {:induction false} PlayerStepJump(p: Player, m: Motion, normal: Vec2, offset: Vec2)
    requires p.onGround && p.jumping
    requires IsUnitNormal(normal, offset)
    ensures !PlayerStep(p, m, normal).0.onGround
    ensures Dot(PlayerStep(p, m, normal).1.velocity, normal) == 1.0
  {
    var q := Dot(m.velocity, normal);
    var k := p.runAcceleration * p.velocity;
    var v0 := Sub(m.velocity, Scale(q, normal));
    var run := Scale(p.runAcceleration, Rot90(Scale(p.velocity, normal)));
    Rot90Scale(p.velocity, normal);
    var t := Rot90(normal);
    assert Dot(v0, normal) == 0.0 by {
      DotSubScale(m.velocity, q, normal, normal);
    }
    assert Dot(run, normal) == 0.0 by {
      assert Scale(p.runAcceleration, Scale(p.velocity, t)) == run;
      assert run == Scale(k, t);
      DotScale(k, t, normal);
    }
    calc {
      Dot(PlayerStep(p, m, normal).1.velocity, normal);
      Dot(v0, normal) + Dot(normal, normal) + Dot(run, normal);
      1.0;
    }
  }

  /** Grounded: along the tangent (the normal turned by 90 degrees) the
      velocity keeps its old component and gains `run_acceleration` times
      the player's speed; neither the radial removal nor a jump touches
      it. */
  lemma {:induction false} PlayerStepRun(p: Player, m: Motion, normal: Vec2, offset: Vec2)
    requires p.onGround
    requires IsUnitNormal(normal, offset)
    ensures var t := Rot90(normal);
            Dot(PlayerStep(p, m, normal).1.velocity, t) == Dot(m.velocity, t) + p.runAcceleration * p.velocity
  {
    var t := Rot90(normal);
    var q := Dot(m.velocity, normal);
    var k := p.runAcceleration * p.velocity;
    var v0 := Sub(m.velocity, Scale(q, normal));
    var jump := if p.jumping then normal else Zero;
    var run := Scale(p.runAcceleration, Rot90(Scale(p.velocity, normal)));
    Rot90Scale(p.velocity, normal);
    assert Scale(p.runAcceleration, Scale(p.velocity, t)) == run;
    assert run == Scale(k, t);
    assert Dot(v0, t) == Dot(m.velocity, t) by {
      DotSubScale(m.velocity, q, normal, t);
    }
    assert Dot(jump, t) == 0.0;
    assert Dot(run, t) == k by {
      DotScale(k, t, t);
    }
    calc {
      Dot(PlayerStep(p, m, normal).1.velocity, t);
      Dot(v0, t) + Dot(jump, t) + Dot(run, t);
      Dot(m.velocity, t) + k;
    }
  }

  /** The normalisation the game uses: for a non-zero vector it returns
      the unit vector pointing the same way. */
  ghost predicate Normalizes(normalize: Vec2 -> Vec2) {
    forall u: Vec2 | u != Zero :: IsUnitNormal(normalize(u), u)
  }

  /** What `run_player_motion` needs when the player entity has a Player:
      the player has Motion and Collider and the planet a Collider (each
      missing one is an `.expect` that aborts), and a grounded player is
      not at the planet's centre, where the normal is undefined. */
  predicate PlayerReady(s: State, player: Entity, planet: Entity)
    requires Paired(s)
  {
    player in s.players ==>
      && player in s.motions && player in s.colliders && planet in s.colliders
      && (s.players[player].onGround ==> Translation(s, player) != Translation(s, planet))
  }

  /** The pose the player's object gets: translated by the new velocity,
      turned upright by `atan2(offset.x, -offset.y)`. */
  function UprightPose(pose: Pose, velocity: Vec2, angle: real): (r: Pose)
    ensures Sub(r.translation, pose.translation) == velocity
    ensures r.rotation == angle
  {
    Pose(Add(pose.translation, velocity), angle)
  }

  /** `atan2(offset.x, -offset.y)`: the angle that stands the player
      upright on the planet. */
  function PlayerAngle(offset: Vec2, atan2: (real, real) -> real): real {
    atan2(offset.x, -offset.y)
  }

  /** The locomotion pass over the state. Without a Player on the player
      entity nothing changes; otherwise only the player's Player, Motion and
      collision object change, the object moves by the new velocity and
      the acceleration is used up. */
  function PlayerPass(s: State, player: Entity, planet: Entity,
                      normalize: Vec2 -> Vec2, atan2: (real, real) -> real): (r: State)
    requires Paired(s) && PlayerReady(s, player, planet)
    ensures Paired(r)
    ensures r.colliders == s.colliders && r.masses == s.masses
    ensures r.players.Keys == s.players.Keys && r.motions.Keys == s.motions.Keys
    ensures r.objects.Keys == s.objects.Keys
    ensures player !in s.players ==> r == s
    ensures forall e | e in s.players && e != player :: r.players[e] == s.players[e]
    ensures forall e | e in s.motions && e != player :: r.motions[e] == s.motions[e]
    ensures forall h | h in s.objects && s.objects[h].data != player :: r.objects[h] == s.objects[h]
    ensures player in s.players ==>
              && r.players[player].velocity == s.players[player].velocity + s.players[player].runAcceleration
              && r.motions[player].acceleration == Zero
              && Sub(Translation(r, player), Translation(s, player)) == r.motions[player].velocity
  {
    if player !in s.players then s
    else
      var offset := Sub(Translation(s, player), Translation(s, planet));
      var next := PlayerStep(s.players[player], s.motions[player], normalize(offset));
      var h := s.colliders[player].objectHandle;
      var pose := UprightPose(s.objects[h].position, next.1.velocity, PlayerAngle(offset, atan2));
      s.(players := s.players[player := next.0],
         motions := s.motions[player := next.1],
         objects := s.objects[h := s.objects[h].(position := pose)])
  }

  /** Contact resolution over the state: the players after the event
      stream. */
  function ResolveContacts(s: State, events: seq<ContactEvent>, pairs: set<(Handle, Handle)>): (r: State)
    requires EventsResolve(events, pairs, s.objects)
    ensures r.motions == s.motions && r.colliders == s.colliders && r.masses == s.masses
    ensures r.objects == s.objects && r.players.Keys == s.players.Keys
    ensures r.players == ApplyEvents(s.players, events, pairs, s.objects)
    ensures Paired(s) ==> Paired(r)
  {
    s.(players := ApplyEvents(s.players, events, pairs, s.objects))
  }

  /** One tick of the level: player motion, then the dispatched gravity
      pass, then contact resolution. */
  function Tick(s: State, player: Entity, planet: Entity,
                normalize: Vec2 -> Vec2, atan2: (real, real) -> real,
                source: Vec2, force: real,
                events: seq<ContactEvent>, pairs: set<(Handle, Handle)>): (r: State)
    requires Paired(s) && PlayerReady(s, player, planet)
    requires EventsResolve(events, pairs, s.objects)
    ensures Paired(r)
    ensures r.colliders == s.colliders && r.masses == s.masses
    ensures r.players.Keys == s.players.Keys && r.motions.Keys == s.motions.Keys
    ensures r.objects.Keys == s.objects.Keys
  {
    var moved := PlayerPass(s, player, planet, normalize, atan2);
    ResolveContacts(Gravitate(moved, source, force), events, pairs)
  }

  /** Contact resolution never touches motion: within a tick, a player who
      jumps leaves the ground in the locomotion pass, and only a contact
      event can put it back on the ground. */
  lemma {:induction false} TickGroundedOnlyByContact(s: State, player: Entity, planet: Entity,
                                                    normalize: Vec2 -> Vec2, atan2: (real, real) -> real,
                                                    source: Vec2, force: real,
                                                    events: seq<ContactEvent>, pairs: set<(Handle, Handle)>)
    requires Paired(s) && PlayerReady(s, player, planet)
    requires EventsResolve(events, pairs, s.objects)
    requires player in s.players && s.players[player].jumping
    requires forall i | 0 <= i < |events| :: !Touches(events[i], pairs, s.objects, player)
    ensures !Tick(s, player, planet, normalize, atan2, source, force, events, pairs).players[player].onGround
  {
    var moved := PlayerPass(s, player, planet, normalize, atan2);
    var pulled := Gravitate(moved, source, force);
    assert moved.players[player].onGround == false;
    ApplyEventsUntouched(pulled.players, events, pairs, pulled.objects, player);
  }

  // ---------------------------------------------------------------------
  // The scene

  /** `std::f32::consts::PI` to the precision of an `f32`. */
  const Pi: real := 3.1415927

  const PlanetRadius: real := 2000.0
  const PlanetGravity: real := 200.0
  const PlayerHalfHeight: real := 20.0
  const RunAcceleration: real := 0.01
  const ObstacleHalfWidth: real := 10.0
  const ObstacleCount: nat := 10

  /** Every collider and collision object of `s` is still in `t`,
      unchanged. */
  predicate Keeps(t: State, s: State) {
    && (forall e | e in s.colliders :: e in t.colliders && t.colliders[e] == s.colliders[e])
    && (forall h | h in s.objects :: h in t.objects && t.objects[h] == s.objects[h])
  }

  /** `t` only adds to `s`: the same players, motions and masses, and
      every collider and collision object of `s` kept. */
  predicate Extends(t: State, s: State) {
    && t.players == s.players && t.motions == s.motions && t.masses == s.masses
    && Keeps(t, s)
  }

  lemma KeepsTransitive(s: State, t: State, u: State)
    requires Keeps(t, s) && Keeps(u, t)
    ensures Keeps(u, s)
  {
  }

  lemma ExtendsTransitive(s: State, t: State, u: State)
    requires Extends(t, s) && Extends(u, t)
    ensures Extends(u, s)
  {
  }

  /** Entity `e`'s collider names the collision object `obj`. */
  predicate HasObject(s: State, e: Entity, obj: CollisionObject) {
    e in s.colliders && s.colliders[e].objectHandle in s.objects && s.objects[s.colliders[e].objectHandle] == obj
  }

  /** What the first two steps of `new` make of `s`: the planet with its
      object at the origin and no Player or Motion; the player with its
      Player, Motion and Mass and its object below the planet, ready to
      move; every collider and collision object of `s` kept. */
  ghost predicate BodiesBuilt(t: State, s: State, planet: Entity, player: Entity) {
    && Paired(t)
    && t.players == s.players[player := Player(false, false, 0.0, RunAcceleration)]
    && t.motions == s.motions[player := Motion(Vec2(1.5, 0.0), Zero)]
    && t.masses == s.masses + {player}
    && planet !in t.players && planet !in t.motions
    && HasObject(t, planet, PlanetObject(planet))
    && HasObject(t, player, PlayerObject(PlanetRadius, player))
    && PlayerReady(t, player, planet)
    && Keeps(t, s)
  }

  /** Placing obstacles after the bodies keeps what the bodies are. */
  lemma BodiesBuiltExtends(s: State, t: State, u: State, planet: Entity, player: Entity)
    requires BodiesBuilt(t, s, planet, player) && Paired(u) && Extends(u, t)
    ensures BodiesBuilt(u, s, planet, player)
  {
    PlayerReadyExtends(t, u, player, planet);
    KeepsTransitive(s, t, u);
  }

  /** Adding components and collision objects keeps the player ready. */
  lemma PlayerReadyExtends(s: State, t: State, player: Entity, planet: Entity)
    requires Paired(s) && Paired(t) && Extends(t, s)
    requires PlayerReady(s, player, planet)
    ensures PlayerReady(t, player, planet)
  {
  }

  /** Entity `first + k` is the `k`-th obstacle that `new` places: it is an
      Obstacle, and its collider names an object of the obstacle group,
      owned by it, on the circle of radius `planetRadius + 10` at the angle
      `PI + k/5` and turned by that angle. */
  predicate ObstaclePlaced(s: State, obstacles: set<Entity>, first: Entity, k: nat,
                           planetRadius: real, cos: real -> real, sin: real -> real)
  {
    var e, angle := first + k, Pi + (k as real) / 5.0;
    && e in obstacles && e in s.colliders && s.colliders[e].objectHandle in s.objects
    && s.objects[s.colliders[e].objectHandle]
       == CollisionObject(Pose(OnCircle(planetRadius + ObstacleHalfWidth, angle, cos, sin), angle), ObstacleGroup, e)
  }

  /** Entities `first` .. `first + count - 1` are the first `count`
      obstacles that `new` places. */
  predicate ObstaclesPlaced(s: State, obstacles: set<Entity>, first: Entity, count: nat,
                            planetRadius: real, cos: real -> real, sin: real -> real)
  {
    forall k: nat | k < count :: ObstaclePlaced(s, obstacles, first, k, planetRadius, cos, sin)
  }

  /** A placed obstacle stays placed in any state that only adds. */
  lemma ObstaclePlacedExtends(s: State, t: State, obstacles: set<Entity>, obstacles': set<Entity>, first: Entity, k: nat,
                              planetRadius: real, cos: real -> real, sin: real -> real)
    requires ObstaclePlaced(s, obstacles, first, k, planetRadius, cos, sin)
    requires Extends(t, s) && obstacles <= obstacles'
    ensures ObstaclePlaced(t, obstacles', first, k, planetRadius, cos, sin)
  {
  }

  /** Everything `new` touches in the world: the components and collision
      objects, the Gravity and Obstacle storages and the next entity id. */
  datatype Stores = Stores(s: State, gravities: map<Entity, real>, obstacles: set<Entity>, nextEntity: Entity)

  function StoresOf(w: World): Stores
    reads w, w.collide
  {
    Stores(w.Snap(), w.gravities, w.obstacles, w.nextEntity)
  }

  /** What `new` makes of the world `b`, giving `a`: the planet is entity
      `b.nextEntity` with Gravity 200, the player the next one, both built
      as `BodiesBuilt` says; the ten obstacles follow, placed as
      `ObstaclesPlaced` says; every collider and obstacle added belongs to
      one of these twelve new entities. */
  ghost predicate LevelBuilt(a: Stores, b: Stores, cos: real -> real, sin: real -> real) {
    var planet, player, first := b.nextEntity, b.nextEntity + 1, b.nextEntity + 2;
    && a.nextEntity == first + ObstacleCount
    && a.gravities == b.gravities[planet := PlanetGravity]
    && BodiesBuilt(a.s, b.s, planet, player)
    && (forall e | e in a.s.colliders && e !in b.s.colliders :: planet <= e < a.nextEntity)
    && b.obstacles <= a.obstacles && |a.obstacles| == |b.obstacles| + ObstacleCount
    && ObstaclesPlaced(a.s, a.obstacles, first, ObstacleCount, PlanetRadius, cos, sin)
    && (forall e | e in a.obstacles && e !in b.obstacles :: first <= e < a.nextEntity)
  }

  /** The bodies built on `b` giving `m`, then the obstacles placed on `m`
      giving `a`, make up what `new` builds. */
  lemma LevelBuiltFrom(b: Stores, m: Stores, a: Stores, cos: real -> real, sin: real -> real)
    requires m.nextEntity == b.nextEntity + 2 && m.obstacles == b.obstacles
    requires m.gravities == b.gravities[b.nextEntity := PlanetGravity]
    requires BodiesBuilt(m.s, b.s, b.nextEntity, b.nextEntity + 1)
    requires forall e | e in m.s.colliders && e !in b.s.colliders :: b.nextEntity <= e < m.nextEntity
    requires Paired(a.s) && Extends(a.s, m.s) && a.gravities == m.gravities
    requires a.nextEntity == m.nextEntity + ObstacleCount
    requires m.obstacles <= a.obstacles && |a.obstacles| == |m.obstacles| + ObstacleCount
    requires ObstaclesPlaced(a.s, a.obstacles, m.nextEntity, ObstacleCount, PlanetRadius, cos, sin)
    requires forall e | e in a.obstacles && e !in m.obstacles :: m.nextEntity <= e < a.nextEntity
    requires forall e | e in a.s.colliders && e !in m.s.colliders :: m.nextEntity <= e < a.nextEntity
    ensures LevelBuilt(a, b, cos, sin)
  {
    BodiesBuiltExtends(b.s, m.s, a.s, b.nextEntity, b.nextEntity + 1);
  }

  /** `(cos(angle) * radius, sin(angle) * radius)`: the point at `angle`
      on the circle of `radius` about the origin. With a `cos` and `sin`
      that satisfy `cos^2 + sin^2 == 1` at `angle`, it lies at distance
      `radius` from the origin. */
  function OnCircle(radius: real, angle: real, cos: real -> real, sin: real -> real): (r: Vec2)
    ensures cos(angle) * cos(angle) + sin(angle) * sin(angle) == 1.0 ==> Dot(r, r) == radius * radius
  {
    var c, s := cos(angle), sin(angle);
    var r := Vec2(c * radius, s * radius);
    assert Dot(r, r) == (c * c + s * s) * (radius * radius) by {
      calc {
        Dot(r, r);
        (c * radius) * (c * radius) + (s * radius) * (s * radius);
        (c * c + s * s) * (radius * radius);
      }
    }
    r
  }

  /** The planet's collision object: at the origin, unrotated, in the
      terrain group. */
  function PlanetObject(e: Entity): CollisionObject {
    CollisionObject(Pose(Zero, 0.0), TerrainGroup, e)
  }

  /** The player's collision object: at `(0, -(planetRadius + 60))`,
      unrotated, in the player group. */
  function PlayerObject(planetRadius: real, e: Entity): CollisionObject {
    CollisionObject(Pose(Vec2(0.0, -(planetRadius + PlayerHalfHeight * 3.0)), 0.0), PlayerGroup, e)
  }

  class LevelScene {
    var done: bool
    var playerEntity: Entity
    var planetEntity: Entity
    var cameraFocus: Vec2
    /** The one system the dispatcher runs. */
    const gravity: GravitySystem

    /** `LevelScene::new`: the planet, then the player, then ten obstacles
        on the planet's surface starting at angle PI, 1/5 radian apart.
        The dispatcher's gravity system is given its source and force. */
    constructor (w: World, gravitySource: Vec2, gravityForce: real, cos: real -> real, sin: real -> real)
      requires w.Valid()
      modifies w`nextEntity, w`players, w`motions, w`masses, w`gravities, w`obstacles,
               w`colliders, w.collide`objects, w.collide`nextHandle
      ensures w.Valid()
      ensures !done && cameraFocus == Zero
      ensures gravity.position == gravitySource && gravity.force == gravityForce
      ensures planetEntity == old(w.nextEntity) && playerEntity == old(w.nextEntity) + 1
      ensures LevelBuilt(StoresOf(w), old(StoresOf(w)), cos, sin)
    {
      var planet, player := Populate(w, cos, sin);
      done := false;
      playerEntity := player;
      planetEntity := planet;
      cameraFocus := Zero;
      gravity := new GravitySystem(gravitySource, gravityForce);
    }

    /** The world-building steps of `new`: the planet, the player, then
        the obstacles. */
    static method Populate(w: World, cos: real -> real, sin: real -> real) returns (planet: Entity, player: Entity)
      requires w.Valid()
      modifies w`nextEntity, w`players, w`motions, w`masses, w`gravities, w`obstacles,
               w`colliders, w.collide`objects, w.collide`nextHandle
      ensures w.Valid()
      ensures planet == old(w.nextEntity) && player == old(w.nextEntity) + 1
      ensures LevelBuilt(StoresOf(w), old(StoresOf(w)), cos, sin)
    {
      ghost var start := StoresOf(w);
      planet, player := CreateBodies(w);
      ghost var bodies := StoresOf(w);
      CreateObstacles(w, PlanetRadius, cos, sin);
      LevelBuiltFrom(start, bodies, StoresOf(w), cos, sin);
    }

    /** The first two steps of `new`: the planet, then the player. */
    static method CreateBodies(w: World) returns (planet: Entity, player: Entity)
      requires w.Valid()
      modifies w`nextEntity, w`players, w`motions, w`masses, w`gravities,
               w`colliders, w.collide`objects, w.collide`nextHandle
      ensures w.Valid()
      ensures planet == old(w.nextEntity) && player == planet + 1 && w.nextEntity == player + 1
      ensures w.players == old(w.players)[player := Player(false, false, 0.0, RunAcceleration)]
      ensures w.motions == old(w.motions)[player := Motion(Vec2(1.5, 0.0), Zero)]
      ensures w.masses == old(w.masses) + {player}
      ensures w.gravities == old(w.gravities)[planet := PlanetGravity]
      ensures w.obstacles == old(w.obstacles)
      ensures planet in w.colliders && player in w.colliders
      ensures w.colliders == old(w.colliders)[planet := w.colliders[planet]][player := w.colliders[player]]
      ensures w.colliders[planet].objectHandle !in old(w.collide.objects)
      ensures w.colliders[player].objectHandle !in old(w.collide.objects)
      ensures w.collide.objects == old(w.collide.objects)[w.colliders[planet].objectHandle := PlanetObject(planet)]
                                                         [w.colliders[player].objectHandle := PlayerObject(PlanetRadius, player)]
      ensures BodiesBuilt(w.Snap(), old(w.Snap()), planet, player)
      ensures forall e | e in w.colliders && e !in old(w.colliders) :: planet <= e <= player
    {
      planet := CreatePlanet(w, PlanetRadius);
      player := CreatePlayer(w, PlanetRadius);
    }

    /** The loop of `new` that places the ten obstacles, at the angles
        PI + i/5 for i = 0 .. 9. Nothing that existed before changes. */
    static method CreateObstacles(w: World, planetRadius: real, cos: real -> real, sin: real -> real)
      requires w.Valid()
      modifies w`obstacles, w`nextEntity, w`colliders, w.collide`objects, w.collide`nextHandle
      ensures w.Valid()
      ensures Extends(w.Snap(), old(w.Snap()))
      ensures w.nextEntity == old(w.nextEntity) + ObstacleCount
      ensures old(w.obstacles) <= w.obstacles && |w.obstacles| == |old(w.obstacles)| + ObstacleCount
      ensures ObstaclesPlaced(w.Snap(), w.obstacles, old(w.nextEntity), ObstacleCount, planetRadius, cos, sin)
      ensures forall e | e in w.obstacles && e !in old(w.obstacles) ::
                old(w.nextEntity) <= e < old(w.nextEntity) + ObstacleCount
      ensures forall e | e in w.colliders && e !in old(w.colliders) ::
                old(w.nextEntity) <= e < old(w.nextEntity) + ObstacleCount
    {
      ghost var s := w.Snap();
      ghost var first := w.nextEntity;
      for i := 0 to ObstacleCount
        invariant w.Valid()
        invariant Extends(w.Snap(), s)
        invariant w.nextEntity == first + i
        invariant old(w.obstacles) <= w.obstacles && |w.obstacles| == |old(w.obstacles)| + i
        invariant ObstaclesPlaced(w.Snap(), w.obstacles, first, i, planetRadius, cos, sin)
        invariant forall e | e in w.obstacles && e !in old(w.obstacles) :: first <= e < first + i
        invariant forall e | e in w.colliders && e !in old(w.colliders) :: first <= e < first + i
      {
        ghost var before, obstaclesBefore := w.Snap(), w.obstacles;
        var _ := CreateObstacle(w, planetRadius, Pi + (i as real) / 5.0, cos, sin);
        ExtendsTransitive(s, before, w.Snap());
        forall k: nat | k < i
          ensures ObstaclePlaced(w.Snap(), w.obstacles, first, k, planetRadius, cos, sin)
        {
          ObstaclePlacedExtends(before, w.Snap(), obstaclesBefore, w.obstacles, first, k, planetRadius, cos, sin);
        }
      }
    }

    /** `create_planet`: an entity with Gravity 200 and a collision object
        at the origin in the terrain group. */
    static method CreatePlanet(w: World, planetRadius: real) returns (e: Entity)
      requires w.Valid()
      modifies w`gravities, w`nextEntity, w`colliders, w.collide`objects, w.collide`nextHandle
      ensures w.Valid()
      ensures e == old(w.nextEntity) && w.nextEntity == e + 1
      ensures w.players == old(w.players) && w.motions == old(w.motions) && w.masses == old(w.masses)
      ensures w.obstacles == old(w.obstacles)
      ensures w.gravities == old(w.gravities)[e := PlanetGravity]
      ensures e in w.colliders && w.colliders == old(w.colliders)[e := w.colliders[e]]
      ensures w.colliders[e].objectHandle !in old(w.collide.objects)
      ensures w.collide.objects == old(w.collide.objects)[w.colliders[e].objectHandle :=
                                     CollisionObject(Pose(Zero, 0.0), TerrainGroup, e)]
    {
      e := w.CreateEntity();
      w.gravities := w.gravities[e := PlanetGravity];
      var _ := w.AttachCollider(e, Pose(Zero, 0.0), TerrainGroup);
    }

    /** `create_player`: an entity with Player, Motion and Mass and a
        collision object at (0, -(radius + 60)), in the player group. */
    static method CreatePlayer(w: World, planetRadius: real) returns (e: Entity)
      requires w.Valid()
      modifies w`players, w`motions, w`masses, w`nextEntity, w`colliders, w.collide`objects, w.collide`nextHandle
      ensures w.Valid()
      ensures e == old(w.nextEntity) && w.nextEntity == e + 1
      ensures w.players == old(w.players)[e := Player(false, false, 0.0, RunAcceleration)]
      ensures w.motions == old(w.motions)[e := Motion(Vec2(1.5, 0.0), Zero)]
      ensures w.masses == old(w.masses) + {e}
      ensures w.gravities == old(w.gravities) && w.obstacles == old(w.obstacles)
      ensures e in w.colliders && w.colliders == old(w.colliders)[e := w.colliders[e]]
      ensures w.colliders[e].objectHandle !in old(w.collide.objects)
      ensures w.collide.objects == old(w.collide.objects)[w.colliders[e].objectHandle :=
                CollisionObject(Pose(Vec2(0.0, -(planetRadius + PlayerHalfHeight * 3.0)), 0.0), PlayerGroup, e)]
    {
      e := w.CreateEntity();
      w.players := w.players[e := Player(false, false, 0.0, RunAcceleration)];
      w.motions := w.motions[e := Motion(Vec2(1.5, 0.0), Zero)];
      w.masses := w.masses + {e};
      var playerOffset := planetRadius + PlayerHalfHeight * 3.0;
      var _ := w.AttachCollider(e, Pose(Vec2(0.0, -playerOffset), 0.0), PlayerGroup);
    }

    /** `create_obstacle`: an Obstacle entity with a collision object just
        above the surface at `angle`, turned by `angle`, in the obstacle
        group. */
    static method CreateObstacle(w: World, planetRadius: real, angle: real, cos: real -> real, sin: real -> real)
      returns (e: Entity)
      requires w.Valid()
      modifies w`obstacles, w`nextEntity, w`colliders, w.collide`objects, w.collide`nextHandle
      ensures w.Valid()
      ensures Extends(w.Snap(), old(w.Snap()))
      ensures e == old(w.nextEntity) && w.nextEntity == e + 1
      ensures w.players == old(w.players) && w.motions == old(w.motions) && w.masses == old(w.masses)
      ensures w.gravities == old(w.gravities)
      ensures w.obstacles == old(w.obstacles) + {e} && e !in old(w.obstacles)
      ensures e in w.colliders && w.colliders == old(w.colliders)[e := w.colliders[e]]
      ensures w.colliders[e].objectHandle !in old(w.collide.objects)
      ensures w.collide.objects == old(w.collide.objects)[w.colliders[e].objectHandle :=
                CollisionObject(Pose(OnCircle(planetRadius + ObstacleHalfWidth, angle, cos, sin), angle), ObstacleGroup, e)]
    {
      e := w.CreateEntity();
      w.obstacles := w.obstacles + {e};
      var obstacleOffset := planetRadius + ObstacleHalfWidth;
      var position := OnCircle(obstacleOffset, angle, cos, sin);
      var _ := w.AttachCollider(e, Pose(position, angle), ObstacleGroup);
    }

    /** The `Some(player)` branch of the resolver's inner loop. */
    static method MarkOnGround(w: World, e: Entity, value: bool)
      modifies w`players
      ensures w.players == SetOnGround(old(w.players), e, value)
    {
      if e in w.players {
        var player := w.players[e];
        player := player.(onGround := value);
        w.players := w.players[e := player];
      }
    }

    /** `handle_contact_events`: the collision world is updated (its
        outcome, the event stream and the contact pairs, is supplied), then
        the events are resolved in stream order. */
    method HandleContactEvents(w: World, events: seq<ContactEvent>, pairs: set<(Handle, Handle)>)
      requires w.Valid()
      requires EventsResolve(events, pairs, w.collide.objects)
      modifies w`players, w.collide`events, w.collide`contactPairs
      ensures w.Valid()
      ensures w.collide.events == events && w.collide.contactPairs == pairs
      ensures w.players == ApplyEvents(old(w.players), events, pairs, w.collide.objects)
    {
      w.collide.Update(events, pairs);
      ResolveEvents(w);
      w.ValidAfterMotion();
    }

    /** The resolver's loop: the event stream in order. */
    static method ResolveEvents(w: World)
      requires EventsResolve(w.collide.events, w.collide.contactPairs, w.collide.objects)
      modifies w`players
      ensures w.players == ApplyEvents(old(w.players), w.collide.events, w.collide.contactPairs, w.collide.objects)
    {
      ghost var events := w.collide.events;
      for i := 0 to |w.collide.events|
        invariant w.players == ApplyEvents(old(w.players), events[..i], w.collide.contactPairs, w.collide.objects)
      {
        assert events[..i + 1][..i] == events[..i];
        ResolveEvent(w, w.collide.events[i]);
      }
      assert events[..|events|] == events;
    }

    /** The body of the resolver's loop for one event. */
    static method ResolveEvent(w: World, ev: ContactEvent)
      requires HasPair(ev, w.collide.contactPairs) ==> Resolvable(ev, w.collide.objects)
      modifies w`players
      ensures w.players == ApplyEvent(old(w.players), ev, w.collide.contactPairs, w.collide.objects)
    {
      match ev
      case Started(handle1, handle2) =>
        if w.collide.ContactPair(handle1, handle2) {
          var e1 := w.collide.objects[handle1].data;
          var e2 := w.collide.objects[handle2].data;
          MarkOnGround(w, e1, true);
          MarkOnGround(w, e2, true);
        }
      case Stopped(handle1, handle2) =>
        if w.collide.ContactPair(handle1, handle2) {
          var e1 := w.collide.objects[handle1].data;
          var e2 := w.collide.objects[handle2].data;
          MarkOnGround(w, e1, false);
          MarkOnGround(w, e2, false);
        }
    }

    /** The part of `run_player_motion` that updates the player's Player
        and Motion, given the normal. */
    static method StepPlayer(player: Player, motion: Motion, normal: Vec2) returns (p: Player, m: Motion)
      ensures (p, m) == PlayerStep(player, motion, normal)
    {
      p, m := player, motion;
      if p.onGround {
        var projection := Dot(m.velocity, normal);
        m := m.(velocity := Sub(m.velocity, Scale(projection, normal)));
        m := m.(acceleration := Zero);
        if p.jumping {
          m := m.(acceleration := Add(m.acceleration, normal));
          p := p.(onGround := false);
        }
        var runSpeed := Rot90(Scale(p.velocity, normal));
        m := m.(acceleration := Add(m.acceleration, Scale(p.runAcceleration, runSpeed)));
      }
      p := p.(velocity := p.velocity + p.runAcceleration);
      m := m.(velocity := Add(m.velocity, m.acceleration));
      m := m.(acceleration := Zero);
    }

    /** `run_player_motion`: without a Player on the player entity nothing
        happens; otherwise the player takes its step, its object is moved
        and turned upright, and the camera follows it. */
    method RunPlayerMotion(w: World, normalize: Vec2 -> Vec2, atan2: (real, real) -> real)
      requires w.Valid() && Normalizes(normalize)
      requires PlayerReady(w.Snap(), playerEntity, planetEntity)
      modifies w`players, w`motions, w.collide`objects, this`cameraFocus
      ensures w.Valid()
      ensures w.Snap() == PlayerPass(old(w.Snap()), playerEntity, planetEntity, normalize, atan2)
      ensures playerEntity in w.players ==> cameraFocus == Translation(w.Snap(), playerEntity)
      ensures playerEntity !in w.players ==> cameraFocus == old(cameraFocus)
    {
      if playerEntity in w.players {
        ghost var s := w.Snap();
        var playerCollider := w.colliders[playerEntity];
        var (playerPosition, _) := CollisionObjectPosition(w.collide, playerCollider);
        var planetCollider := w.colliders[planetEntity];
        var (planetPosition, _) := CollisionObjectPosition(w.collide, planetCollider);

        var offset := Sub(playerPosition, planetPosition);
        var normal := normalize(offset);
        var player, playerMotion := StepPlayer(w.players[playerEntity], w.motions[playerEntity], normal);
        w.players := w.players[playerEntity := player];
        w.motions := w.motions[playerEntity := playerMotion];

        var playerAngle := PlayerAngle(offset, atan2);
        var handle := playerCollider.objectHandle;
        var newPosition := w.collide.objects[handle].position;
        newPosition := newPosition.(translation := Add(newPosition.translation, playerMotion.velocity));
        newPosition := newPosition.(rotation := playerAngle);
        w.collide.SetPosition(handle, newPosition);
        cameraFocus := newPosition.translation;

        assert newPosition == UprightPose(s.objects[handle].position, playerMotion.velocity, playerAngle);
        assert w.Snap() == PlayerPass(s, playerEntity, planetEntity, normalize, atan2);
        w.ValidAfterMotion();
      }
    }

    /** `update`: player motion, the dispatcher (gravity only), contact
        resolution; then `Pop` exactly when the scene is done. */
    method Update(w: World, normalize: Vec2 -> Vec2, atan2: (real, real) -> real,
                  events: seq<ContactEvent>, pairs: set<(Handle, Handle)>) returns (r: SceneSwitch)
      requires w.Valid() && Normalizes(normalize)
      requires PlayerReady(w.Snap(), playerEntity, planetEntity)
      requires EventsResolve(events, pairs, w.collide.objects)
      modifies w`players, w`motions, w.collide`objects, w.collide`events, w.collide`contactPairs, this`cameraFocus
      ensures w.Valid()
      ensures w.Snap() == Tick(old(w.Snap()), playerEntity, planetEntity, normalize, atan2,
                               gravity.position, gravity.force, events, pairs)
      ensures w.collide.events == events && w.collide.contactPairs == pairs
      ensures playerEntity in old(w.players) ==> cameraFocus == Translation(w.Snap(), playerEntity)
      ensures playerEntity !in old(w.players) ==> cameraFocus == old(cameraFocus)
      ensures r == Pop <==> done
    {
      RunPlayerMotion(w, normalize, atan2);
      gravity.Run(w);
      HandleContactEvents(w, events, pairs);
      if done {
        r := Pop;
      } else {
        r := NoSwitch;
      }
    }
  }
}
