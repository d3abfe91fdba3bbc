# Planet runner: the per-tick gameplay update

A Dafny model of the gameplay core of a small planet-runner game (a
ggez/specs/ncollide program). A player runs around a circular planet. The
planet pulls on everything with mass, and the player sticks to the
ground, runs and jumps. Each tick, the level scene does three things in
order:

1. moves the player (`run_player_motion`);
2. runs the systems dispatcher, which holds only the gravity system;
3. resolves the collision world's contact events, which set or clear
   the player's `on_ground` flag (`handle_contact_events`).

The scene then returns `Pop` exactly when it is done. The kinematic
integrator system (`NCollideMotionSystem`) is modelled as well, even
though the dispatcher has it commented out.

Files and modules:

- `vectors.dfy` (`Vectors`): 2-D vectors over exact reals, which stand
  in for `f32`.
  - The game normalises vectors with a square root. The model has no
    square roots. A normalised vector is described instead by
    `IsUnitNormal`: it has unit length, is parallel to the vector it
    normalises and points the same way. `UnitNormalUnique` shows that
    this fixes the vector.
  - The radial part of a velocity is removed with the square-root-free
    form `RemoveRadial`.
- `collision.dfy` (`Collision`): the collision world.
  - It holds objects by handle. Each object has a pose, a group and the
    owning entity as user data.
  - It holds the contact events and contact pairs of its last `update`.
  - `add` and `set_position` are modelled. The broad and narrow phase
    are not: their outcome is an input.
- `ecs.dfy` (`Ecs`): the components (`Motion`, `Player`, `Collider`, and
  the markers `Mass` and `Obstacle`) and the specs world that stores
  them.
  - Every storage is a map (or a set for a marker), and the world is a
    class whose fields the passes reassign.
  - `Paired` is the world invariant: colliders and collision objects
    are in one-to-one correspondence. Each `.expect` on a handle lookup
    in the game relies on it.
  - `Snap` takes a value snapshot of what the passes read and write.
- `systems.dfy` (`Systems`): `GravitySystem::run` and
  `NCollideMotionSystem::run`.
  - Each pass is a method over the world that visits entities in
    increasing order, as a specs join does.
  - Each method is proved equal to a function of the state before the
    pass (`Gravitate`, `IntegratePass`).
  - Per-entity properties are proved about the step functions
    (`GravityStep`, `Integrate`).
- `level.dfy` (`Level`): the level scene.
  - Contact-event resolution: the `ApplyEvent`/`ApplyEvents`
    specification, and the `HandleContactEvents` method.
  - The player's locomotion: the `PlayerStep`/`PlayerPass`
    specification, and the `RunPlayerMotion` method.
  - Construction: `new`, with `create_planet`, `create_player` and
    `create_obstacle`.
  - The tick: `Update`, proved equal to `Tick`, which composes the three
    passes.

Some things cannot be computed exactly over the reals: square-root
normalisation, `atan2` and `cos`/`sin`. These become function
parameters. `RunPlayerMotion` and `Update` require the `normalize`
parameter to satisfy `Normalizes`: for every non-zero vector it must
return that vector's unit normal.

What the code does, stated where it is easy to misread:

- Gravity adds `offset * (force / distance^2)` with an offset that is
  not normalised. The pull therefore has magnitude `force / distance`,
  not the inverse-square `force / distance^2`.
  - `GravityMagnitude` proves this in general.
  - `GravityStraightBelow` proves it along the vertical at every
    distance the guard lets through. The system built by `level.rs` is
    given no source or force (see the next point). If its source were
    the planet at the origin with force 200, the player as placed
    (distance 2060) would gain `(0, 200 / 2060)`, pointing at the planet:
    +y points down on the screen.
- `GravitySystem` has a single fixed `position` and `force` and never
  reads the `Gravity` storage, so there is no sum over sources.
  `level.rs` builds the system without setting those two fields, so the
  model takes them as parameters of the scene's constructor.
- `components.rs` declares `Player` as a unit struct, and it declares no
  `Collider`, `Mass`, `Gravity` or `Obstacle`. The model takes their fields
  from how `level.rs` and `systems.rs` use them. The level builds `Player`
  with four fields (`on_ground`, `jumping`, `velocity`,
  `run_acceleration`), and those four fields are modelled.

## Model

| member | source | states |
|---|---|---|
| Vectors.Rot90 | src/scenes/level.rs:352-353 | The rotation by PI/2 gives a vector perpendicular to its input, of the same length, turned counter-clockwise. |
| Vectors.UnitNormalParallel | src/scenes/level.rs:331-332 | The normal `offset / norm(offset)` satisfies `offset == Dot(offset, n) * n`, and `Dot(offset, n)` is the length of the offset. |
| Vectors.UnitNormalUnique | src/scenes/level.rs:332-342 | Two unit normals of one offset are equal. The three normalisations in `run_player_motion` therefore agree. |
| Vectors.RemoveRadial | src/scenes/level.rs:339-342 | The square-root-free radial removal leaves a vector perpendicular to the offset, and what it removes is parallel to the offset. |
| Vectors.RemoveRadialByNormal | src/scenes/level.rs:339-342 | `v - n * dot(v, n)` with the unit normal `n` equals the square-root-free `RemoveRadial(v, offset)`. |
| Collision.CollisionWorld.Add | src/scenes/level.rs:134-140 | `add` stores the object under a handle that no live object had, and changes nothing else. |
| Collision.CollisionWorld.SetPosition | src/systems.rs:76 | `set_position` replaces the pose of one live object and keeps its group and user data. The set of handles is unchanged. |
| Collision.CollisionWorld.ContactPair | src/scenes/level.rs:274 | `contact_pair(h1, h2)` finds a pair exactly when the ordered pair of handles is among the supplied contact pairs (`PairListed`, the same test the `ApplyEvent` specification uses through `HasPair`). |
| Collision.CollisionWorld.Update | src/scenes/level.rs:262 | After `update`, the event stream and the contact pairs are the supplied outcome. |
| Ecs.PairedHandlesDistinct | src/scenes/level.rs:134-147 | Under the collider/object pairing, distinct entities own distinct collision objects. |
| Ecs.World.CreateEntity | src/scenes/level.rs:97-99 | `create_entity` returns an entity that is in no storage, and the world invariant still holds. |
| Ecs.World.AttachCollider | src/scenes/level.rs:239-255 | Adding the object and inserting the collider that names it keeps the pairing and the world invariant. |
| Systems.GravityStep | src/systems.rs:35-45 | Inside the guard, the added acceleration is parallel to the offset and its projection on the offset is `force`, so it is exactly `offset * force / distance^2`. At or inside distance 0.1 nothing changes. The velocity is never touched. |
| Systems.GravityPointsToSource | src/systems.rs:35-39 | With a non-negative force, the added acceleration is a non-negative multiple of the offset, so it points at the source. |
| Systems.GravityMagnitude | src/systems.rs:35-39 | The squared length of the pull times the squared distance is `force^2`, so the pull is `force / distance`. |
| Systems.GravityStraightBelow | src/systems.rs:35-39 | At every distance the guard lets through (`d > 0.1`), an entity at distance `d` straight below the source gains exactly `(0, force / d)`. |
| Systems.Gravitate | src/systems.rs:22-47 | The gravity pass changes only the acceleration of entities that have Motion, Collider and Mass. Velocities, the other storages and the collision world are unchanged, and the pairing holds. |
| Systems.GravitySystem.Pull | src/systems.rs:24-45 | One join iteration turns the state reached below entity `e` into the state reached below `e + 1`. |
| Systems.GravitySystem.Run | src/systems.rs:22-47 | `run` leaves the world equal to `Gravitate` of the state before it, and keeps the world invariant. |
| Systems.Integrate | src/systems.rs:63-76 | The new velocity minus the old is the acceleration, and the acceleration becomes zero. The translation moves by the new velocity, and the rotation is kept. |
| Systems.IntegrateAtRest | src/systems.rs:61-77 | An entity with zero velocity and zero acceleration keeps its Motion and its pose. |
| Systems.IntegrateTwice | src/systems.rs:63-76 | After one step, a second step moves the entity by the same displacement and keeps its Motion: straight-line motion. |
| Systems.IntegratePass | src/systems.rs:61-78 | Only entities with both Collider and Motion are integrated, and their acceleration ends at zero. Collision objects change only in pose, and only those owned by entities with Motion. The pairing holds. |
| Systems.NCollideMotionSystem.Advance | src/systems.rs:62-76 | One join iteration turns the state reached below entity `e` into the state reached below `e + 1`. |
| Systems.NCollideMotionSystem.Run | src/systems.rs:61-78 | `run` leaves the world equal to `IntegratePass` of the state before it, and keeps the world invariant. |
| Level.CollisionObjectPosition | src/scenes/level.rs:382-394 | The lookup returns the translation and rotation angle of the collider's object. A stale handle is excluded by the precondition. |
| Level.SetOnGround | src/scenes/level.rs:282-286 | Only entity `e`'s `on_ground` changes, and only when `e` has a Player. No entity gains or loses a Player. |
| Level.ApplyEvent | src/scenes/level.rs:268-308 | A `Started` event with a contact pair sets `on_ground` on each of its two entities that has a Player. A `Stopped` event with a pair clears it. An event without a pair changes nothing. Every other player is unchanged. |
| Level.ApplyEvents | src/scenes/level.rs:267-310 | The whole stream changes only `on_ground`, and no player is added or removed. |
| Level.ApplyEventsUntouched | src/scenes/level.rs:267-310 | A player that no event with a contact pair involves keeps its state. |
| Level.ApplyEventsLastWins | src/scenes/level.rs:267-310 | A player's final `on_ground` is what the last event that involves it says: `true` for `Started`, `false` for `Stopped`. |
| Level.PlayerStep | src/scenes/level.rs:333-358 | The acceleration ends at zero, and the player's speed grows by `run_acceleration`. `on_ground` is cleared exactly by a grounded jump. Off the ground, the velocity only gains the stored acceleration. |
| Level.PlayerStepRadialLock | src/scenes/level.rs:339-357 | Grounded and not jumping: the new velocity is the old one with its radial part removed plus the run term. The old acceleration is discarded. The result has zero component along the planet-to-player offset. |
| Level.PlayerStepJump | src/scenes/level.rs:346-349 | Grounded and jumping: `on_ground` is cleared, and the radial part of the new velocity is exactly the unit outward normal. |
| Level.PlayerStepRun | src/scenes/level.rs:352-354 | Grounded: along the tangent (the normal turned by 90 degrees), the velocity keeps its old component and gains `run_acceleration * velocity`. |
| Level.UprightPose | src/scenes/level.rs:369-371 | The new pose is translated by the new velocity and has the upright angle as its rotation. |
| Level.PlayerPass | src/scenes/level.rs:316-377 | Without a Player on the player entity, nothing changes. Otherwise only the player's Player, Motion and collision object change. Its speed grows by `run_acceleration`, its acceleration ends at zero, and its object moves by its new velocity. The pairing holds. |
| Level.PlayerAngle | src/scenes/level.rs:361 | The upright rotation is `atan2(offset.x, -offset.y)` of the planet-to-player offset. `atan2` is a parameter, so nothing more is stated. |
| Level.ResolveContacts | src/scenes/level.rs:260-311 | Contact resolution changes only the players, which become `ApplyEvents` of the stream. Motions, colliders, masses and collision objects are unchanged, and the pairing holds. |
| Level.Tick | src/scenes/level.rs:411-415 | The player motion, gravity and contact resolution, composed in that order, keep the pairing and every storage's keys. |
| Level.TickGroundedOnlyByContact | src/scenes/level.rs:346-349 | A player who jumps in a tick ends the tick airborne, unless a contact event with a pair involves it. |
| Level.OnCircle | src/scenes/level.rs:237-238 | When `cos` and `sin` satisfy `cos^2 + sin^2 == 1` at the angle, the obstacle's position lies at distance `planet_radius + obstacle_halfwidth` from the planet's centre: its squared length is the squared radius. |
| Level.LevelBuiltFrom | src/scenes/level.rs:44-49 | Building the planet and the player, then placing the ten obstacles on the result, gives the world `LevelBuilt` describes for `new`. |
| Level.LevelScene.constructor | src/scenes/level.rs:35-61 | `new` leaves the world as `LevelBuilt` states against the world before it, and the world invariant holds. The planet is the next entity, with Gravity 200, no Player and no Motion, and its object is `(origin, angle 0)` in the terrain group. The player is the entity after it: the players, motions and masses maps gain exactly its `Player(false, false, 0, 0.01)`, Motion (1.5, 0) and Mass, and its object is at `(0, -2060)` in the player group. The k-th of the ten obstacles is entity `planet + 2 + k`, an Obstacle whose object is in the obstacle group, owned by it, at angle `PI + k/5` on the circle of radius 2010, turned by that angle. Every existing collider and collision object is kept. New colliders and obstacles belong only to these twelve entities. The scene is not done, the camera is at the origin, the gravity system has the given source and force, and the player is ready for `run_player_motion`. |
| Level.LevelScene.Populate | src/scenes/level.rs:44-49 | The world-building steps of `new` leave the world as `LevelBuilt` states, returning the planet and player entities. |
| Level.LevelScene.CreateBodies | src/scenes/level.rs:44-46 | The planet and then the player are created as the next two entities. The players, motions, masses and gravities maps gain exactly the player's Player, Motion and Mass and the planet's Gravity 200. The colliders map gains exactly their two colliders, which name two new objects: the planet's at the origin in the terrain group, the player's at `(0, -2060)` in the player group. The planet has no Player or Motion. No obstacle is added, every existing entry is kept, and the player is ready for `run_player_motion`. |
| Level.LevelScene.CreateObstacles | src/scenes/level.rs:47-49 | The loop creates ten entities in order. The k-th is an obstacle whose collider names an obstacle-group object, owned by it, at angle `PI + k/5` on the circle of radius `planet_radius + 10`, turned by that angle. These are the only new obstacles and the only new colliders. Every existing component and collision object is kept. |
| Level.LevelScene.CreatePlanet | src/scenes/level.rs:151-195 | The planet entity gets Gravity 200 and a terrain-group object at the origin. Nothing else changes. |
| Level.LevelScene.CreatePlayer | src/scenes/level.rs:91-148 | The player entity gets `Player(false, false, 0, 0.01)`, Motion (1.5, 0), Mass, and a player-group object at `(0, -(radius + 60))`. |
| Level.LevelScene.CreateObstacle | src/scenes/level.rs:201-256 | The obstacle entity gets Obstacle and an obstacle-group object at `(cos a, sin a) * (radius + 10)`, rotated by `a`. |
| Level.LevelScene.MarkOnGround | src/scenes/level.rs:282-286 | Sets `on_ground` on `e` when it has a Player, as `SetOnGround`. |
| Level.LevelScene.ResolveEvent | src/scenes/level.rs:268-308 | One loop iteration updates the players as `ApplyEvent`. |
| Level.LevelScene.ResolveEvents | src/scenes/level.rs:267-310 | The loop updates the players as `ApplyEvents` over the whole stream, in order. |
| Level.LevelScene.HandleContactEvents | src/scenes/level.rs:260-311 | After `update`, the players are `ApplyEvents` of the new event stream. The world invariant holds. |
| Level.LevelScene.StepPlayer | src/scenes/level.rs:333-358 | The in-place updates of Player and Motion compute exactly `PlayerStep`. |
| Level.LevelScene.RunPlayerMotion | src/scenes/level.rs:316-377 | The world ends equal to `PlayerPass` of the state before it, and the world invariant holds. When the player exists, the camera is at the player's new translation; otherwise the camera is unchanged. |
| Level.LevelScene.Update | src/scenes/level.rs:411-421 | The world ends equal to `Tick` of the state before it: player motion, then gravity, then contacts. The collision world holds the supplied events and pairs. When the player exists, the camera is at the player's final translation; otherwise it is unchanged. The result is `Pop` exactly when the scene is done. |

## Left out

- Floating point: `f32` rounding, NaN and infinities are not modelled.
  All quantities are exact reals.
  - Gravity's NaN branch (`distance.is_nan()`) cannot arise over the
    reals.
  - A grounded player at the planet's exact centre would give a NaN
    normal. `PlayerReady` excludes that case.
- Square roots, `atan2`, `cos` and `sin` are function parameters.
  - `normalize` is constrained by `Normalizes`.
  - `atan2`, `cos` and `sin` are unconstrained.
  - `UnitComplex::from_angle(a).angle()` wraps angles into (-PI, PI]. It
    is modelled as the identity.
- The collision world's `update` (broad phase, narrow phase, contact
  manifolds, collision groups, shapes) is foreign library code. Its
  outcome is an input: the event stream and the set of handle pairs for
  which `contact_pair` finds a pair. The contact list that
  `handle_contact_events` fills and never reads is left out.
- Aborts: every `.expect` on a missing component or a stale handle is a
  precondition. These preconditions are the `Paired` invariant,
  `PlayerReady` and `EventsResolve`.
- The `?` on `write_storage::<Collider>().insert(...)` (`level.rs` lines
  147, 194 and 255) is left out. That insert fails only for an entity
  that is no longer alive, and the entity was created just before it.
- Rendering is left out: `draw`, meshes, sprites, the star background
  (which uses `rand`), the camera rectangle and the asset store. The
  `?` error paths of mesh building in `new` and the `create_*`
  functions are left out with it. The entities carry no Mesh or Sprite
  component.
- The menu scene, input handling, the scene-stack aliases, `world.rs`,
  `error.rs` and `util.rs` are not part of this model.
- Logging is left out: the `debug!` diagnostic in the gravity system's
  skip branch (`systems.rs` lines 41-44), whose branch is modelled as
  leaving the Motion unchanged, and `DebugPrinterSystem`.
- The specs dispatcher is modelled as a direct call of the gravity
  system. Its scheduling is left out. The commented-out `PlayerMotionSystem` is left out.
  `NCollideMotionSystem` is modelled, but `Update` does not run it,
  because the dispatcher has it commented out.
- Multi-source gravity superposition is left out. The code has a single
  fixed source, so there is no sum.
- Level.LevelScene.CreateObstacles: the obstacle's angle is computed as
  `PI + i/5` with `PI` taken as 3.1415927, the `f32` value to eight
  digits.
