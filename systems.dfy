/** The two specs systems of the core: the gravity accumulator and the
    kinematic integrator that writes poses back to the collision world.
    Each system's `Run` walks entity identifiers in increasing order, as a
    specs join does, and is proved against a function of the state before
    the pass (Gravitate, IntegratePass). */
module Systems {
  import opened Vectors
  import opened Collision
  import opened Ecs

  /** The guard `distance > 0.1`, squared: with `distance = |offset|` it
      reads `Dot(offset, offset) > 0.01`, and needs no square root. */
  const MinDistanceSquared: real := 0.01

  /** The gravity update of one entity at `position`, pulled by a source at
      `source` with strength `force`. Inside the guard the added
      acceleration is parallel to the offset towards the source and its
      projection on that offset is `force`, which together fix it to
      `offset * (force / distance^2)`; outside the guard nothing changes.
      The velocity is never touched. */
  function GravityStep(m: Motion, position: Vec2, source: Vec2, force: real): (r: Motion)
    ensures r.velocity == m.velocity
    ensures Dot(Sub(source, position), Sub(source, position)) <= MinDistanceSquared ==> r == m
    ensures var offset := Sub(source, position);
            var added := Sub(r.acceleration, m.acceleration);
            Dot(offset, offset) > MinDistanceSquared ==>
              Cross(offset, added) == 0.0 && Dot(added, offset) == force
  {
    var offset := Sub(source, position);
    var distanceSquared := Dot(offset, offset);
    if distanceSquared > MinDistanceSquared then
      var k := force / distanceSquared;
      var added := Scale(k, offset);
      assert Sub(Add(m.acceleration, added), m.acceleration) == added;
      calc {
        Dot(added, offset);
        k * offset.x * offset.x + k * offset.y * offset.y;
        k * distanceSquared;
        force;
      }
      Motion(m.velocity, Add(m.acceleration, added))
    else
      m
  }

  /** With a non-negative force the pull is a non-negative multiple of the
      offset, that is, it points at the source. */
  lemma GravityPointsToSource(m: Motion, position: Vec2, source: Vec2, force: real)
    requires force >= 0.0
    ensures var offset := Sub(source, position);
            exists k: real :: k >= 0.0 &&
              Sub(GravityStep(m, position, source, force).acceleration, m.acceleration) == Scale(k, offset)
  {
    var offset := Sub(source, position);
    var d := Dot(offset, offset);
    var added := Sub(GravityStep(m, position, source, force).acceleration, m.acceleration);
    if d > MinDistanceSquared {
      var k := force / d;
      assert k >= 0.0;
      assert added == Scale(k, offset);
    } else {
      assert added == Scale(0.0, offset);
    }
  }

  /** The size of the pull as written: `|added| = force / distance`. The
      offset is not normalised before it is scaled by `force / distance^2`,
      so the pull falls off with the distance, not with its square. */
  lemma {:induction false} GravityMagnitude(m: Motion, position: Vec2, source: Vec2, force: real)
    requires var offset := Sub(source, position); Dot(offset, offset) > MinDistanceSquared
    ensures var offset := Sub(source, position);
            var added := Sub(GravityStep(m, position, source, force).acceleration, m.acceleration);
            Dot(added, added) * Dot(offset, offset) == force * force
  {
    var offset := Sub(source, position);
    var d := Dot(offset, offset);
    var k := force / d;
    var added := Sub(GravityStep(m, position, source, force).acceleration, m.acceleration);
    assert added == Scale(k, offset);
    calc {
      Dot(added, added) * d;
      (k * offset.x * k * offset.x + k * offset.y * k * offset.y) * d;
      (k * k * d) * d;
      (k * d) * (k * d);
      force * force;
    }
  }

  /** At any distance the guard lets through, an entity at distance `d`
      from the source along the negative y axis gains `(0, force / d)`,
      not `force / d^2`. With the source at the planet (the origin) and
      force 200, the player as the level places it (d = 2060) would be
      pulled toward the planet, along +y, by `200 / 2060`. */
  lemma {:induction false} GravityStraightBelow(m: Motion, source: Vec2, d: real, force: real)
    requires d > 0.1
    ensures GravityStep(m, Vec2(source.x, source.y - d), source, force).acceleration
            == Add(m.acceleration, Vec2(0.0, force / d))
  {
    var offset := Sub(source, Vec2(source.x, source.y - d));
    assert offset == Vec2(0.0, d);
    assert Dot(offset, offset) == d * d;
    assert d * d > MinDistanceSquared by {
      assert d * d > d * 0.1;
      assert d * 0.1 > 0.01;
    }
    var k := force / (d * d);
    assert k * d == force / d;
    assert Scale(k, offset) == Vec2(0.0, force / d);
  }

  /** One gravity pass over the state: every entity with Motion, Collider
      and Mass gets GravityStep at its collision object's translation. */
  function Gravitate(s: State, source: Vec2, force: real): (r: State)
    requires Paired(s)
    ensures r.players == s.players && r.colliders == s.colliders
    ensures r.masses == s.masses && r.objects == s.objects
    ensures Paired(r)
    ensures r.motions.Keys == s.motions.Keys
    ensures forall e | e in s.motions :: r.motions[e].velocity == s.motions[e].velocity
    ensures forall e | e in s.motions && (e !in s.colliders || e !in s.masses) :: r.motions[e] == s.motions[e]
  {
    s.(motions := map e | e in s.motions ::
         if e in s.colliders && e in s.masses
         then GravityStep(s.motions[e], Translation(s, e), source, force)
         else s.motions[e])
  }

  /** Gravitate restricted to the entities below `n`: the state a pass in
      increasing entity order has reached when it comes to `n`. */
  function GravitatedBelow(s: State, source: Vec2, force: real, n: nat): State
    requires Paired(s)
  {
    s.(motions := map e | e in s.motions ::
         if e < n && e in s.colliders && e in s.masses
         then GravityStep(s.motions[e], Translation(s, e), source, force)
         else s.motions[e])
  }

  /** Going from `n` to `n + 1` pulls entity `n` alone, if it has Motion,
      Collider and Mass. */
  lemma GravitatedBelowStep(s: State, source: Vec2, force: real, n: nat)
    requires Paired(s)
    ensures var t := GravitatedBelow(s, source, force, n);
            GravitatedBelow(s, source, force, n + 1) ==
              if n in s.motions && n in s.colliders && n in s.masses
              then t.(motions := t.motions[n := GravityStep(s.motions[n], Translation(s, n), source, force)])
              else t
  {
    var t, u := GravitatedBelow(s, source, force, n), GravitatedBelow(s, source, force, n + 1);
    if n in s.motions && n in s.colliders && n in s.masses {
      assert u.motions == t.motions[n := GravityStep(s.motions[n], Translation(s, n), source, force)];
    } else {
      assert u.motions == t.motions;
    }
  }

  lemma GravitatedBelowNone(s: State, source: Vec2, force: real)
    requires Paired(s)
    ensures GravitatedBelow(s, source, force, 0) == s
  {
    assert GravitatedBelow(s, source, force, 0).motions == s.motions;
  }

  /** Once every entity is below the bound, the partial pass is the pass. */
  lemma GravitatedBelowAll(s: State, source: Vec2, force: real, n: nat)
    requires Paired(s)
    requires forall e | e in s.colliders :: e < n
    ensures GravitatedBelow(s, source, force, n) == Gravitate(s, source, force)
  {
    assert GravitatedBelow(s, source, force, n).motions == Gravitate(s, source, force).motions;
  }

  /** `GravitySystem`: a single source at a fixed position with a fixed
      force. */
  class GravitySystem {
    const position: Vec2
    const force: real

    constructor (position: Vec2, force: real)
      ensures this.position == position && this.force == force
    {
      this.position := position;
      this.force := force;
    }

    /** The body of `run` for entity `e`: the offset to the source, the
        distance guard, and the pull added to the acceleration. */
    method Pull(w: World, e: Entity, ghost s: State)
      requires Paired(s) && w.Snap() == GravitatedBelow(s, position, force, e)
      modifies w`motions
      ensures w.Snap() == GravitatedBelow(s, position, force, e + 1)
    {
      GravitatedBelowStep(s, position, force, e);
      if e in w.motions && e in w.colliders && e in w.masses {
        var otherPosition := w.collide.objects[w.colliders[e].objectHandle].position.translation;
        var offset := Sub(position, otherPosition);
        var distanceSquared := Dot(offset, offset);
        if distanceSquared > MinDistanceSquared {
          var motion := w.motions[e];
          motion := motion.(acceleration := Add(motion.acceleration, Scale(force / distanceSquared, offset)));
          w.motions := w.motions[e := motion];
        }
        // Otherwise the game only logs a diagnostic; logging is not modelled.
      }
    }

    /** `run`: accumulates the pull into the acceleration of every entity
        with Motion, Collider and Mass. The collision world is only read. */
    method Run(w: World)
      requires w.Valid()
      modifies w`motions
      ensures w.Valid()
      ensures w.Snap() == Gravitate(old(w.Snap()), position, force)
    {
      ghost var s := w.Snap();
      GravitatedBelowNone(s, position, force);
      for e := 0 to w.nextEntity
        invariant w.Snap() == GravitatedBelow(s, position, force, e)
      {
        Pull(w, e, s);
      }
      GravitatedBelowAll(s, position, force, w.nextEntity);
      w.ValidAfterMotion();
    }
  }

  /** One integration step of an entity: the velocity gains exactly the
      accumulated acceleration, the acceleration is used up, the entity
      moves by its new velocity and keeps its rotation. */
  function Integrate(m: Motion, pose: Pose): (r: (Motion, Pose))
    ensures r.0.acceleration == Zero
    ensures Sub(r.0.velocity, m.velocity) == m.acceleration
    ensures Sub(r.1.translation, pose.translation) == r.0.velocity
    ensures r.1.rotation == pose.rotation
  {
    var velocity := Add(m.velocity, m.acceleration);
    (Motion(velocity, Zero), Pose(Add(pose.translation, velocity), pose.rotation))
  }

  /** An entity at rest with nothing accumulated stays where it is. */
  lemma IntegrateAtRest(pose: Pose)
    ensures Integrate(Motion(Zero, Zero), pose) == (Motion(Zero, Zero), pose)
  {
  }

  /** Once the acceleration is used up, a second step moves the entity on
      with the same velocity: straight-line motion. */
  lemma IntegrateTwice(m: Motion, pose: Pose)
    ensures var (m1, p1) := Integrate(m, pose);
            var (m2, p2) := Integrate(m1, p1);
            m2 == m1 && Sub(p2.translation, p1.translation) == Sub(p1.translation, pose.translation)
  {
  }

  /** One integration pass over the state: every entity with Collider and
      Motion gets Integrate, and its collision object receives the new
      pose. */
  function IntegratePass(s: State): (r: State)
    requires Paired(s)
    ensures r.players == s.players && r.colliders == s.colliders && r.masses == s.masses
    ensures Paired(r)
    ensures r.motions.Keys == s.motions.Keys && r.objects.Keys == s.objects.Keys
    ensures forall e | e in s.motions && e !in s.colliders :: r.motions[e] == s.motions[e]
    ensures forall e | e in s.motions && e in s.colliders :: r.motions[e].acceleration == Zero
    ensures forall h | h in s.objects ::
              r.objects[h] == s.objects[h].(position := r.objects[h].position)
    ensures forall h | h in s.objects && s.objects[h].data !in s.motions :: r.objects[h] == s.objects[h]
  {
    s.(motions := map e | e in s.motions ::
         if e in s.colliders
         then Integrate(s.motions[e], s.objects[s.colliders[e].objectHandle].position).0
         else s.motions[e],
       objects := map h | h in s.objects ::
         var e := s.objects[h].data;
         if e in s.motions
         then s.objects[h].(position := Integrate(s.motions[e], s.objects[h].position).1)
         else s.objects[h])
  }

  /** IntegratePass restricted to the entities below `n`: the state a
      pass in increasing entity order has reached when it comes to `n`. */
  function IntegratedBelow(s: State, n: nat): State
    requires Paired(s)
  {
    s.(motions := map e | e in s.motions ::
         if e < n && e in s.colliders
         then Integrate(s.motions[e], s.objects[s.colliders[e].objectHandle].position).0
         else s.motions[e],
       objects := map h | h in s.objects ::
         var e := s.objects[h].data;
         if e < n && e in s.motions
         then s.objects[h].(position := Integrate(s.motions[e], s.objects[h].position).1)
         else s.objects[h])
  }

  /** Going from `n` to `n + 1` integrates entity `n` alone, if it has
      Collider and Motion, and moves its own collision object alone. */
  lemma IntegratedBelowStep(s: State, n: nat)
    requires Paired(s)
    ensures var t := IntegratedBelow(s, n);
            IntegratedBelow(s, n + 1) ==
              if n in s.colliders && n in s.motions then
                var h := s.colliders[n].objectHandle;
                var next := Integrate(s.motions[n], s.objects[h].position);
                t.(motions := t.motions[n := next.0],
                   objects := t.objects[h := t.objects[h].(position := next.1)])
              else t
  {
    IntegratedBelowStepMotions(s, n);
    IntegratedBelowStepObjects(s, n);
  }

  lemma IntegratedBelowStepMotions(s: State, n: nat)
    requires Paired(s)
    ensures var t, u := IntegratedBelow(s, n), IntegratedBelow(s, n + 1);
            u.motions ==
              if n in s.colliders && n in s.motions
              then t.motions[n := Integrate(s.motions[n], s.objects[s.colliders[n].objectHandle].position).0]
              else t.motions
  {
    var t, u := IntegratedBelow(s, n), IntegratedBelow(s, n + 1);
    if n in s.colliders && n in s.motions {
      assert u.motions == t.motions[n := Integrate(s.motions[n], s.objects[s.colliders[n].objectHandle].position).0];
    } else {
      assert u.motions == t.motions;
    }
  }

  lemma IntegratedBelowStepObjects(s: State, n: nat)
    requires Paired(s)
    ensures var t, u := IntegratedBelow(s, n), IntegratedBelow(s, n + 1);
            u.objects ==
              if n in s.colliders && n in s.motions then
                var h := s.colliders[n].objectHandle;
                t.objects[h := t.objects[h].(position := Integrate(s.motions[n], s.objects[h].position).1)]
              else t.objects
  {
    var t, u := IntegratedBelow(s, n), IntegratedBelow(s, n + 1);
    if n in s.colliders && n in s.motions {
      var h := s.colliders[n].objectHandle;
      assert u.objects == t.objects[h := t.objects[h].(position := Integrate(s.motions[n], s.objects[h].position).1)];
    } else {
      assert u.objects == t.objects;
    }
  }

  lemma IntegratedBelowNone(s: State)
    requires Paired(s)
    ensures IntegratedBelow(s, 0) == s
  {
    var t := IntegratedBelow(s, 0);
    assert t.motions == s.motions;
    assert t.objects == s.objects;
  }

  /** Once every entity is below the bound, the partial pass is the pass. */
  lemma IntegratedBelowAll(s: State, n: nat)
    requires Paired(s)
    requires forall e | e in s.colliders :: e < n
    ensures IntegratedBelow(s, n) == IntegratePass(s)
  {
    var t, r := IntegratedBelow(s, n), IntegratePass(s);
    assert t.motions == r.motions;
    assert t.objects == r.objects;
  }

  /** `NCollideMotionSystem`. */
  class NCollideMotionSystem {
    constructor ()
    {
    }

    /** The body of `run` for entity `e`: velocity += acceleration,
        acceleration = 0, then the pose is translated by the new velocity. */
    static method Advance(w: World, e: Entity, ghost s: State)
      requires Paired(s) && w.Snap() == IntegratedBelow(s, e)
      modifies w`motions, w.collide`objects
      ensures w.Snap() == IntegratedBelow(s, e + 1)
    {
      IntegratedBelowStep(s, e);
      if e in w.colliders && e in w.motions {
        var motion := w.motions[e];
        motion := motion.(velocity := Add(motion.velocity, motion.acceleration));
        motion := motion.(acceleration := Zero);
        w.motions := w.motions[e := motion];

        var handle := w.colliders[e].objectHandle;
        var newPosition := w.collide.objects[handle].position;
        newPosition := newPosition.(translation := Add(newPosition.translation, motion.velocity));
        w.collide.SetPosition(handle, newPosition);
      }
    }

    /** `run`: integrates every entity with Collider and Motion and writes
        its new pose to the collision world. */
    method Run(w: World)
      requires w.Valid()
      modifies w`motions, w.collide`objects
      ensures w.Valid()
      ensures w.Snap() == IntegratePass(old(w.Snap()))
    {
      ghost var s := w.Snap();
      IntegratedBelowNone(s);
      for e := 0 to w.nextEntity
        invariant w.Snap() == IntegratedBelow(s, e)
      {
        Advance(w, e, s);
      }
      IntegratedBelowAll(s, w.nextEntity);
      ghost var r := IntegratePass(s);
      assert Paired(r) && r.motions.Keys == s.motions.Keys && r.objects.Keys == s.objects.Keys;
      assert w.motions == r.motions && w.collide.objects == r.objects;
      w.ValidAfterMotion();
    }
  }
}
