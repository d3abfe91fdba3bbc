/** Two-dimensional vectors over exact reals. They stand in for nalgebra's
    `Vector2<f32>` and `Point2<f32>`. Rounding is not modelled. Square roots
    (norms, normalisation) never appear here: where the game normalises a
    vector, the model characterises the normalised vector by the properties
    that define it (IsUnitNormal). */
module Vectors {

  datatype Vec2 = Vec2(x: real, y: real)

  const Zero := Vec2(0.0, 0.0)

  function Add(a: Vec2, b: Vec2): Vec2 { Vec2(a.x + b.x, a.y + b.y) }

  function Sub(a: Vec2, b: Vec2): Vec2 { Vec2(a.x - b.x, a.y - b.y) }

  function Scale(k: real, a: Vec2): Vec2 { Vec2(k * a.x, k * a.y) }

  function Dot(a: Vec2, b: Vec2): real { a.x * b.x + a.y * b.y }

  /** The z component of the 3-D cross product: zero iff `a` and `b` are parallel. */
  function Cross(a: Vec2, b: Vec2): real { a.x * b.y - a.y * b.x }

  /** Rotation by +90 degrees, `Rotation2::new(PI / 2)` applied to `a`:
      the image is perpendicular to `a`, as long as `a`, and turned
      counter-clockwise from it. */
  function Rot90(a: Vec2): (r: Vec2)
    ensures Dot(r, a) == 0.0
    ensures Dot(r, r) == Dot(a, a)
    ensures Cross(a, r) == Dot(a, a)
  {
    Vec2(-a.y, a.x)
  }

  /** `n` is `offset / |offset|`: a unit vector parallel to `offset` and
      pointing the same way. */
  predicate IsUnitNormal(n: Vec2, offset: Vec2) {
    Dot(n, n) == 1.0 && Cross(offset, n) == 0.0 && Dot(n, offset) > 0.0
  }

  lemma DotScale(k: real, a: Vec2, b: Vec2)
    ensures Dot(Scale(k, a), b) == k * Dot(a, b)
  {
    calc {
      Dot(Scale(k, a), b);
      (k * a.x) * b.x + (k * a.y) * b.y;
      k * (a.x * b.x) + k * (a.y * b.y);
      k * Dot(a, b);
    }
  }

  lemma DotAdd(a: Vec2, b: Vec2, c: Vec2)
    ensures Dot(Add(a, b), c) == Dot(a, c) + Dot(b, c)
  {
  }

  lemma DotSubScale(a: Vec2, k: real, n: Vec2, b: Vec2)
    ensures Dot(Sub(a, Scale(k, n)), b) == Dot(a, b) - k * Dot(n, b)
  {
    DotScale(k, n, b);
  }

  lemma SumOfSquaresPositive(x: real, y: real)
    requires x != 0.0 || y != 0.0
    ensures x * x + y * y > 0.0
  {
  }

  lemma DotSelfPositive(a: Vec2)
    requires a != Zero
    ensures Dot(a, a) > 0.0
  {
    assert a.x != 0.0 || a.y != 0.0;
    SumOfSquaresPositive(a.x, a.y);
    calc {
      Dot(a, a);
    ==
      a.x * a.x + a.y * a.y;
    >
      0.0;
    }
  }

  /** A unit normal determines the vector it normalises up to its length:
      `offset == |offset| * n`, with `|offset| == Dot(offset, n)`. */
  lemma {:induction false} UnitNormalParallel(n: Vec2, offset: Vec2)
    requires IsUnitNormal(n, offset)
    ensures offset == Scale(Dot(offset, n), n)
    ensures Dot(offset, offset) == Dot(offset, n) * Dot(offset, n)
  {
    var s := Dot(offset, n);
    calc {
      s * n.x;
      offset.x * (n.x * n.x) + n.x * (offset.y * n.y);
      { assert offset.y * n.x == offset.x * n.y; }
      offset.x * (n.x * n.x) + offset.x * (n.y * n.y);
      offset.x * Dot(n, n);
      offset.x;
    }
    calc {
      s * n.y;
      n.y * (offset.x * n.x) + offset.y * (n.y * n.y);
      { assert offset.y * n.x == offset.x * n.y; }
      offset.y * (n.x * n.x) + offset.y * (n.y * n.y);
      offset.y * Dot(n, n);
      offset.y;
    }
    calc {
      Dot(offset, offset);
      (s * n.x) * (s * n.x) + (s * n.y) * (s * n.y);
      s * s * Dot(n, n);
      s * s;
    }
  }

  /** Two unit normals of the same offset are equal, so IsUnitNormal pins
      down exactly the vector that `normalize(offset)` computes. */
  lemma {:induction false} UnitNormalUnique(n: Vec2, m: Vec2, offset: Vec2)
    requires IsUnitNormal(n, offset) && IsUnitNormal(m, offset)
    ensures n == m
  {
    var s, t := Dot(offset, n), Dot(offset, m);
    UnitNormalParallel(n, offset);
    UnitNormalParallel(m, offset);
    assert s * s == t * t;
    assert (s - t) * (s + t) == 0.0;
    assert s == t;
    assert Scale(s, n) == Scale(s, m);
    assert n.x == m.x by {
      assert s * (n.x - m.x) == 0.0;
    }
    assert n.y == m.y by {
      assert s * (n.y - m.y) == 0.0;
    }
  }

  /** Velocity with its component along `offset` removed, written without a
      square root: `v - offset * Dot(v, offset) / Dot(offset, offset)`. The
      result is perpendicular to `offset`, and what was removed is parallel
      to `offset`; these two facts determine the result. */
  function RemoveRadial(v: Vec2, offset: Vec2): (r: Vec2)
    requires offset != Zero
    ensures Dot(r, offset) == 0.0
    ensures Cross(offset, Sub(v, r)) == 0.0
  {
    DotSelfPositive(offset);
    var k := Dot(v, offset) / Dot(offset, offset);
    var r := Sub(v, Scale(k, offset));
    calc {
      Dot(r, offset);
      Dot(v, offset) - k * Dot(offset, offset);
      0.0;
    }
    r
  }

  lemma ScaleScale(k: real, s: real, a: Vec2)
    ensures Scale(k, Scale(s, a)) == Scale(k * s, a)
  {
    assert k * (s * a.x) == (k * s) * a.x;
    assert k * (s * a.y) == (k * s) * a.y;
  }

  /** Projecting on `offset` is projecting on its unit normal, scaled by
      the length `Dot(offset, n)`. */
  lemma {:induction false} DotAlongNormal(v: Vec2, n: Vec2, offset: Vec2)
    requires IsUnitNormal(n, offset)
    ensures Dot(v, offset) == Dot(offset, n) * Dot(v, n)
  {
    var s := Dot(offset, n);
    UnitNormalParallel(n, offset);
    calc {
      Dot(v, offset);
      Dot(offset, v);
      Dot(Scale(s, n), v);
      { DotScale(s, n, v); }
      s * Dot(n, v);
      s * Dot(v, n);
    }
  }

  /** `(s * p) / (s * s) * s == p` for `s > 0`. */
  lemma Cancel(s: real, p: real)
    requires s > 0.0
    ensures s * s > 0.0
    ensures (s * p) / (s * s) * s == p
  {
    var k := (s * p) / (s * s);
    assert s * s > 0.0;
    assert k * (s * s) == s * p;
    assert s * (k * s - p) == 0.0 by {
      assert s * (k * s) == k * (s * s);
    }
  }

  /** The coefficient RemoveRadial removes along `offset`, times the
      length of `offset`, is the coefficient along the unit normal. */
  lemma {:induction false} RadialCoefficient(v: Vec2, n: Vec2, offset: Vec2)
    requires IsUnitNormal(n, offset)
    ensures Dot(offset, offset) > 0.0
    ensures Dot(v, offset) / Dot(offset, offset) * Dot(offset, n) == Dot(v, n)
  {
    var s, p := Dot(offset, n), Dot(v, n);
    UnitNormalParallel(n, offset);
    DotAlongNormal(v, n, offset);
    Cancel(s, p);
    assert offset != Zero;
    DotSelfPositive(offset);
    calc {
      Dot(v, offset) / Dot(offset, offset) * s;
      { assert Dot(v, offset) == s * p && Dot(offset, offset) == s * s; }
      (s * p) / (s * s) * s;
      p;
    }
  }

  /** The game removes the radial component through the unit normal,
      `v - n * Dot(v, n)`; with `n` the unit normal of `offset` this is the
      square-root-free RemoveRadial. */
  lemma {:induction false} RemoveRadialByNormal(v: Vec2, n: Vec2, offset: Vec2)
    requires IsUnitNormal(n, offset)
    ensures offset != Zero
    ensures Sub(v, Scale(Dot(v, n), n)) == RemoveRadial(v, offset)
  {
    var s := Dot(offset, n);
    UnitNormalParallel(n, offset);
    RadialCoefficient(v, n, offset);
    var k := Dot(v, offset) / Dot(offset, offset);
    assert offset != Zero by {
      assert Dot(offset, offset) > 0.0;
    }
    calc {
      Scale(k, offset);
      Scale(k, Scale(s, n));
      { ScaleScale(k, s, n); }
      Scale(k * s, n);
      Scale(Dot(v, n), n);
    }
  }
}
