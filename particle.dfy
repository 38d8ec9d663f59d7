/**
 * A particle: a point mass with a position, a velocity, a constant
 * acceleration (gravity, say), a damping factor and an inverse mass, moved
 * forward in time by one Newton-Euler step at a time.
 */
module Particles {
  import opened Core

  /** The particle's whole state as a value. */
  datatype ParticleState = ParticleState(
    position: Vec,
    velocity: Vec,
    acceleration: Vec,
    damping: real,
    inverseMass: real)

  /** An inverse mass of zero (or below) stands for infinite mass: the
      particle cannot be moved. */
  predicate Fixed(s: ParticleState)
  {
    s.inverseMass <= 0.0
  }

  /**
   * One integration step of `duration` time units. A fixed particle stays as
   * it is whatever the duration; a movable one needs a positive duration,
   * moves by its pre-step velocity times the duration, gains acceleration
   * times the duration in velocity, and then has its velocity multiplied by
   * damping to the power of the duration. `pow` is the math library's power
   * function.
   */
  function Step(s: ParticleState, duration: real, pow: (real, real) -> real): (r: ParticleState)
    requires !Fixed(s) ==> duration > 0.0
    ensures r.acceleration == s.acceleration
    ensures r.damping == s.damping && r.inverseMass == s.inverseMass
    ensures Fixed(s) ==> r == s
  {
    if Fixed(s) then s
    else
      s.(position := s.position.Plus(s.velocity.Scaled(duration)),
         velocity := s.velocity.Plus(s.acceleration.Scaled(duration)).Scaled(pow(s.damping, duration)))
  }

  /** Semi-implicit ordering: the displacement of a movable particle is its
      velocity before the step times the duration, whatever the acceleration
      and damping; the velocity change before damping is the acceleration
      times the duration. */
  lemma StepDisplacement(s: ParticleState, duration: real, pow: (real, real) -> real)
    requires !Fixed(s) && duration > 0.0
    ensures Step(s, duration, pow).position.Minus(s.position) == s.velocity.Scaled(duration)
    ensures pow(s.damping, duration) == 1.0 ==>
              Step(s, duration, pow).velocity.Minus(s.velocity) == s.acceleration.Scaled(duration)
  {
    var r := Step(s, duration, pow);
    PlusMinusRoundTrip(s.velocity.Scaled(duration), s.position);
    assert r.position == s.velocity.Scaled(duration).Plus(s.position);
    if pow(s.damping, duration) == 1.0 {
      var w := s.velocity.Plus(s.acceleration.Scaled(duration));
      ScaledByOne(w);
      PlusMinusRoundTrip(s.acceleration.Scaled(duration), s.velocity);
      assert r.velocity == s.acceleration.Scaled(duration).Plus(s.velocity);
    }
  }

  lemma ScaledByOne(v: Vec)
    ensures v.Scaled(1.0) == v
  {
  }

  /** Without acceleration and with no damping, two steps of t1 and t2 end
      where one step of t1 + t2 does: the particle moves in a straight line
      at constant velocity. */
  lemma {:induction false} FreeMotionComposes(s: ParticleState, t1: real, t2: real, pow: (real, real) -> real)
    requires !Fixed(s) && t1 > 0.0 && t2 > 0.0
    requires s.acceleration == Zero()
    requires pow(s.damping, t1) == 1.0 && pow(s.damping, t2) == 1.0
    requires pow(s.damping, t1 + t2) == 1.0
    ensures Step(Step(s, t1, pow), t2, pow) == Step(s, t1 + t2, pow)
  {
    var p, v := s.position, s.velocity;
    var z1, z2, z12 := Zero().Scaled(t1), Zero().Scaled(t2), Zero().Scaled(t1 + t2);
    ZeroScaled(t1);
    ZeroScaled(t2);
    ZeroScaled(t1 + t2);
    PlusZero(v);
    ScaledByOne(v);
    assert Step(s, t1, pow).velocity == v;
    assert Step(s, t1 + t2, pow).velocity == v;
    TwoMoves(p.x, v.x, t1, t2);
    TwoMoves(p.y, v.y, t1, t2);
    TwoMoves(p.z, v.z, t1, t2);
  }

  lemma ZeroScaled(t: real)
    ensures Zero().Scaled(t) == Zero()
  {
    var z := Zero();
    assert z.x == 0.0 && z.y == 0.0 && z.z == 0.0;
    TimesZero(t, z.x);
  }

  lemma PlusZero(v: Vec)
    ensures v.Plus(Zero()) == v
  {
  }

  lemma TwoMoves(p: real, v: real, t1: real, t2: real)
    ensures (p + v * t1) + v * t2 == p + v * (t1 + t2)
  {
  }

  /** With no acceleration, a damping power between 0 and 1 never makes the
      particle faster: damping only removes energy. */
  lemma DampingNeverSpeedsUp(s: ParticleState, duration: real, pow: (real, real) -> real)
    requires !Fixed(s) && duration > 0.0
    requires s.acceleration == Zero()
    requires 0.0 <= pow(s.damping, duration) <= 1.0
    ensures Step(s, duration, pow).velocity.SquareMagnitude() <= s.velocity.SquareMagnitude()
  {
    var k := pow(s.damping, duration);
    ZeroScaled(duration);
    PlusZero(s.velocity);
    var v := s.velocity;
    assert Step(s, duration, pow).velocity == v.Scaled(k);
    ScaledShrinks(v, k);
  }

  lemma ScaledShrinks(v: Vec, k: real)
    requires 0.0 <= k <= 1.0
    ensures v.Scaled(k).SquareMagnitude() <= v.SquareMagnitude()
  {
    ShrinkSquares(v.x, v.y, v.z, k);
  }

  lemma ShrinkSquares(x: real, y: real, z: real, k: real)
    requires 0.0 <= k <= 1.0
    ensures (x * k) * (x * k) + (y * k) * (y * k) + (z * k) * (z * k) <= x * x + y * y + z * z
  {
    ShrinkSquare(x, k);
    ShrinkSquare(y, k);
    ShrinkSquare(z, k);
    SumAtMost((x * k) * (x * k), (y * k) * (y * k), (z * k) * (z * k), x * x, y * y, z * z);
  }

  lemma SumAtMost(a: real, b: real, c: real, d: real, e: real, f: real)
    requires a <= d && b <= e && c <= f
    ensures a + b + c <= d + e + f
  {
  }

  lemma ShrinkSquare(x: real, k: real)
    requires 0.0 <= k <= 1.0
    ensures (x * k) * (x * k) <= x * x
  {
    assert (x * k) * (x * k) == (k * k) * (x * x);
    SquaresNonNegative(x, 0.0, 0.0);
    assert k * k <= 1.0 * k;
    assert (k * k) * (x * x) <= 1.0 * (x * x);
  }

  /** `n` steps of the same duration. */
  function Steps(s: ParticleState, n: nat, duration: real, pow: (real, real) -> real): (r: ParticleState)
    requires !Fixed(s) ==> duration > 0.0
    ensures r.acceleration == s.acceleration
    ensures r.damping == s.damping && r.inverseMass == s.inverseMass
  {
    if n == 0 then s else Step(Steps(s, n - 1, duration, pow), duration, pow)
  }

  /** Under a constant acceleration and no damping, after n steps of length
      d the velocity has grown by the acceleration times the elapsed time
      n*d, as in exact uniformly accelerated motion. */
  lemma {:induction false} UniformAcceleration(s: ParticleState, n: nat, d: real, pow: (real, real) -> real)
    requires !Fixed(s) && d > 0.0
    requires pow(s.damping, d) == 1.0
    ensures Steps(s, n, d, pow).velocity == s.velocity.Plus(s.acceleration.Scaled(n as real * d))
  {
    var v, a := s.velocity, s.acceleration;
    if n == 0 {
      NoElapsedTime(v, a, n, d);
    } else {
      var m: nat := n - 1;
      UniformAcceleration(s, m, d, pow);
      StepsVelocity(s, m, n, d, pow);
      VelocityStep(Steps(s, m, d, pow), Steps(s, n, d, pow), v, a, d, m, n);
    }
  }

  /** Step n of an undamped run adds acceleration times d to the velocity
      after step n - 1. */
  lemma StepsVelocity(s: ParticleState, m: nat, n: nat, d: real, pow: (real, real) -> real)
    requires !Fixed(s) && d > 0.0 && n == m + 1
    requires pow(s.damping, d) == 1.0
    ensures Steps(s, n, d, pow).velocity
         == Steps(s, m, d, pow).velocity.Plus(s.acceleration.Scaled(d))
  {
    ScaledByOne(Steps(s, m, d, pow).velocity.Plus(s.acceleration.Scaled(d)));
  }

  lemma NoElapsedTime(v: Vec, a: Vec, n: nat, d: real)
    requires n == 0
    ensures v.Plus(a.Scaled(n as real * d)) == v
  {
    assert n as real * d == 0.0;
  }

  /** The induction step of `UniformAcceleration`, on the closed forms. */
  lemma VelocityStep(prev: ParticleState, next: ParticleState, v: Vec, a: Vec, d: real, m: nat, n: nat)
    requires n == m + 1
    requires prev.velocity == v.Plus(a.Scaled(m as real * d))
    requires next.velocity == prev.velocity.Plus(a.Scaled(d))
    ensures next.velocity == v.Plus(a.Scaled(n as real * d))
  {
    Gain(v.x, a.x, d, m, n);
    Gain(v.y, a.y, d, m, n);
    Gain(v.z, a.z, d, m, n);
  }

  lemma Gain(v: real, a: real, d: real, m: nat, n: nat)
    requires n == m + 1
    ensures (v + a * (m as real * d)) + a * d == v + a * (n as real * d)
  {
    assert n as real * d == m as real * d + d;
  }

  /** 0 + 1 + ... + (n-1), in Gauss's closed form: how many step-lengths
      of acceleration the position has accumulated after n steps. */
  function Triangle(n: nat): real
  {
    n as real * (n as real - 1.0) / 2.0
  }

  /** Each further step adds the previous step count to the triangle
      number, so `Triangle(n)` is the sum 0 + 1 + ... + (n-1). */
  lemma TriangleStep(m: nat, n: nat)
    requires n == m + 1
    ensures Triangle(n) == Triangle(m) + m as real
  {
    var j := m as real;
    assert n as real == j + 1.0;
    assert (j + 1.0) * j == j * (j - 1.0) + 2.0 * j;
  }

  /** Under a constant acceleration and no damping, after n steps of length
      d the position is p + v*(n*d) + a*(d*d*(0 + 1 + ... + (n-1))): each
      step moves by the velocity from before its own acceleration, so the
      position lags the exact p + v*t + a*t*t/2 by a*d*d*n/2. */
  lemma {:induction false} UniformAccelerationPosition(s: ParticleState, n: nat, d: real, pow: (real, real) -> real)
    requires !Fixed(s) && d > 0.0
    requires pow(s.damping, d) == 1.0
    ensures Steps(s, n, d, pow).position
         == s.position.Plus(s.velocity.Scaled(n as real * d))
                      .Plus(s.acceleration.Scaled(d * d * Triangle(n)))
  {
    var p, v, a := s.position, s.velocity, s.acceleration;
    if n == 0 {
      NoElapsedTimePosition(p, v, a, n, d);
    } else {
      var m: nat := n - 1;
      UniformAccelerationPosition(s, m, d, pow);
      UniformAcceleration(s, m, d, pow);
      StepsPosition(s, m, n, d, pow);
      ClosedFormStep(Steps(s, m, d, pow), Steps(s, n, d, pow), p, v, a, d, m, n);
    }
  }

  /** Step n of a run moves the particle by the velocity after step n - 1. */
  lemma StepsPosition(s: ParticleState, m: nat, n: nat, d: real, pow: (real, real) -> real)
    requires !Fixed(s) && d > 0.0 && n == m + 1
    ensures Steps(s, n, d, pow).position
         == Steps(s, m, d, pow).position.Plus(Steps(s, m, d, pow).velocity.Scaled(d))
  {
  }

  /** The induction step of `UniformAccelerationPosition`, on the closed
      forms. */
  lemma ClosedFormStep(prev: ParticleState, next: ParticleState, p: Vec, v: Vec, a: Vec, d: real, m: nat, n: nat)
    requires n == m + 1
    requires prev.position == p.Plus(v.Scaled(m as real * d)).Plus(a.Scaled(d * d * Triangle(m)))
    requires prev.velocity == v.Plus(a.Scaled(m as real * d))
    requires next.position == prev.position.Plus(prev.velocity.Scaled(d))
    ensures next.position == p.Plus(v.Scaled(n as real * d)).Plus(a.Scaled(d * d * Triangle(n)))
  {
    ClosedFormAlgebra(p, v, a, d, m, n);
  }

  /** One more step of length d, starting from the closed form for m steps,
      lands on the closed form for n = m + 1 steps. */
  lemma ClosedFormAlgebra(p: Vec, v: Vec, a: Vec, d: real, m: nat, n: nat)
    requires n == m + 1
    ensures p.Plus(v.Scaled(m as real * d)).Plus(a.Scaled(d * d * Triangle(m))).Plus(v.Plus(a.Scaled(m as real * d)).Scaled(d))
         == p.Plus(v.Scaled(n as real * d)).Plus(a.Scaled(d * d * Triangle(n)))
  {
    ClosedFormAlgebraX(p, v, a, d, m, n);
    ClosedFormAlgebraY(p, v, a, d, m, n);
    ClosedFormAlgebraZ(p, v, a, d, m, n);
  }

  // The x, y and z components of `ClosedFormAlgebra`, one lemma each so that each
  // nonlinear proof obligation stays small.
  lemma ClosedFormAlgebraX(p: Vec, v: Vec, a: Vec, d: real, m: nat, n: nat)
    requires n == m + 1
    ensures p.Plus(v.Scaled(m as real * d)).Plus(a.Scaled(d * d * Triangle(m))).Plus(v.Plus(a.Scaled(m as real * d)).Scaled(d)).x
         == p.Plus(v.Scaled(n as real * d)).Plus(a.Scaled(d * d * Triangle(n))).x
  {
    Move(p.x, v.x, a.x, d, m, n);
  }

  lemma ClosedFormAlgebraY(p: Vec, v: Vec, a: Vec, d: real, m: nat, n: nat)
    requires n == m + 1
    ensures p.Plus(v.Scaled(m as real * d)).Plus(a.Scaled(d * d * Triangle(m))).Plus(v.Plus(a.Scaled(m as real * d)).Scaled(d)).y
         == p.Plus(v.Scaled(n as real * d)).Plus(a.Scaled(d * d * Triangle(n))).y
  {
    Move(p.y, v.y, a.y, d, m, n);
  }

  lemma ClosedFormAlgebraZ(p: Vec, v: Vec, a: Vec, d: real, m: nat, n: nat)
    requires n == m + 1
    ensures p.Plus(v.Scaled(m as real * d)).Plus(a.Scaled(d * d * Triangle(m))).Plus(v.Plus(a.Scaled(m as real * d)).Scaled(d)).z
         == p.Plus(v.Scaled(n as real * d)).Plus(a.Scaled(d * d * Triangle(n))).z
  {
    Move(p.z, v.z, a.z, d, m, n);
  }

  /** One component of `ClosedFormAlgebra`. */
  lemma Move(p: real, v: real, a: real, d: real, m: nat, n: nat)
    requires n == m + 1
    ensures (p + v * (m as real * d) + a * (d * d * Triangle(m))) + (v + a * (m as real * d)) * d
         == p + v * (n as real * d) + a * (d * d * Triangle(n))
  {
    TriangleStep(m, n);
    var t1, t2 := Triangle(m), Triangle(n);
    MoveScalar(p, v, a, d, m as real, n as real, t1, t2);
  }

  lemma MoveScalar(p: real, v: real, a: real, d: real, j: real, k: real, t1: real, t2: real)
    requires k == j + 1.0 && t2 == t1 + j
    ensures (p + v * (j * d) + a * (d * d * t1)) + (v + a * (j * d)) * d
         == p + v * (k * d) + a * (d * d * t2)
  {
    assert j * d + d == k * d;
    assert d * d * t1 + (j * d) * d == d * d * t2;
  }

  lemma NoElapsedTimePosition(p: Vec, v: Vec, a: Vec, n: nat, d: real)
    requires n == 0
    ensures p.Plus(v.Scaled(n as real * d)).Plus(a.Scaled(d * d * Triangle(n))) == p
  {
    assert n as real * d == 0.0 && d * d * Triangle(n) == 0.0;
  }

  // ---- The particle object, whose vectors are updated in place -----------

  class Particle {
    const position: Vector3
    const velocity: Vector3
    const acceleration: Vector3
    var damping: real
    var inverseMass: real

    /** The three vectors are separate objects, as members held by value
        are. */
    ghost predicate Valid()
      reads this
    {
      position != velocity && velocity != acceleration && position != acceleration
    }

    /** The particle's current state. */
    function State(): ParticleState
      reads this, position, velocity, acceleration
    {
      ParticleState(position.Value(), velocity.Value(), acceleration.Value(), damping, inverseMass)
    }

    /** A particle in the given state. */
    constructor (s: ParticleState)
      ensures Valid() && State() == s
      ensures fresh(position) && fresh(velocity) && fresh(acceleration)
    {
      position := new Vector3.Make(s.position.x, s.position.y, s.position.z);
      velocity := new Vector3.Make(s.velocity.x, s.velocity.y, s.velocity.z);
      acceleration := new Vector3.Make(s.acceleration.x, s.acceleration.y, s.acceleration.z);
      damping := s.damping;
      inverseMass := s.inverseMass;
    }

    /**
     * `integrate(duration)`: returns at once for a fixed particle; otherwise
     * adds velocity*duration to the position, then acceleration*duration to
     * the velocity, then multiplies the velocity by
     * pow(damping, duration). Only the position and velocity vectors change.
     */
    method Integrate(duration: real, pow: (real, real) -> real)
      requires Valid()
      requires inverseMass > 0.0 ==> duration > 0.0
      modifies position, velocity
      ensures Valid()
      ensures State() == Step(old(State()), duration, pow)
    {
      if inverseMass <= 0.0 {
        return;
      }
      position.AddScaledVector(velocity, duration);
      var resultingAcc := new Vector3.Make(acceleration.x, acceleration.y, acceleration.z);
      velocity.AddScaledVector(resultingAcc, duration);
      velocity.MultiplyBy(pow(damping, duration));
      // The force accumulator would be cleared here; the particle has none.
    }
  }

  /** A particle at rest at the origin under gravity (0,-10,0), integrated
      for one time unit with no damping, keeps its position and gains a
      velocity of (0,-10,0). */
  method GravityExample(pow: (real, real) -> real) returns (position: Vec, velocity: Vec)
    requires pow(1.0, 1.0) == 1.0
    ensures position == Zero()
    ensures velocity == Vec(0.0, -10.0, 0.0)
  {
    var s := ParticleState(Zero(), Zero(), Vec(0.0, -10.0, 0.0), 1.0, 1.0);
    var p := new Particle(s);
    p.Integrate(1.0, pow);
    position, velocity := p.position.Value(), p.velocity.Value();
    assert s.velocity.Scaled(1.0) == Zero();
    assert s.acceleration.Scaled(1.0) == Vec(0.0, -10.0, 0.0);
    assert Step(s, 1.0, pow).velocity == Vec(0.0, -10.0, 0.0).Scaled(1.0);
  }

  /** A fixed particle (inverse mass 0) keeps its whole state, even for a
      duration a movable particle would not accept. */
  method FixedExample(pow: (real, real) -> real) returns (position: Vec, velocity: Vec)
    ensures position == Vec(1.0, 2.0, 3.0)
    ensures velocity == Vec(4.0, 5.0, 6.0)
  {
    var p := new Particle(ParticleState(Vec(1.0, 2.0, 3.0), Vec(4.0, 5.0, 6.0), Zero(), 0.5, 0.0));
    p.Integrate(-1.0, pow);
    position, velocity := p.position.Value(), p.velocity.Value();
  }
}
