# cyclone core: Vector3 algebra and particle integration

This Dafny project models the core of the cyclone physics engine:

- `core.dfy`, module `Core`: the `Vector3` type of `include/cyclone/core.h`.
  - `Vec` is the datatype of a vector's value. It carries the operators that return a new vector or a scalar: `operator*`, `+`, `-`, `componentProduct`, `scalarProduct`, `operator*(Vector3)`, `vectorProduct` and `operator%`. It also carries the `magnitude` and `squareMagnitude` queries.
  - `Vector3` is a class with fields `x`, `y` and `z`. Its methods are the in-place operations: `invert`, `normalize`, `*=`, `+=`, `addScaledVector`, `-=`, `componentProductUpdate` and `makeOrthonormalBasis`. Each method's postcondition names the value operation it agrees with.
  - The function `OrthonormalBasis` describes what `makeOrthonormalBasis` leaves in its three vectors. `OrthonormalBasisCorrect` proves:
    - the basis is degenerate exactly when the inputs are parallel;
    - otherwise it is a right-handed orthonormal basis.
- `particle.dfy`, module `Particles`: the `Particle` of `include/cyclone/particle.h` and its `integrate` step in `src/particle.cpp`.
  - `Step` is one integration step on the particle's state as a value.
  - `Steps` is n steps of equal length.
  - The class `Particle` holds three `Vector3` objects, which it updates in place. `Integrate` is proved to produce exactly `Step`.
  - The lemmas state what the semi-implicit Euler scheme promises:
    - the position moves by the pre-step velocity;
    - a fixed particle never moves;
    - free motion composes;
    - damping never speeds a particle up;
    - the closed forms of velocity and position under constant acceleration hold. Position lags the exact motion by a·d²·n/2.

The value operations are plain functions (`Vec.Scaled`, `Vec.Plus`, `Vec.Minus`, `Vec.ScalarProduct`, `Vec.VectorProduct`, `Vec.Normalized`, `OrthonormalBasis`, `Particles.Fixed`, `Particles.Step`). What they promise is stated by the lemma rows below:

- `Scaled`: `ScaledSquareMagnitude`, `ScaledDot`, `ScaledCross`, `InvertInvolution`.
- `Plus` and `Minus`: `PlusMinusRoundTrip`.
- `ScalarProduct`: `ScalarProductAliases`, `CrossOrthogonal` and `Lagrange`.
- `VectorProduct`: `CrossAntiCommutative`, `CrossOrthogonal`, `Lagrange` and `TripleProduct`.
- `Normalized`: `NormalizedIsUnit`.
- `OrthonormalBasis`: `OrthonormalBasisCorrect`.
- `Fixed` and `Step`: the `Particles` lemmas.

`Triangle` is the closed form n(n−1)/2 used in `UniformAccelerationPosition`.

The engine's `real` is a single-precision float. Here it is Dafny's exact `real`. The square root and power functions of the math library are passed in as function parameters. `IsSqrt(sqrt)` states the only property the model relies on: `sqrt` is non-negative and squares back to its argument on non-negative reals.

## Model

| member | source | states |
|---|---|---|
| Core.Vector3.constructor | include/cyclone/core.h:20 | the default vector is the zero vector |
| Core.Vector3.Make | include/cyclone/core.h:23-24 | the vector holds exactly the given components |
| Core.Vector3.Invert | include/cyclone/core.h:26-31 | every component is negated; the new value is the old one scaled by -1 |
| Core.InvertInvolution | include/cyclone/core.h:26-31 | negating twice gives back the original vector |
| Core.InvertTwice | include/cyclone/core.h:26-31 | calling `invert` twice on a vector leaves its value unchanged |
| Core.Vec.SquareMagnitude | include/cyclone/core.h:40-43 | the squared length is never negative, and it is zero exactly for the zero vector |
| Core.Vec.Magnitude | include/cyclone/core.h:34-37 | the length is never negative, it squares to `squareMagnitude`, and it is zero exactly for the zero vector |
| Core.NormalizedIsUnit | include/cyclone/core.h:47-55 | normalizing leaves the zero vector unchanged; any other vector becomes one of length 1, parallel to the original, whose scalar product with the original is its magnitude |
| Core.Vector3.Normalize | include/cyclone/core.h:47-55 | the in-place normalize leaves the value `Normalized` describes |
| Core.Vector3.MultiplyBy | include/cyclone/core.h:58-63 | `*=` leaves the same vector as `operator*(real)` on the old value |
| Core.ScaledSquareMagnitude | include/cyclone/core.h:66-69 | scaling by k multiplies the squared length by k² |
| Core.ScaledDot | include/cyclone/core.h:66-69 | scaling one operand by k scales the scalar product by k |
| Core.ScaledCross | include/cyclone/core.h:66-69 | scaling either operand by k scales the vector product by k |
| Core.Vector3.Add | include/cyclone/core.h:73-78 | `+=` leaves the same vector as `operator+` on the old values, even when the argument is the vector itself |
| Core.PlusMinusRoundTrip | include/cyclone/core.h:81-84 | adding then subtracting v gives back the original, and so does subtracting then adding; addition commutes |
| Core.Vector3.AddScaledVector | include/cyclone/core.h:88-93 | `addScaledVector` leaves `old + vector * scale` built from the value operators, even when the argument is the vector itself |
| Core.Vector3.Subtract | include/cyclone/core.h:97-102 | `-=` leaves the same vector as `operator-` on the old values |
| Core.Vec.Minus | include/cyclone/core.h:105-108 | adding v back to `this - v` gives `this` |
| Core.Vec.ComponentProduct | include/cyclone/core.h:113-116 | the components of the component product sum to the scalar product |
| Core.ComponentProductCommutes | include/cyclone/core.h:113-116 | the component product is symmetric |
| Core.Vector3.ComponentProductUpdate | include/cyclone/core.h:119-124 | `componentProductUpdate` leaves the same vector as `componentProduct` on the old values |
| Core.Vec.Dot | include/cyclone/core.h:133-137 | `operator*(Vector3)` returns the same scalar as `scalarProduct` |
| Core.ScalarProductAliases | include/cyclone/core.h:128-137 | the two scalar product spellings agree; the scalar product is symmetric; a vector's scalar product with itself is its squared length |
| Core.Vec.Cross | include/cyclone/core.h:152-159 | `operator%` returns the same vector as `vectorProduct` |
| Core.CrossAntiCommutative | include/cyclone/core.h:141-159 | a×b equals `a % b` and −(b×a); a×a is zero |
| Core.CrossOrthogonal | include/cyclone/core.h:141-148 | a×b is perpendicular to both a and b |
| Core.Lagrange | include/cyclone/core.h:141-148 | the squared length of a×b is \|a\|²\|b\|² − (a·b)² |
| Core.TripleProduct | include/cyclone/core.h:141-148 | a×(b×c) = b(a·c) − c(a·b) |
| Core.DegenerateExactlyWhenParallel | include/cyclone/core.h:165-167 | after a is normalized, a×b is zero exactly when the original a×b was zero |
| Core.BasisCompletes | include/cyclone/core.h:168-169 | for a unit a and a non-zero a×b0, normalizing c = a×b0 and setting b = c×a gives a right-handed orthonormal basis |
| Core.OrthonormalBasisCorrect | include/cyclone/core.h:163-170 | `makeOrthonormalBasis` normalizes a. The result is degenerate (c zero) exactly when the inputs a and b are parallel, and then b is left as it was. Otherwise a, b, c are unit vectors, pairwise perpendicular, with a×b = c. |
| Core.Vector3.MakeOrthonormalBasis | include/cyclone/core.h:163-170 | the in-place operation leaves in a, b and c exactly the basis `OrthonormalBasis` describes |
| Core.UnitXNormalized | include/cyclone/core.h:47-55 | normalizing (1,0,0) leaves it as it is |
| Core.ParallelBasisExample | include/cyclone/core.h:163-167 | for a = (1,0,0) and the parallel b = (2,0,0), the basis is degenerate: a stays (1,0,0), b stays (2,0,0) and c is zero |
| Particles.Step | src/particle.cpp:6-29 | one step never changes acceleration, damping or inverse mass, and a fixed particle (inverse mass ≤ 0) is left exactly as it was |
| Particles.StepDisplacement | src/particle.cpp:13-21 | a movable particle moves by its pre-step velocity times the duration; without damping, its velocity changes by acceleration times duration |
| Particles.FreeMotionComposes | src/particle.cpp:13-24 | with no acceleration and no damping, steps of t1 and then t2 end in the same state as one step of t1 + t2 |
| Particles.DampingNeverSpeedsUp | src/particle.cpp:23-24 | with no acceleration and a damping power in [0, 1], the squared speed after a step is at most the squared speed before |
| Particles.Steps | src/particle.cpp:6-29 | any number of steps keeps acceleration, damping and inverse mass |
| Particles.UniformAcceleration | src/particle.cpp:20-21 | under constant acceleration and no damping, after n steps of length d the velocity is v + a·(n·d) |
| Particles.UniformAccelerationPosition | src/particle.cpp:14-21 | under constant acceleration and no damping, after n steps of length d the position is p + v·(n·d) + a·d²·(0 + 1 + … + (n−1)). It lags exact motion because each step moves by the velocity from before the step. |
| Particles.Particle.constructor | include/cyclone/particle.h:12-32 | a particle holds the given position, velocity, acceleration, damping and inverse mass, in three distinct vectors |
| Particles.Particle.Integrate | src/particle.cpp:6-29 | `integrate` returns at once for a fixed particle. Otherwise it leaves exactly the state `Step` describes: the position is updated, then the velocity, then the velocity is damped, all in place. Only the position and velocity vectors change. |
| Particles.GravityExample | src/particle.cpp:6-29 | a particle at rest at the origin, under gravity (0,−10,0) with damping 1, integrated for one time unit keeps its position and gains velocity (0,−10,0) |
| Particles.FixedExample | src/particle.cpp:9 | a particle with inverse mass 0 keeps its position and velocity, even for a negative duration |

## Left out

- Floating point: components are exact reals. Rounding, overflow, NaN and infinities are not modelled. So the degenerate test `squareMagnitude() == 0.0` in `makeOrthonormalBasis` is an exact test here.
- `real_sqrt` and `real_pow`: the math library is outside the model, so both are function parameters. Of `sqrt` the model assumes only `IsSqrt`. Of `pow` it assumes nothing, except where a lemma names the value it needs, such as `pow(damping, d) == 1` for no damping. `real_sqrt` is used by `core.h` but defined in none of its files; it is read as the square root.
- The padding word `pad` of `Vector3`: it takes part in no operation, so it is not a field.
- The comment on `operator%` says it updates the vector. The code returns a new vector and leaves `this` alone, and the model follows the code (`Vec.Cross`).
- In the degenerate case, the comment at `include/cyclone/core.h:167` suggests that the early return could report an error instead. The code returns after setting c to the zero cross product and leaves b as it was. The model follows the code and proves exactly that.
- Core.Vector3.MakeOrthonormalBasis: requires a, b and c to be distinct objects, so calls that alias two of the pointers are not modelled. It is a static method because the C++ member never reads `this`.
- `clearAccumulator()`: the particle has no force accumulator, so the call has no effect. It is not declared in any of the files either.
- `assert(duration > 0.0)` in `integrate` becomes a precondition for a movable particle. A build where the assertion is compiled out, and a non-positive duration then goes unchecked, is not modelled.
- Particles.Particle.constructor: the C++ particle has no constructor. This one only builds particles in a given state for `GravityExample` and `FixedExample`.
- The C++ sources do not compile as written: `operator*(real)` and the `Vector3` class lack their semicolons, and `Particle` is declared outside namespace `cyclone` while naming its `Vector3` and `real` unqualified. The model follows the evident meaning.
