# RigidSim rigid-body solver, modelled in Dafny

RigidSim simulates one rigid body: a solid box. The box is built from its dimensions, its density and its initial velocities. A `RigidSolver` is bound to the body and advances it one time step `dt` at a time with a semi-implicit Euler scheme:

- **Force and torque.** The force is recomputed on every step as the body's weight. On the step whose counter is 1 a fixed impulse is added, applied at the box's first vertex; that step also sets the torque.
- **Linear motion.** The force updates the linear momentum. The velocity is the momentum divided by the mass, and the position moves by the new velocity.
- **Rotation.** The torque updates the angular momentum. The angular velocity is the inverse inertia tensor applied to it.
- **Orientation.** The orientation quaternion is advanced along `(0, omega) * q * 0.5`, renormalized, and turned into a rotation matrix.

The project has five modules:

- **`LinAlg`** (`linalg.dfy`): three-vectors and 3x3 matrices over `real`. It holds the operations the solver uses, and the square-root contract `IsSqrt`.
- **`Polynomials`** (`polynomial.dfy`): polynomial expansion facts used by the quaternion proofs.
- **`Quaternions`** (`quaternion.dfy`): the quaternion value type with its Hamilton product, normalization and conversion to a rotation matrix.
- **`Bodies`** (`body.dfy`): the body as a class whose fields the solver updates in place. `BodyAttributes` is its default constructor and `Box` its named constructor.
- **`Solver`** (`solver.dfy`): the `RigidSolver` class and the specification functions of one step. These are `Force`, `Torque` and `OrientationUpdate`.

What is proved:

- **Quaternions.**
  - The default quaternion is a two-sided identity of the product.
  - The product is multiplicative in the squared norm.
  - A normalized quaternion has unit norm.
  - The rotation matrix of the identity is `I`, and that of a unit quaternion is orthonormal.
- **The box.**
  - The constructor's mass, inertia tensor and its inverse are correct.
  - The box starts with zero momenta.
  - Its eight corners are pairwise distinct, centred, and at plus or minus half of each dimension.
- **One step.**
  - Every field update is stated.
  - The quaternion that the step normalizes is never zero, so the new orientation is a unit quaternion and the new rotation matrix is orthonormal.
  - `V * M == P` after every step.
  - A body that does not spin keeps its orientation.
  - Mass, inertia and vertices are unchanged.
  - The step counter goes up by one and the time by `dt`.
- **The force schedule.** Over `n` steps the weight acts `n` times and the impulse exactly once. The impulse's torque is perpendicular to it.

## Model

| member | source | states |
|---|---|---|
| LinAlg.Cross | RigidSim/src/RigidSolver.hpp:178-182 | the torque's component formula is the cross product, which is perpendicular to both of its arguments |
| LinAlg.Invert | RigidSim/src/RigidSolver.hpp:108 | the inverse of a diagonal matrix with non-zero diagonal is diagonal and a two-sided inverse: both products are the identity |
| LinAlg.DivThenScale | RigidSim/src/RigidSolver.hpp:145 | dividing the momentum by a non-zero mass and multiplying back gives the momentum again |
| Quaternions.DefaultIsNeutral | RigidSim/src/RigidSolver.hpp:26-36 | the default quaternion is (1, 0, 0, 0) and is a left and right identity of the Hamilton product |
| Quaternions.DefaultIsUnit | RigidSim/src/RigidSolver.hpp:26-27 | the default quaternion has squared norm 1 |
| Quaternions.ScalarProductIsScaling | RigidSim/src/RigidSolver.hpp:154 | multiplying by a scalar converted to the quaternion (s, 0, 0, 0), on either side, scales every component by s |
| Quaternions.Pure | RigidSim/src/RigidSolver.hpp:153 | the quaternion (0, omega) has zero scalar part and squared norm equal to omega dotted with itself |
| Quaternions.MulNormSq | RigidSim/src/RigidSolver.hpp:29-36 | the squared norm of a Hamilton product is the product of the squared norms |
| Quaternions.PureProductOrthogonal | RigidSim/src/RigidSolver.hpp:29-36 | a product (0, v) * q is orthogonal to q in four dimensions |
| Quaternions.OrthogonalSumNormSq | RigidSim/src/RigidSolver.hpp:155-160 | adding t times a quaternion orthogonal to q adds t^2 times its squared norm to the squared norm of q |
| Quaternions.Normalized | RigidSim/src/RigidSolver.hpp:38-41 | for a non-zero quaternion and any square root, the result has squared norm 1 and scaled back by the magnitude gives the input |
| Quaternions.NormalizedOfUnit | RigidSim/src/RigidSolver.hpp:38-41 | normalizing a unit quaternion leaves it unchanged |
| Quaternions.DefaultToMatrix | RigidSim/src/RigidSolver.hpp:43-53 | the rotation matrix of the default quaternion is the identity |
| Quaternions.UnitToMatrixOrthonormal | RigidSim/src/RigidSolver.hpp:43-53 | the rotation matrix M of a unit quaternion satisfies M Mt = I |
| Bodies.Body.constructor | RigidSim/src/RigidSolver.hpp:57-59 | a new body rests at the origin with zero momenta, velocities, force and torque, the identity rotation and the unit identity orientation |
| Bodies.Body.Box | RigidSim/src/RigidSolver.hpp:92-121 | mass is density times volume; I0 is the diagonal box inertia tensor; I0inv is its inverse and Iinv equals I0inv; V and omega are the initial velocities while P and L stay zero; the vertices are the eight corners in source order |
| Bodies.NonDegenerateBox | RigidSim/src/RigidSolver.hpp:102-108 | a box whose inertia tensor is invertible has non-zero mass, dimensions and density, and its inertia tensor is diagonal |
| Bodies.CornerCoordinates | RigidSim/src/RigidSolver.hpp:112-120 | every coordinate of every vertex is plus or minus half of the box's extent on that axis |
| Bodies.CornersDistinct | RigidSim/src/RigidSolver.hpp:112-120 | for non-zero dimensions the eight vertices are pairwise distinct |
| Bodies.CornersCentred | RigidSim/src/RigidSolver.hpp:112-120 | the eight vertices sum to zero: the box is centred on the body origin |
| Solver.ImpulseTorquePerpendicular | RigidSim/src/RigidSolver.hpp:174-182 | the torque set on the impulse step is perpendicular to the impulse |
| Solver.TotalForceClosedForm | RigidSim/src/RigidSolver.hpp:171-176 | summed over the first n steps, the force is n times the weight plus the impulse exactly once (from the second step on) |
| Solver.OrientationUpdate | RigidSim/src/RigidSolver.hpp:153-160 | for a non-zero orientation, the advanced and renormalized orientation is a unit quaternion |
| Solver.SpinOrthogonal | RigidSim/src/RigidSolver.hpp:153-154 | dq = (0, omega) * q * 0.5 is orthogonal to q, with squared norm a quarter of the product of the squared norms of omega and q |
| Solver.AdvanceNormSq | RigidSim/src/RigidSolver.hpp:155-159 | the squared norm of the advanced orientation is that of q plus dt^2 times that of dq |
| Solver.AdvanceNonZero | RigidSim/src/RigidSolver.hpp:155-160 | the quaternion the step normalizes is at least as long as the old orientation, so never zero |
| Solver.NoSpinKeepsOrientation | RigidSim/src/RigidSolver.hpp:153-160 | with zero angular velocity a unit orientation is left unchanged by the update |
| Solver.UpdatedRotationOrthonormal | RigidSim/src/RigidSolver.hpp:153-162 | the rotation matrix recomputed after the update is orthonormal |
| Solver.RigidSolver.constructor | RigidSim/src/RigidSolver.hpp:128-130 | the solver is bound to the given body (none by default), keeps the given gravity (0, -0.98, 0 by default), and starts at step 0 and time 0 |
| Solver.RigidSolver.Init | RigidSim/src/RigidSolver.hpp:132-136 | rebinds the body and resets the step counter and the time to 0 |
| Solver.RigidSolver.ComputeForceAndTorque | RigidSim/src/RigidSolver.hpp:171-185 | the force is the weight, plus the impulse when the counter is 1; the torque becomes the impulse's moment at vertex 0 on that step and is kept otherwise; nothing else changes |
| Solver.RigidSolver.Step | RigidSim/src/RigidSolver.hpp:138-166 | the new force and torque follow the schedule; P, V, X, L and omega follow the update equations; V * M == P; the orientation is the unit-norm update and R its orthonormal matrix; M, inertia and vertices are unchanged; the counter goes up by 1 and the time by dt |

## Left out

- The trace output at the start of each step (`RigidSim/src/RigidSolver.hpp:139`) is I/O and is not modelled.
- `BodyAttributes::worldMat` (`RigidSim/src/RigidSolver.hpp:61-67`) is not part of this model: the solver never calls it.
- The vector and matrix library that provides `Vec3f` and `Mat3f` is not part of this model. `LinAlg` models the operations the solver uses. Matrix inversion is modelled only for diagonal matrices with non-zero diagonal, the only case the box produces.
- `tReal` floating point is modelled as exact `real`. Rounding, overflow and NaN are not captured, so `M Mt = I` and unit norm hold exactly in the model but only approximately in the program.
- `std::sqrt` is not modelled. The step takes a `sqrt` parameter and relies only on `IsSqrt`: a positive result whose square is its positive argument.
- The step counter `tIndex` is an unbounded `nat`; its wrap-around is not modelled.
- `Box::width`, `height` and `depth` (`RigidSim/src/RigidSolver.hpp:123`) are stored by the program but never read, so the model does not keep them.
- Bodies.Body.constructor: the default constructor leaves `M`, `I0`, `I0inv` and `Iinv` uninitialised, and the model says nothing about them. The solver's `Step` therefore requires a non-zero mass, which the program assumes silently.
- Bodies.Body.Box: the model requires that the three principal moments of inertia be non-zero, which is what `invert` needs. The converse is not proved: that non-zero dimensions and density imply non-zero moments is a nonlinear inequality.
- Solver.RigidSolver.Step: it requires a bound body, a non-zero mass and a non-zero orientation quaternion. On the step whose counter is 1 it also requires at least one vertex. The program dereferences and divides without checking these.
- Only `M Mt = I` is proved for the rotation matrix; `Mt M = I` and `det M = 1` are not.
- Inheritance of `Box` from `BodyAttributes` is modelled as a named constructor `Box` of the one class `Body`.
