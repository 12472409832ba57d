# Boundary conditions of a Cosserat-rod simulator, in Dafny

This project models the boundary-condition appliers of the PyElastica rod
simulator: `FreeRod`, `OneEndFixedRod` and `HelicalBucklingBC`. Each one has
two entry points, `constrain_values(rod, time)` and
`constrain_rates(rod, time)`. The first writes into the rod's `position`
(3 x n) and `directors` (3 x 3 x n) arrays. The second writes into its
`velocity` and `omega` (3 x n) arrays. Each entry point overwrites column 0
and/or the last column of those arrays in place and leaves every other
column alone. Their behaviour is the one the module
`tests/test_boundary_conditions.py` asserts.

Layout:

- `linalg.dfy` (`Linalg`): 3-vectors and 3 x 3 matrices over exact reals.
- `rotation.dfy` (`Rotations`): Rodrigues' rotation about an axis, and the
  facts the helical condition relies on.
  - A rotation fixes its axis.
  - The opposite angle gives the transpose.
  - For a unit axis and (cos, sin) on the unit circle, the rotation is
    orthonormal.
- `rod.dfy` (`Rods`):
  - the rod as a class holding the four arrays;
  - its contents as a value (`RodState`, one entry per column);
  - the single-column writes `SetColumn` and `SetFrame`, which are numpy's
    `a[..., k] = v`.
- `boundary_conditions.dfy` (`BoundaryConditions`): the three appliers as
  classes whose parameters are copied at construction.
  - Each in-place method is proved to turn the rod's contents into a pure
    function of the old contents: `FixedEndValues`, `FixedEndRates`,
    `TwistingRates`, `ReleasedRates`, `FinalPose`.
  - Those functions carry the column-wise "this column is set, every other
    column is unchanged" contracts.
  - The lemmas beside them relate the helical condition's two phases and its
    imposed pose.
- `test_boundary_conditions.dfy` (`BoundaryConditionTests`): the three
  scenarios of the test module, replayed on the model.
  - The random array contents become arbitrary arguments.
  - Each closeness check becomes an exact equality over the reals.
  - The one exception is the rounded constant 0.169646, which is checked
    against numpy's default relative tolerance of 1e-7.

`HelicalBucklingBC` in detail:

- The axis is the unit vector from the start position to the end position.
- While `time < twistingTime`, `constrain_rates` drives the ends:
  - the start gets velocity `+slack / (2 T)` times the axis and angular
    velocity `+pi n / T` times the axis;
  - the end gets the exact negatives.
- From `twistingTime` on, `constrain_rates` sets velocity and omega to zero at
  both ends.
- From `twistingTime` on, `constrain_values` imposes the pose the drive
  reaches at the end of the twisting phase:
  - the ends move `slack / 2` inward along the axis;
  - the start frame is turned by `theta = pi n` about the axis, and the end
    frame by `-theta`.
- `DriveReachesFinalPositions` proves that holding the drive for `T` takes
  the ends exactly to the imposed positions. `DriveReachesFinalAngle`
  proves that it turns them through `+pi n` and `-pi n` about the axis; the
  imposed frames are built from the given cosine and sine of `theta`.
- `FinalFramesMirror` proves that, from identity frames, the end frame is
  the transpose of the start frame and, for a unit axis and (cos, sin) on
  the unit circle, both frames are orthonormal.
- With a single column, the start write comes first and the end write wins,
  as numpy's `[..., 0]` followed by `[..., -1]` does.

## Model

| member | source | states |
|---|---|---|
| Rods.SetFirst | tests/test_boundary_conditions.py:57-58 | writing column 0 sets that column and leaves every other column and the length unchanged |
| Rods.SetEnds | tests/test_boundary_conditions.py:129-130 | writing column 0 then the last column sets both (the last wins when there is one column) and leaves the interior and the length unchanged |
| Rods.SetColumn | tests/test_boundary_conditions.py:57 | `a[..., k] = v` on a 3 x n array changes exactly column k of the array's contents, to v |
| Rods.SetFrame | tests/test_boundary_conditions.py:58 | `a[..., k] = m` on a 3 x 3 x n array changes exactly slice k of the array's contents, to m |
| Rods.Rod.constructor | tests/test_boundary_conditions.py:15-24 | a rod holds the four arrays it is given, which do not alias one another |
| BoundaryConditions.FreeRod.ConstrainValues | tests/test_boundary_conditions.py:25-27 | position and directors equal their pre-call contents in every column |
| BoundaryConditions.FreeRod.ConstrainRates | tests/test_boundary_conditions.py:37-39 | velocity and omega equal their pre-call contents in every column |
| BoundaryConditions.FixedEndValues | tests/test_boundary_conditions.py:56-60 | column 0 of position and directors becomes the stored start pose; columns 1.. and both rate arrays are unchanged |
| BoundaryConditions.FixedEndRates | tests/test_boundary_conditions.py:70-74 | column 0 of velocity and omega becomes zero; columns 1.. and the pose are unchanged |
| BoundaryConditions.FixedEndIdempotent | tests/test_boundary_conditions.py:56-74 | clamping the start twice, for values or for rates, is clamping it once |
| BoundaryConditions.OneEndFixedRod.constructor | tests/test_boundary_conditions.py:45-47 | the start position and directors are stored as copies |
| BoundaryConditions.OneEndFixedRod.ConstrainValues | tests/test_boundary_conditions.py:56-60 | the rod's new contents are FixedEndValues of its old contents with the stored pose |
| BoundaryConditions.OneEndFixedRod.ConstrainRates | tests/test_boundary_conditions.py:70-74 | the rod's new contents are FixedEndRates of its old contents |
| BoundaryConditions.Axis | tests/test_boundary_conditions.py:129-130 | the axis d satisfies start + length * d == end, so it points from the start to the end |
| BoundaryConditions.AxisIsUnit | tests/test_boundary_conditions.py:129-132 | when length is the distance between the ends, the axis has unit length |
| BoundaryConditions.ShrinkSpeed | tests/test_boundary_conditions.py:129-130 | over the twisting time each end covers half the slack: v * T == slack / 2 |
| BoundaryConditions.SpinSpeed | tests/test_boundary_conditions.py:131-132 | over the twisting time each end turns through pi * n, and the two ends, turning in opposite senses, end up 2 pi n apart |
| BoundaryConditions.DriveReachesFinalPositions | tests/test_boundary_conditions.py:151-152 | moving at the twisting velocities for T takes each end to the imposed position, and the imposed ends are length - slack apart along the axis |
| BoundaryConditions.DriveReachesFinalAngle | tests/test_boundary_conditions.py:131-132 | spinning at the twisting angular velocities for T turns the ends through +pi n and -pi n about the axis |
| BoundaryConditions.FinalFramesMirror | tests/test_boundary_conditions.py:154-160 | from identity frames, the imposed end frame is the transpose of the imposed start frame, and both are orthonormal for a unit axis and (cos, sin) on the unit circle |
| BoundaryConditions.TwistingRates | tests/test_boundary_conditions.py:126-135 | the start gets +v and +w, the end gets -v and -w, interior columns and the pose are unchanged |
| BoundaryConditions.ReleasedRates | tests/test_boundary_conditions.py:138-145 | velocity and omega are zero at both ends; interior columns and the pose are unchanged |
| BoundaryConditions.FinalPose | tests/test_boundary_conditions.py:149-163 | position and directors take the imposed values at both ends; interior columns and the rates are unchanged |
| BoundaryConditions.ReleaseOverridesTwist | tests/test_boundary_conditions.py:138-145 | releasing after twisting gives the same state as releasing directly |
| BoundaryConditions.HelicalIdempotent | tests/test_boundary_conditions.py:126-163 | applying the twisting rates, the released rates or the imposed pose twice is the same as applying it once |
| BoundaryConditions.ValuesAndRatesCommute | tests/test_boundary_conditions.py:128-149 | constraining values and constraining rates touch disjoint arrays, so their order does not matter |
| BoundaryConditions.HelicalBucklingBC.constructor | tests/test_boundary_conditions.py:110-122 | the drive velocities and the imposed pose are derived once from copies of the end columns, not views into the rod |
| BoundaryConditions.HelicalBucklingBC.ConstrainRates | tests/test_boundary_conditions.py:124-145 | before the twisting time the new contents are TwistingRates of the old; from it on they are ReleasedRates |
| BoundaryConditions.HelicalBucklingBC.ConstrainValues | tests/test_boundary_conditions.py:147-163 | from the twisting time on, the new contents are FinalPose of the old with the stored end positions and frames; at every time the interior columns and the rates are unchanged |
| Rotations.RotationOppositeIsTranspose | tests/test_boundary_conditions.py:154-160 | the rotation by -theta is the transpose of the rotation by theta |
| Rotations.RotationFixesAxis | tests/test_boundary_conditions.py:155-160 | a rotation maps its own axis to itself, so the imposed frames turn about the rod axis only |
| Rotations.RotationIsOrthonormal | tests/test_boundary_conditions.py:154-160 | for a unit axis and cos^2 + sin^2 == 1, R * R^T == I |
| BoundaryConditionTests.TestFreeRod | tests/test_boundary_conditions.py:14-39 | all four arrays are unchanged after both calls |
| BoundaryConditionTests.TestOneEndFixedRod | tests/test_boundary_conditions.py:42-74 | exactly column 0 of each array changes: to the start pose, or to zero |
| BoundaryConditionTests.SetUpHelicalRod | tests/test_boundary_conditions.py:89-100 | the scenario's end positions and identity end frames are written into arbitrary arrays; the interior is unchanged |
| BoundaryConditionTests.HelicalScenarioAxis | tests/test_boundary_conditions.py:82-84 | from (0,0,0) to (100,0,0) the axis is x |
| BoundaryConditionTests.HelicalScenarioSpeeds | tests/test_boundary_conditions.py:129-131 | the speed is 0.003; the angular speed is 27 pi / 500, within relative 1e-7 of 0.169646 |
| BoundaryConditionTests.HelicalScenarioPositions | tests/test_boundary_conditions.py:151-152 | the imposed ends are (1.5,0,0) and (98.5,0,0) |
| BoundaryConditionTests.HelicalScenarioFrames | tests/test_boundary_conditions.py:154-160 | with cos = -1 and sin = 6.85926004e-15, the imposed frames are exactly the two matrices the scenario expects |
| BoundaryConditionTests.NewScenarioBC | tests/test_boundary_conditions.py:110-122 | the helical condition built from the rod's end columns holds exactly those constants |
| BoundaryConditionTests.TestHelicalBucklingBC | tests/test_boundary_conditions.py:124-163 | after twisting at 499, releasing at 501 and imposing the pose: the end columns hold the expected values and the interior columns are unchanged |

## Left out

- Floating point. Everything is exact real arithmetic. Rounding in the rates and frames is not modelled.
- Library calls. `np.linalg.norm` of the end separation, and the cosine and sine of `theta = pi * n`, become the constructor parameters `length`, `cosTheta` and `sinTheta`.
  - `length` is required to be positive and to square to the squared distance between the ends.
- BoundaryConditions.HelicalBucklingBC.constructor: it does not require `cosTheta^2 + sinTheta^2 == 1`. The double-precision values the scenario passes do not satisfy it exactly. Orthonormality of the imposed frames is proved only under that condition (`FinalFramesMirror`).
- BoundaryConditions.DriveReachesFinalAngle: the imposed frames are built from the caller's `cosTheta` and `sinTheta`; without trigonometry the model does not tie them to the angle `pi n` the drive reaches.
- BoundaryConditions.FinalFramesMirror: orthonormality is proved for identity initial frames, the scenario's case, not for arbitrary orthonormal frames.
- Closeness checks. The model states exact equality in place of `assert_allclose` with `Tolerance.atol()`. The one exception is the rounded constant 0.169646.
- Test scaffolding is not modelled:
  - the random array contents (`np.random.rand`);
  - the `TestRod` helper class;
  - the pytest `main` entry point.
  - `TestRod` becomes the four arrays of `Rods.Rod`.
- BoundaryConditions.HelicalBucklingBC.ConstrainRates: at exactly `time == twistingTime` the ends are released.
  - The scenarios only probe `T - 1` and `T + 1`, so this boundary is a convention of the model.
- BoundaryConditions.HelicalBucklingBC.ConstrainValues: before the twisting time it promises nothing about the end columns of position and directors (the model leaves them as they are).
  - The scenarios only call it after the twisting time (at `T + 1`). From `T` on it imposes the post-twist pose, the same released-phase boundary `ConstrainRates` uses.
- Speeds. An alternative formulation, with angular speed `2 pi n / T`, speed `slack / T` and a sine ramp tapering the rates, does not fit the test's numbers.
  - The test's numbers (0.003 and 0.169646 at `t = T - 1`) fit `slack / (2 T)` and `pi n / T` per end, with no taper.
  - The model uses the test's values. The two ends together still close `slack` and turn `2 pi n` apart, as `ShrinkSpeed` and `SpinSpeed` state.
- The rotation's sign convention is Rodrigues' right-handed one: +theta for the start frame and -theta for the end frame. With the scenario's sine it reproduces the expected matrices exactly.
- The implementation file `elastica/boundary_conditions.py` is not part of this model.
  - The appliers are modelled from the behaviour the test module asserts.
  - So anything in that file that the test does not exercise is not captured.
- The time stepper and the force and torque computation that call these appliers are not part of this model.
