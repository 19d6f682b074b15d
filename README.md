# Fuzzy car controller

A model of the control core of a small fuzzy-logic car simulation (`game.py`).
Each tick the car casts three rays (left, center, right) against the walls of a
rectangular arena, grades each distance against three fuzzy sets — near, medium
and far — and combines the nine degrees by a fixed weighted sum into a turn
value and an acceleration value, each clamped to [-1, 1].

The project has three modules:

- `Fuzzy` (fuzzy.dfy): the shoulder membership functions `S(low, high)` (falling)
  and `R(low, high)` (rising) of the fuzzy-logic library the program uses,
  written out as piecewise-linear functions over `real`, with their range,
  monotonicity, Lipschitz continuity and the fact that `R` is the complement of `S`.
- `Controller` (controller.dfy): the fuzzy sets `near = S(0, 50)`,
  `medium = S(40, 180)`, `far = R(100, 200)`, the clamp `max(-1, min(1, x))` and
  `calculate_control`. Its lemmas give the shape of each set, what each output
  depends on, the exact range [-0.2, 1] of the raw acceleration (so its clamp
  never acts), tight lower and upper bounds -57/70 and 303/140 on the raw turn
  (so only its upper clamp ever acts) and the boundary scenarios.
- `Arena` (arena.dfy): the unit-step ray search `get_distance_to_wall`, as a
  method with a loop, proved against a recursive reference `FirstHit`; and the
  construction of the border wall set as a method with two loops.

Python's 11-tuple result is the datatype `Control`: the clamped turn and
acceleration followed by the `Grades` (near, medium, far) of the left, center
and right distances, in that order. All arithmetic is exact over `real`.

`S(40, 180)` is saturated at 1 below 40, so when all three distances are 0,
medium is 1, the raw turn is 1.2 (clamped to 1) and the acceleration is
-1 + 0.8 = -0.2 (`Controller.AllZero`).

## Model

| member | source | states |
|---|---|---|
| `Fuzzy.FallingShoulderDegree` | game.py:43-44 | for every `low < high`, `S(low, high)` gives 1 at or below `low`, (high - x)/(high - low) strictly between, and 0 at or above `high` |
| `Fuzzy.RisingShoulderDegree` | game.py:45 | for every `low < high`, `R(low, high)` gives 0 below `low`, (x - low)/(high - low) from `low` to `high`, and 1 above `high` |
| `Fuzzy.Degree` | game.py:43-45 | every membership degree lies in [0, 1], for every real argument, in range or out of it |
| `Fuzzy.FallingNonIncreasing` | game.py:43-44 | a falling shoulder never increases as the distance grows |
| `Fuzzy.RisingNonDecreasing` | game.py:45 | a rising shoulder never decreases as the distance grows |
| `Fuzzy.Lipschitz` | game.py:43-45 | a shoulder has no jump: two distances x <= y have degrees at most (y - x) / (high - low) apart |
| `Fuzzy.RisingIsComplement` | game.py:43-45 | `R(low, high)` at x is exactly 1 minus `S(low, high)` at x |
| `Controller.Near` | game.py:43 | near's degree lies in [0, 1] |
| `Controller.Medium` | game.py:44 | medium's degree lies in [0, 1] |
| `Controller.Far` | game.py:45 | far's degree lies in [0, 1] |
| `Controller.Grade` | game.py:62-72 | the three degrees of one distance each lie in [0, 1] |
| `Controller.Clamp` | game.py:86-87 | the result lies in [-1, 1]; a value already in [-1, 1] (bounds included) is unchanged; anything above 1 gives 1 and anything below -1 gives -1 |
| `Controller.CalculateControl` | game.py:47-92 | for all real distances both control values lie in [-1, 1], and the nine extra components are the near/medium/far degrees of left, center and right, in that order |
| `Controller.NearShape` | game.py:43 | near is 1 at or below 0, 0 at or above 50, and 1 - d/50 in between |
| `Controller.NearNonIncreasing` | game.py:43 | near never increases with the distance |
| `Controller.MediumShape` | game.py:44 | medium is 1 at or below 40 (so medium(0) = 1), 0 at or above 180, and (180 - d)/140 in between |
| `Controller.MediumNonIncreasing` | game.py:44 | medium never increases with the distance |
| `Controller.FarShape` | game.py:45 | far is 0 at or below 100, 1 at or above 200, and (d - 100)/100 in between |
| `Controller.FarNonDecreasing` | game.py:45 | far never decreases with the distance |
| `Controller.AccelerationDependsOnlyOnCenter` | game.py:79-83 | changing the left and right distances never changes the acceleration |
| `Controller.TurnSeesCenterOnlyThroughFar` | game.py:74-77 | two center distances with the same degree in far give the same turn |
| `Controller.TurnIgnoresCloseCenter` | game.py:74-77 | any two center distances at or below 100 give the same turn |
| `Controller.TurnNonIncreasingInCenter` | game.py:74-87 | a larger center distance never gives a larger turn |
| `Controller.AccelerationRange` | game.py:79-87 | the raw acceleration lies in [-0.2, 1], so the returned acceleration is the raw one, unclamped |
| `Controller.TurnRightLowerBound` | game.py:76 | the right-turn tendency is at least -11/35 for every left distance |
| `Controller.TurnLeftLowerBound` | game.py:75 | the left-turn tendency is at least -0.5 for every right and center distance |
| `Controller.TurnLowerBound` | game.py:74-87 | the raw turn, and so the returned turn, is at least -57/70: the lower clamp is never reached |
| `Controller.TurnRightUpperBound` | game.py:76 | the right-turn tendency is at most 0.9 for every left distance |
| `Controller.TurnLeftUpperBound` | game.py:75 | the left-turn tendency is at most 0.8 + 13/28 for every right and center distance |
| `Controller.TurnUpperBound` | game.py:74-77 | the raw turn is at most 303/140 |
| `Controller.TurnUpperBoundAttained` | game.py:74-77 | left at 0 or less, center at 100 or less and right 50 give the raw turn 303/140, so the bound is tight |
| `Controller.TurnLowerBoundAttained` | game.py:74-87 | left 100, center 200, right 0 gives the turn -57/70, so the bound is tight |
| `Controller.GradeOfFarWall` | game.py:62-72 | a distance of 200 or more grades as near 0, medium 0, far 1 |
| `Controller.GradeOfTouchingWall` | game.py:62-72 | a distance of 0 or less grades as near 1, medium 1, far 0 |
| `Controller.AllFar` | game.py:74-87 | all three distances equal and at least 200 give turn 0 and acceleration 1 |
| `Controller.AllZero` | game.py:74-87 | all three distances equal and at most 0 give raw turn 1.2, turn 1 and acceleration -0.2 |
| `Controller.TurnNotAntisymmetric` | game.py:75-77 | left 0 with center and right at 200 gives turn 0.9, while swapping left and right gives -0.5, not -0.9 |
| `Arena.FirstHitIsFirst` | game.py:119-124 | the reference search returns a step in [from, 200]; below 200 it is a wall hit; no earlier step from `from` hits |
| `Arena.MoreWallsShorterRay` | game.py:119-124 | adding walls never lengthens the measured distance |
| `Arena.DistanceToWall` | game.py:107-124 | the distance is in [1, 200]; below 200 the sample at that step is a wall; no smaller step hits (so 200 means none of steps 1..199 hit); it equals the reference `FirstHit` |
| `Arena.BorderWalls` | game.py:143-149 | for any width and height (the simulation uses 800 by 600), the wall set holds exactly the cells of the rectangle's top and bottom rows and left and right columns |

## Left out

- Window, event loop, frame timing, text and ray drawing and sprite rotation (game.py:94-105, 131-133, 171-198): input/output and rendering.
- The pose update `car_angle += turn * 2` and the position update (game.py:166-169): floating-point trigonometry; the model stops at the two control values.
- The sample point of a ray, `pos + dist * (cos, sin)` truncated to integers (game.py:120-122): floating-point trigonometry; `Arena.DistanceToWall` takes it as a function parameter and models only the search around it.
- The fuzzy-logic library itself is not part of this model; `S` and `R` are written out from their documented behaviour, including the library's demand that `low < high`.
- The bounds of the distance domain (game.py:42) are not used: the controller evaluates the sets directly, and the model accepts every real distance.
- Binary floating-point rounding of the weights (0.8, -0.6, ...) and of the interpolation: the model computes over exact reals.
- Python's `min`/`max` in the clamp may return the integer 1 or -1 rather than a float; the value is the same, and the model does not distinguish the two.
- Determinism of the controller needs no lemma: Dafny functions are deterministic by construction.
