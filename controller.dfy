/**
  * The fuzzy steering controller: three wall distances (left, center, right)
  * are graded against the fuzzy sets near, medium and far, combined by a fixed
  * weighted sum into a turn value and an acceleration value, and each of the
  * two is clamped to [-1, 1].
  */
module Controller {
  import opened Fuzzy

  /** The three fuzzy sets over distance. */
  const NearSet: Shoulder := S(0.0, 50.0)
  const MediumSet: Shoulder := S(40.0, 180.0)
  const FarSet: Shoulder := R(100.0, 200.0)

  function Near(d: real): (m: real)
    ensures 0.0 <= m <= 1.0
  {
    Degree(NearSet, d)
  }

  function Medium(d: real): (m: real)
    ensures 0.0 <= m <= 1.0
  {
    Degree(MediumSet, d)
  }

  function Far(d: real): (m: real)
    ensures 0.0 <= m <= 1.0
  {
    Degree(FarSet, d)
  }

  /** The degrees of one distance in near, medium and far. */
  datatype Grades = Grades(near: real, medium: real, far: real)

  function Grade(d: real): (g: Grades)
    ensures 0.0 <= g.near <= 1.0 && 0.0 <= g.medium <= 1.0 && 0.0 <= g.far <= 1.0
  {
    Grades(Near(d), Medium(d), Far(d))
  }

  /**
    * What one call of the controller returns: the two clamped control values
    * and, for display, the grades of the left, center and right distances.
    */
  datatype Control = Control(turn: real, acceleration: real, left: Grades, center: Grades, right: Grades)

  function Min(a: real, b: real): real { if b < a then b else a }

  function Max(a: real, b: real): real { if b > a then b else a }

  /** `max(-1, min(1, x))`: both bounds are inclusive. */
  function Clamp(x: real): (c: real)
    ensures -1.0 <= c <= 1.0
    ensures -1.0 <= x <= 1.0 ==> c == x
    ensures x > 1.0 ==> c == 1.0
    ensures x < -1.0 ==> c == -1.0
  {
    Max(-1.0, Min(1.0, x))
  }

  /** The tendency to turn left: away from a near right wall, and when the way ahead is not clear. */
  function TurnLeft(right: Grades, center: Grades): real
  {
    right.near * -1.0 + right.medium * 0.5 + (1.0 - center.far) * 0.8
  }

  /** The tendency to turn right, driven by the left distance alone. */
  function TurnRight(left: Grades): real
  {
    left.near * 1.0 + left.medium * 0.5 + (1.0 - left.far) * -0.6
  }

  function RawTurn(left: Grades, center: Grades, right: Grades): real
  {
    TurnLeft(right, center) + TurnRight(left)
  }

  function RawAcceleration(center: Grades): real
  {
    center.near * -1.0 + center.medium * 0.8 + center.far * 1.0
  }

  /** The controller: total over all real distances, in range and out of it. */
  function CalculateControl(left: real, center: real, right: real): (out: Control)
    ensures -1.0 <= out.turn <= 1.0
    ensures -1.0 <= out.acceleration <= 1.0
    ensures out.left == Grade(left) && out.center == Grade(center) && out.right == Grade(right)
  {
    var l, c, r := Grade(left), Grade(center), Grade(right);
    Control(Clamp(RawTurn(l, c, r)), Clamp(RawAcceleration(c)), l, c, r)
  }

  // ----- the shapes of the three fuzzy sets -----

  lemma NearShape(d: real)
    ensures d <= 0.0 ==> Near(d) == 1.0
    ensures d >= 50.0 ==> Near(d) == 0.0
    ensures 0.0 < d < 50.0 ==> Near(d) == 1.0 - d / 50.0
  {
  }

  lemma NearNonIncreasing(x: real, y: real)
    requires x <= y
    ensures Near(y) <= Near(x)
  {
    FallingNonIncreasing(NearSet, x, y);
  }

  lemma MediumShape(d: real)
    ensures d <= 40.0 ==> Medium(d) == 1.0
    ensures d >= 180.0 ==> Medium(d) == 0.0
    ensures 40.0 < d < 180.0 ==> Medium(d) == (180.0 - d) / 140.0
  {
  }

  lemma MediumNonIncreasing(x: real, y: real)
    requires x <= y
    ensures Medium(y) <= Medium(x)
  {
    FallingNonIncreasing(MediumSet, x, y);
  }

  lemma FarShape(d: real)
    ensures d <= 100.0 ==> Far(d) == 0.0
    ensures d >= 200.0 ==> Far(d) == 1.0
    ensures 100.0 < d < 200.0 ==> Far(d) == (d - 100.0) / 100.0
  {
  }

  lemma FarNonDecreasing(x: real, y: real)
    requires x <= y
    ensures Far(x) <= Far(y)
  {
    RisingNonDecreasing(FarSet, x, y);
  }

  // ----- what each output depends on -----

  /** The acceleration is a function of the center distance alone. */
  lemma AccelerationDependsOnlyOnCenter(left1: real, right1: real, left2: real, right2: real, center: real)
    ensures CalculateControl(left1, center, right1).acceleration == CalculateControl(left2, center, right2).acceleration
  {
  }

  /** The turn sees the center distance only through its degree in far. */
  lemma TurnSeesCenterOnlyThroughFar(left: real, center1: real, center2: real, right: real)
    requires Far(center1) == Far(center2)
    ensures CalculateControl(left, center1, right).turn == CalculateControl(left, center2, right).turn
  {
  }

  /** So any two center distances up to 100 give the same turn. */
  lemma TurnIgnoresCloseCenter(left: real, center1: real, center2: real, right: real)
    requires center1 <= 100.0 && center2 <= 100.0
    ensures CalculateControl(left, center1, right).turn == CalculateControl(left, center2, right).turn
  {
    FarShape(center1);
    FarShape(center2);
    TurnSeesCenterOnlyThroughFar(left, center1, center2, right);
  }

  /** The clearer the way ahead, the less the car turns. */
  lemma TurnNonIncreasingInCenter(left: real, center1: real, center2: real, right: real)
    requires center1 <= center2
    ensures CalculateControl(left, center2, right).turn <= CalculateControl(left, center1, right).turn
  {
    FarNonDecreasing(center1, center2);
  }

  // ----- ranges of the raw values -----

  /**
    * The raw acceleration stays within [-0.2, 1], so its clamp never acts and
    * the car never brakes harder than -0.2.
    */
  lemma AccelerationRange(left: real, center: real, right: real)
    ensures -0.2 <= RawAcceleration(Grade(center)) <= 1.0
    ensures CalculateControl(left, center, right).acceleration == RawAcceleration(Grade(center))
  {
    NearShape(center);
    MediumShape(center);
    FarShape(center);
  }

  lemma TurnRightLowerBound(d: real)
    ensures TurnRight(Grade(d)) >= -11.0 / 35.0
  {
    NearShape(d);
    MediumShape(d);
    FarShape(d);
    if d <= 100.0 {
      MediumNonIncreasing(d, 100.0);
      MediumShape(100.0);
    }
  }

  lemma TurnLeftLowerBound(right: real, center: real)
    ensures TurnLeft(Grade(right), Grade(center)) >= -0.5
  {
    NearShape(right);
    MediumShape(right);
  }

  /**
    * The raw turn never drops below -57/70, so the lower clamp at -1 is never
    * reached: the strongest turn in the negative direction is -57/70.
    */
  lemma TurnLowerBound(left: real, center: real, right: real)
    ensures RawTurn(Grade(left), Grade(center), Grade(right)) >= -57.0 / 70.0
    ensures CalculateControl(left, center, right).turn >= -57.0 / 70.0
  {
    TurnRightLowerBound(left);
    TurnLeftLowerBound(right, center);
  }

  lemma TurnRightUpperBound(d: real)
    ensures TurnRight(Grade(d)) <= 0.9
  {
    NearShape(d);
    MediumShape(d);
    FarShape(d);
  }

  lemma TurnLeftUpperBound(right: real, center: real)
    ensures TurnLeft(Grade(right), Grade(center)) <= 0.8 + 13.0 / 28.0
  {
    NearShape(right);
    MediumShape(right);
    FarShape(center);
  }

  /**
    * The raw turn never exceeds 303/140, reached with left at 0 or less, center
    * at 100 or less and right at 50; above 1 the clamp acts.
    */
  lemma TurnUpperBound(left: real, center: real, right: real)
    ensures RawTurn(Grade(left), Grade(center), Grade(right)) <= 303.0 / 140.0
  {
    TurnRightUpperBound(left);
    TurnLeftUpperBound(right, center);
  }

  /** The bound of TurnUpperBound is tight. */
  lemma TurnUpperBoundAttained(left: real, center: real)
    requires left <= 0.0 && center <= 100.0
    ensures RawTurn(Grade(left), Grade(center), Grade(50.0)) == 303.0 / 140.0
  {
    GradeOfTouchingWall(left);
    FarShape(center);
    NearShape(50.0);
    MediumShape(50.0);
    FarShape(50.0);
  }

  /** The bound of TurnLowerBound is tight. */
  lemma TurnLowerBoundAttained()
    ensures CalculateControl(100.0, 200.0, 0.0).turn == -57.0 / 70.0
  {
    NearShape(100.0);
    MediumShape(100.0);
    FarShape(100.0);
    FarShape(200.0);
    NearShape(0.0);
    MediumShape(0.0);
  }

  // ----- boundary scenarios -----

  lemma GradeOfFarWall(d: real)
    requires d >= 200.0
    ensures Grade(d) == Grades(0.0, 0.0, 1.0)
  {
    NearShape(d);
    MediumShape(d);
    FarShape(d);
  }

  lemma GradeOfTouchingWall(d: real)
    requires d <= 0.0
    ensures Grade(d) == Grades(1.0, 1.0, 0.0)
  {
    NearShape(d);
    MediumShape(d);
    FarShape(d);
  }

  /** Walls at 200 or beyond on all sides: drive straight at full speed. */
  lemma AllFar(d: real)
    requires d >= 200.0
    ensures CalculateControl(d, d, d).turn == 0.0
    ensures CalculateControl(d, d, d).acceleration == 1.0
  {
    GradeOfFarWall(d);
    FarGradesControl(Grade(d));
  }

  lemma FarGradesControl(g: Grades)
    requires g == Grades(0.0, 0.0, 1.0)
    ensures Clamp(RawTurn(g, g, g)) == 0.0 && Clamp(RawAcceleration(g)) == 1.0
  {
  }

  /**
    * Touching walls on all sides: medium is saturated at 1 below 40, so the raw
    * turn is 1.2, clamped to 1, and the acceleration is -0.2.
    */
  lemma AllZero(d: real)
    requires d <= 0.0
    ensures RawTurn(Grade(d), Grade(d), Grade(d)) == 1.2
    ensures CalculateControl(d, d, d).turn == 1.0
    ensures CalculateControl(d, d, d).acceleration == -0.2
  {
    GradeOfTouchingWall(d);
  }

  /**
    * The rule weights are not mirror images (0.8 against -0.6): swapping the
    * left and right distances does not in general negate the turn.
    */
  lemma TurnNotAntisymmetric(near: real, far: real)
    requires near <= 0.0 && far >= 200.0
    ensures CalculateControl(near, far, far).turn == 0.9
    ensures CalculateControl(far, far, near).turn == -0.5
  {
    GradeOfFarWall(far);
    GradeOfTouchingWall(near);
    MixedGradesTurn(Grade(near), Grade(far));
  }

  lemma MixedGradesTurn(n: Grades, f: Grades)
    requires n == Grades(1.0, 1.0, 0.0) && f == Grades(0.0, 0.0, 1.0)
    ensures Clamp(RawTurn(n, f, f)) == 0.9 && Clamp(RawTurn(f, f, n)) == -0.5
  {
  }
}
