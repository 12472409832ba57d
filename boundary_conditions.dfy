/** The boundary-condition appliers of the Cosserat-rod simulator: FreeRod,
    OneEndFixedRod and HelicalBucklingBC. Each offers `ConstrainValues`
    (position, directors) and `ConstrainRates` (velocity, omega), overwrites
    only the start and/or end column of a rod's arrays in place, and keeps
    copies of its construction parameters, never views into the rod.

    Each in-place method is specified by a pure function on RodState; the
    facts the source promises are stated of those functions. */
module BoundaryConditions {
  import opened Linalg
  import opened Rotations
  import opened Rods

  /* ---------------------------------------------------------------------
     FreeRod: imposes nothing.
     --------------------------------------------------------------------- */

  class FreeRod {
    constructor ()
    {
    }

    /** Leaves every column of position and directors as it was. */
    method ConstrainValues(rod: Rod, time: real)
      requires rod.Valid()
      ensures rod.State() == old(rod.State())
    {
    }

    /** Leaves every column of velocity and omega as it was. */
    method ConstrainRates(rod: Rod, time: real)
      requires rod.Valid()
      ensures rod.State() == old(rod.State())
    {
    }
  }

  /* ---------------------------------------------------------------------
     OneEndFixedRod: clamps the start of the rod.
     --------------------------------------------------------------------- */

  /** The pose a clamped start imposes: position and directors at column 0
      become the stored ones; every other column and both rates stay. */
  function FixedEndValues(s: RodState, p: Vec3, d: Mat3): (r: RodState)
    requires s.Valid()
    ensures r.Valid() && r.SameShape(s)
    ensures r.position[0] == p && r.directors[0] == d
    ensures forall k :: 1 <= k < |s.position| ==> r.position[k] == s.position[k]
    ensures forall k :: 1 <= k < |s.directors| ==> r.directors[k] == s.directors[k]
    ensures r.velocity == s.velocity && r.omega == s.omega
  {
    s.(position := SetFirst(s.position, p), directors := SetFirst(s.directors, d))
  }

  /** The rates a clamped start imposes: velocity and omega at column 0
      become zero; every other column and the pose stay. */
  function FixedEndRates(s: RodState): (r: RodState)
    requires s.Valid()
    ensures r.Valid() && r.SameShape(s)
    ensures r.velocity[0] == Zero && r.omega[0] == Zero
    ensures forall k :: 1 <= k < |s.velocity| ==> r.velocity[k] == s.velocity[k]
    ensures forall k :: 1 <= k < |s.omega| ==> r.omega[k] == s.omega[k]
    ensures r.position == s.position && r.directors == s.directors
  {
    s.(velocity := SetFirst(s.velocity, Zero), omega := SetFirst(s.omega, Zero))
  }

  /** Clamping twice is clamping once. */
  lemma FixedEndIdempotent(s: RodState, p: Vec3, d: Mat3)
    requires s.Valid()
    ensures FixedEndValues(FixedEndValues(s, p, d), p, d) == FixedEndValues(s, p, d)
    ensures FixedEndRates(FixedEndRates(s)) == FixedEndRates(s)
  {
    var once, twice := FixedEndValues(s, p, d), FixedEndValues(FixedEndValues(s, p, d), p, d);
    assert twice.position == once.position;
    assert twice.directors == once.directors;
    var onceR, twiceR := FixedEndRates(s), FixedEndRates(FixedEndRates(s));
    assert twiceR.velocity == onceR.velocity;
    assert twiceR.omega == onceR.omega;
  }

  class OneEndFixedRod {
    const fixedPosition: Vec3
    const fixedDirectors: Mat3

    /** Stores copies of the start pose. */
    constructor (startPosition: Vec3, startDirectors: Mat3)
      ensures fixedPosition == startPosition && fixedDirectors == startDirectors
    {
      fixedPosition := startPosition;
      fixedDirectors := startDirectors;
    }

    method ConstrainValues(rod: Rod, time: real)
      requires rod.Valid()
      modifies rod.position, rod.directors
      ensures rod.State() == FixedEndValues(old(rod.State()), fixedPosition, fixedDirectors)
    {
      SetColumn(rod.position, 0, fixedPosition);
      SetFrame(rod.directors, 0, fixedDirectors);
    }

    method ConstrainRates(rod: Rod, time: real)
      requires rod.Valid()
      modifies rod.velocity, rod.omega
      ensures rod.State() == FixedEndRates(old(rod.State()))
    {
      SetColumn(rod.velocity, 0, Zero);
      SetColumn(rod.omega, 0, Zero);
    }
  }

  /* ---------------------------------------------------------------------
     HelicalBucklingBC: pulls the two ends together along the rod axis while
     twisting them in opposite senses until the twisting time, then holds
     them still; the pose it imposes is the one reached at the end of the
     twisting phase.
     --------------------------------------------------------------------- */

  /** Pi, to the sixteen significant digits numpy prints for its
      double-precision constant. */
  const Pi: real := 3.141592653589793

  /** The unit vector from the start to the end of the rod, `length` being
      the distance between them. */
  function Axis(positionStart: Vec3, positionEnd: Vec3, length: real): (d: Vec3)
    requires length > 0.0
    ensures Add(positionStart, Scale(length, d)) == positionEnd
  {
    Scale(1.0 / length, Sub(positionEnd, positionStart))
  }

  /** Given the true distance between the ends, the axis has unit length. */
  lemma AxisIsUnit(positionStart: Vec3, positionEnd: Vec3, length: real)
    requires length > 0.0
    requires length * length == NormSq(Sub(positionEnd, positionStart))
    ensures NormSq(Axis(positionStart, positionEnd, length)) == 1.0
  {
    var e := Sub(positionEnd, positionStart);
    var d := Axis(positionStart, positionEnd, length);
    var q := 1.0 / length;
    assert q * length == 1.0;
    calc {
      NormSq(d);
      (q * e.x) * (q * e.x) + (q * e.y) * (q * e.y) + (q * e.z) * (q * e.z);
      (q * q) * NormSq(e);
      (q * q) * (length * length);
      (q * length) * (q * length);
      1.0;
    }
  }

  /** The speed at which each end moves towards the other while twisting:
      over the twisting time each end covers half the slack. */
  function ShrinkSpeed(slack: real, twistingTime: real): (v: real)
    requires twistingTime > 0.0
    ensures v * twistingTime == slack / 2.0
  {
    slack / (2.0 * twistingTime)
  }

  /** The angular speed of each end while twisting: over the twisting time
      each end turns through pi * numberOfRotations, so that the two ends,
      turning in opposite senses, end numberOfRotations full turns apart. */
  function SpinSpeed(numberOfRotations: real, twistingTime: real): (w: real)
    requires twistingTime > 0.0
    ensures w * twistingTime == Pi * numberOfRotations
    ensures w * twistingTime - -(w * twistingTime) == 2.0 * Pi * numberOfRotations
  {
    Pi * numberOfRotations / twistingTime
  }

  /** The start position after the twisting phase: half the slack along the axis. */
  function FinalStartPosition(positionStart: Vec3, slack: real, axis: Vec3): Vec3
  {
    Add(positionStart, Scale(slack / 2.0, axis))
  }

  /** The end position after the twisting phase: half the slack back along the axis. */
  function FinalEndPosition(positionEnd: Vec3, slack: real, axis: Vec3): Vec3
  {
    Sub(positionEnd, Scale(slack / 2.0, axis))
  }

  /** The start directors after the twisting phase: turned by +theta about
      the axis, cos(theta) and sin(theta) being given. */
  function FinalStartDirectors(directorStart: Mat3, axis: Vec3, cosTheta: real, sinTheta: real): Mat3
  {
    MatMul(Rotation(axis, cosTheta, sinTheta), directorStart)
  }

  /** The end directors after the twisting phase: turned by -theta. */
  function FinalEndDirectors(directorEnd: Mat3, axis: Vec3, cosTheta: real, sinTheta: real): Mat3
  {
    MatMul(Rotation(axis, cosTheta, -sinTheta), directorEnd)
  }

  /** Moving at the twisting-phase velocities for the whole twisting time
      takes each end exactly to the position the values condition imposes,
      and the ends end up `length - slack` apart along the axis. */
  lemma DriveReachesFinalPositions(positionStart: Vec3, positionEnd: Vec3, length: real, twistingTime: real, slack: real)
    requires length > 0.0 && twistingTime > 0.0
    ensures var axis := Axis(positionStart, positionEnd, length);
      var v := Scale(ShrinkSpeed(slack, twistingTime), axis);
      && Add(positionStart, Scale(twistingTime, v)) == FinalStartPosition(positionStart, slack, axis)
      && Add(positionEnd, Scale(twistingTime, Neg(v))) == FinalEndPosition(positionEnd, slack, axis)
      && Sub(FinalEndPosition(positionEnd, slack, axis), FinalStartPosition(positionStart, slack, axis)) == Scale(length - slack, axis)
  {
    var axis := Axis(positionStart, positionEnd, length);
    var speed := ShrinkSpeed(slack, twistingTime);
    var v := Scale(speed, axis);
    var h := slack / 2.0;
    assert speed * twistingTime == h;
    assert Scale(twistingTime, v) == Scale(h, axis) by {
      assert twistingTime * (speed * axis.x) == (speed * twistingTime) * axis.x;
      assert twistingTime * (speed * axis.y) == (speed * twistingTime) * axis.y;
      assert twistingTime * (speed * axis.z) == (speed * twistingTime) * axis.z;
    }
    assert Scale(twistingTime, Neg(v)) == Neg(Scale(h, axis));
    assert Sub(positionEnd, positionStart) == Scale(length, axis);
  }

  /** Spinning at the twisting-phase angular velocity for the whole twisting
      time turns each end through pi * numberOfRotations about the axis: the
      angle whose rotation the values condition imposes. */
  lemma DriveReachesFinalAngle(axis: Vec3, numberOfRotations: real, twistingTime: real)
    requires twistingTime > 0.0
    ensures Scale(twistingTime, Scale(SpinSpeed(numberOfRotations, twistingTime), axis))
         == Scale(Pi * numberOfRotations, axis)
    ensures Scale(twistingTime, Neg(Scale(SpinSpeed(numberOfRotations, twistingTime), axis)))
         == Scale(-(Pi * numberOfRotations), axis)
  {
    var w := SpinSpeed(numberOfRotations, twistingTime);
    assert w * twistingTime == Pi * numberOfRotations;
    assert twistingTime * (w * axis.x) == (w * twistingTime) * axis.x;
    assert twistingTime * (w * axis.y) == (w * twistingTime) * axis.y;
    assert twistingTime * (w * axis.z) == (w * twistingTime) * axis.z;
  }

  lemma MatMulIdentity(m: Mat3)
    ensures MatMul(m, Identity) == m
  {
  }

  /** Starting from aligned identity frames, the two ends are turned by equal
      and opposite rotations about the axis: the end frame is the transpose
      of the start frame, and both are orthonormal when the axis is a unit
      vector and (cos, sin) lies on the unit circle. */
  lemma FinalFramesMirror(axis: Vec3, cosTheta: real, sinTheta: real)
    ensures FinalEndDirectors(Identity, axis, cosTheta, sinTheta)
         == Transpose(FinalStartDirectors(Identity, axis, cosTheta, sinTheta))
    ensures NormSq(axis) == 1.0 && cosTheta * cosTheta + sinTheta * sinTheta == 1.0 ==>
      var d := FinalStartDirectors(Identity, axis, cosTheta, sinTheta);
      MatMul(d, Transpose(d)) == Identity
    ensures NormSq(axis) == 1.0 && cosTheta * cosTheta + sinTheta * sinTheta == 1.0 ==>
      var e := FinalEndDirectors(Identity, axis, cosTheta, sinTheta);
      MatMul(e, Transpose(e)) == Identity
  {
    MatMulIdentity(Rotation(axis, cosTheta, sinTheta));
    MatMulIdentity(Rotation(axis, cosTheta, -sinTheta));
    RotationOppositeIsTranspose(axis, cosTheta, sinTheta);
    if NormSq(axis) == 1.0 && cosTheta * cosTheta + sinTheta * sinTheta == 1.0 {
      RotationIsOrthonormal(axis, cosTheta, sinTheta);
      RotationIsOrthonormal(axis, cosTheta, -sinTheta);
    }
  }

  /** Twisting-phase rates: the start moves with +v and spins with +w, the
      end with -v and -w; interior columns and the pose stay. */
  function TwistingRates(s: RodState, v: Vec3, w: Vec3): (r: RodState)
    requires s.Valid()
    ensures r.Valid() && r.SameShape(s)
    ensures |s.velocity| > 1 ==> r.velocity[0] == v
    ensures |s.omega| > 1 ==> r.omega[0] == w
    ensures r.velocity[|s.velocity| - 1] == Neg(v) && r.omega[|s.omega| - 1] == Neg(w)
    ensures forall k :: 0 < k < |s.velocity| - 1 ==> r.velocity[k] == s.velocity[k]
    ensures forall k :: 0 < k < |s.omega| - 1 ==> r.omega[k] == s.omega[k]
    ensures r.position == s.position && r.directors == s.directors
  {
    s.(velocity := SetEnds(s.velocity, v, Neg(v)), omega := SetEnds(s.omega, w, Neg(w)))
  }

  /** Released-phase rates: both ends are held still; interior columns and
      the pose stay. */
  function ReleasedRates(s: RodState): (r: RodState)
    requires s.Valid()
    ensures r.Valid() && r.SameShape(s)
    ensures r.velocity[0] == Zero && r.velocity[|s.velocity| - 1] == Zero
    ensures r.omega[0] == Zero && r.omega[|s.omega| - 1] == Zero
    ensures forall k :: 0 < k < |s.velocity| - 1 ==> r.velocity[k] == s.velocity[k]
    ensures forall k :: 0 < k < |s.omega| - 1 ==> r.omega[k] == s.omega[k]
    ensures r.position == s.position && r.directors == s.directors
  {
    s.(velocity := SetEnds(s.velocity, Zero, Zero), omega := SetEnds(s.omega, Zero, Zero))
  }

  /** The imposed pose: positions and directors at both ends are overwritten
      (start first, then end); interior columns and the rates stay. */
  function FinalPose(s: RodState, p0: Vec3, p1: Vec3, d0: Mat3, d1: Mat3): (r: RodState)
    requires s.Valid()
    ensures r.Valid() && r.SameShape(s)
    ensures |s.position| > 1 ==> r.position[0] == p0
    ensures |s.directors| > 1 ==> r.directors[0] == d0
    ensures r.position[|s.position| - 1] == p1 && r.directors[|s.directors| - 1] == d1
    ensures forall k :: 0 < k < |s.position| - 1 ==> r.position[k] == s.position[k]
    ensures forall k :: 0 < k < |s.directors| - 1 ==> r.directors[k] == s.directors[k]
    ensures r.velocity == s.velocity && r.omega == s.omega
  {
    s.(position := SetEnds(s.position, p0, p1), directors := SetEnds(s.directors, d0, d1))
  }

  /** Releasing after twisting leaves no trace of the drive at the ends: it
      is as if the rod had been released directly. */
  lemma ReleaseOverridesTwist(s: RodState, v: Vec3, w: Vec3)
    requires s.Valid()
    ensures ReleasedRates(TwistingRates(s, v, w)) == ReleasedRates(s)
  {
    var a, b := ReleasedRates(TwistingRates(s, v, w)), ReleasedRates(s);
    assert a.velocity == b.velocity;
    assert a.omega == b.omega;
  }

  /** Each of the helical condition's updates is idempotent. */
  lemma HelicalIdempotent(s: RodState, v: Vec3, w: Vec3, p0: Vec3, p1: Vec3, d0: Mat3, d1: Mat3)
    requires s.Valid()
    ensures TwistingRates(TwistingRates(s, v, w), v, w) == TwistingRates(s, v, w)
    ensures ReleasedRates(ReleasedRates(s)) == ReleasedRates(s)
    ensures FinalPose(FinalPose(s, p0, p1, d0, d1), p0, p1, d0, d1) == FinalPose(s, p0, p1, d0, d1)
  {
    var t1, t2 := TwistingRates(s, v, w), TwistingRates(TwistingRates(s, v, w), v, w);
    assert t2.velocity == t1.velocity && t2.omega == t1.omega;
    var r1, r2 := ReleasedRates(s), ReleasedRates(ReleasedRates(s));
    assert r2.velocity == r1.velocity && r2.omega == r1.omega;
    var f1, f2 := FinalPose(s, p0, p1, d0, d1), FinalPose(FinalPose(s, p0, p1, d0, d1), p0, p1, d0, d1);
    assert f2.position == f1.position && f2.directors == f1.directors;
  }

  /** Values and rates touch disjoint arrays, so the integrator may apply
      them in either order. */
  lemma ValuesAndRatesCommute(s: RodState, v: Vec3, w: Vec3, p0: Vec3, p1: Vec3, d0: Mat3, d1: Mat3)
    requires s.Valid()
    ensures FinalPose(TwistingRates(s, v, w), p0, p1, d0, d1) == TwistingRates(FinalPose(s, p0, p1, d0, d1), v, w)
    ensures FinalPose(ReleasedRates(s), p0, p1, d0, d1) == ReleasedRates(FinalPose(s, p0, p1, d0, d1))
  {
  }

  class HelicalBucklingBC {
    const twistingTime: real
    /** Velocity of the start node while twisting (the end gets its negative). */
    const shrinkVelocity: Vec3
    /** Angular velocity of the start node while twisting (the end gets its negative). */
    const spinVelocity: Vec3
    const finalStartPosition: Vec3
    const finalEndPosition: Vec3
    const finalStartDirectors: Mat3
    const finalEndDirectors: Mat3

    /** Derives every constant once from copies of the parameters. The
        distance between the ends (a Euclidean norm) and the cosine and sine
        of theta == pi * numberOfRotations are computed by library routines
        outside this model and are passed in. */
    constructor (positionStart: Vec3, positionEnd: Vec3, directorStart: Mat3, directorEnd: Mat3,
                 twistingTime: real, slack: real, numberOfRotations: real,
                 length: real, cosTheta: real, sinTheta: real)
      requires twistingTime > 0.0
      requires length > 0.0 && length * length == NormSq(Sub(positionEnd, positionStart))
      ensures this.twistingTime == twistingTime
      ensures var axis := Axis(positionStart, positionEnd, length);
        && shrinkVelocity == Scale(ShrinkSpeed(slack, twistingTime), axis)
        && spinVelocity == Scale(SpinSpeed(numberOfRotations, twistingTime), axis)
        && finalStartPosition == FinalStartPosition(positionStart, slack, axis)
        && finalEndPosition == FinalEndPosition(positionEnd, slack, axis)
        && finalStartDirectors == FinalStartDirectors(directorStart, axis, cosTheta, sinTheta)
        && finalEndDirectors == FinalEndDirectors(directorEnd, axis, cosTheta, sinTheta)
    {
      var axis := Axis(positionStart, positionEnd, length);
      this.twistingTime := twistingTime;
      shrinkVelocity := Scale(ShrinkSpeed(slack, twistingTime), axis);
      spinVelocity := Scale(SpinSpeed(numberOfRotations, twistingTime), axis);
      finalStartPosition := FinalStartPosition(positionStart, slack, axis);
      finalEndPosition := FinalEndPosition(positionEnd, slack, axis);
      finalStartDirectors := FinalStartDirectors(directorStart, axis, cosTheta, sinTheta);
      finalEndDirectors := FinalEndDirectors(directorEnd, axis, cosTheta, sinTheta);
    }

    /** Before the twisting time the ends are driven; from it on they are
        held still. */
    method ConstrainRates(rod: Rod, time: real)
      requires rod.Valid()
      modifies rod.velocity, rod.omega
      ensures rod.State() == if time < twistingTime then TwistingRates(old(rod.State()), shrinkVelocity, spinVelocity)
                             else ReleasedRates(old(rod.State()))
    {
      if time < twistingTime {
        SetColumn(rod.velocity, 0, shrinkVelocity);
        SetColumn(rod.velocity, rod.velocity.Length1 - 1, Neg(shrinkVelocity));
        SetColumn(rod.omega, 0, spinVelocity);
        SetColumn(rod.omega, rod.omega.Length1 - 1, Neg(spinVelocity));
      } else {
        SetColumn(rod.velocity, 0, Zero);
        SetColumn(rod.velocity, rod.velocity.Length1 - 1, Zero);
        SetColumn(rod.omega, 0, Zero);
        SetColumn(rod.omega, rod.omega.Length1 - 1, Zero);
      }
    }

    /** Once the twisting phase is over, imposes the pose it reaches. While
        the ends are still driven, nothing is promised about them; the
        interior columns and the rates are left alone at every time. */
    method ConstrainValues(rod: Rod, time: real)
      requires rod.Valid()
      modifies rod.position, rod.directors
      ensures time >= twistingTime ==>
        rod.State() == FinalPose(old(rod.State()), finalStartPosition, finalEndPosition,
                                 finalStartDirectors, finalEndDirectors)
      ensures rod.State().velocity == old(rod.State()).velocity && rod.State().omega == old(rod.State()).omega
      ensures forall k :: 0 < k < rod.position.Length1 - 1 ==> rod.State().position[k] == old(rod.State()).position[k]
      ensures forall k :: 0 < k < rod.directors.Length2 - 1 ==> rod.State().directors[k] == old(rod.State()).directors[k]
    {
      if time >= twistingTime {
        SetColumn(rod.position, 0, finalStartPosition);
        SetColumn(rod.position, rod.position.Length1 - 1, finalEndPosition);
        SetFrame(rod.directors, 0, finalStartDirectors);
        SetFrame(rod.directors, rod.directors.Length2 - 1, finalEndDirectors);
      }
    }
  }
}
