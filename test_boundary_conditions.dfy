/** The three boundary-condition scenarios of the test module, replayed on the
    model. The random initial contents of the rod's arrays become arbitrary
    array arguments; each closeness check becomes an assertion of exact
    equality over the reals, except for the one constant the scenario writes
    as a rounded decimal (27 * pi / 500), which is checked against the
    relative tolerance numpy's closeness check uses by default. */
module BoundaryConditionTests {
  import opened Linalg
  import opened Rods
  import opened Rotations
  import opened BoundaryConditions

  /** A 3 x 20 array, and the 3 x 3 x 20 directors array, of the scenarios. */
  predicate Shapes(position: array2<real>, directors: array3<real>, velocity: array2<real>, omega: array2<real>)
  {
    && position.Length0 == 3 && position.Length1 == 20
    && directors.Length0 == 3 && directors.Length1 == 3 && directors.Length2 == 20
    && velocity.Length0 == 3 && velocity.Length1 == 20
    && omega.Length0 == 3 && omega.Length1 == 20
    && position != velocity && position != omega && velocity != omega
  }

  /** A free rod changes nothing, whatever the arrays hold. */
  method TestFreeRod(position: array2<real>, directors: array3<real>, velocity: array2<real>, omega: array2<real>)
    requires Shapes(position, directors, velocity, omega)
    modifies position, directors, velocity, omega
    ensures Columns(position) == old(Columns(position)) && Frames(directors) == old(Frames(directors))
    ensures Columns(velocity) == old(Columns(velocity)) && Columns(omega) == old(Columns(omega))
  {
    var rod := new Rod(position, directors, velocity, omega);
    var freeRod := new FreeRod();
    ghost var before := rod.State();
    freeRod.ConstrainValues(rod, 0.0);
    assert Columns(position) == before.position && Frames(directors) == before.directors;
    freeRod.ConstrainRates(rod, 0.0);
    assert Columns(velocity) == before.velocity && Columns(omega) == before.omega;
  }

  /** A clamped start overwrites column 0 of the pose with the stored start
      pose, then column 0 of the rates with zero, and nothing else. */
  method TestOneEndFixedRod(position: array2<real>, directors: array3<real>, velocity: array2<real>, omega: array2<real>,
                            startPosition: Vec3, startDirectors: Mat3)
    requires Shapes(position, directors, velocity, omega)
    modifies position, directors, velocity, omega
    ensures Columns(position) == old(Columns(position))[0 := startPosition]
    ensures Frames(directors) == old(Frames(directors))[0 := startDirectors]
    ensures Columns(velocity) == old(Columns(velocity))[0 := Zero]
    ensures Columns(omega) == old(Columns(omega))[0 := Zero]
  {
    var fixedRod := new OneEndFixedRod(startPosition, startDirectors);
    var rod := new Rod(position, directors, velocity, omega);
    ghost var before := rod.State();
    fixedRod.ConstrainValues(rod, 0.0);
    assert Column(position, 0) == startPosition && Frame(directors, 0) == startDirectors;
    assert Columns(position) == before.position[0 := startPosition];
    assert Frames(directors) == before.directors[0 := startDirectors];
    fixedRod.ConstrainRates(rod, 0.0);
    assert Column(velocity, 0) == Zero && Column(omega, 0) == Zero;
    assert Columns(velocity) == before.velocity[0 := Zero];
    assert Columns(omega) == before.omega[0 := Zero];
  }

  /** The sine of 27 * pi as the scenario's expected matrices write it: the
      double-precision value rounded to nine significant digits. */
  const SinTheta: real := 6.85926004e-15

  /** The axis, with the reciprocal of the length named. */
  lemma AxisByReciprocal(positionStart: Vec3, positionEnd: Vec3, length: real, q: real)
    requires length > 0.0 && q == 1.0 / length
    ensures Axis(positionStart, positionEnd, length) == Scale(q, Sub(positionEnd, positionStart))
  {
  }

  /** The axis the helical BC derives for the scenario below. */
  lemma HelicalScenarioAxis()
    ensures Axis(Zero, Vec3(100.0, 0.0, 0.0), 100.0) == Vec3(1.0, 0.0, 0.0)
  {
    AxisByReciprocal(Zero, Vec3(100.0, 0.0, 0.0), 100.0, 0.01);
    assert Sub(Vec3(100.0, 0.0, 0.0), Zero) == Vec3(100.0, 0.0, 0.0);
  }

  /** The speeds the helical BC derives for the scenario below: 0.003, and
      27 * pi / 500, within numpy's default relative tolerance of the
      written 0.169646. */
  lemma HelicalScenarioSpeeds()
    ensures ShrinkSpeed(3.0, 500.0) == 0.003
    ensures SpinSpeed(27.0, 500.0) == Pi * 27.0 / 500.0
    ensures -0.0000001 * 0.169646 <= SpinSpeed(27.0, 500.0) - 0.169646 <= 0.0000001 * 0.169646
  {
  }

  /** The end positions the helical BC derives for the scenario below:
      1.5 and 98.5 on the x axis. */
  lemma HelicalScenarioPositions()
    ensures FinalStartPosition(Zero, 3.0, Vec3(1.0, 0.0, 0.0)) == Vec3(1.5, 0.0, 0.0)
    ensures FinalEndPosition(Vec3(100.0, 0.0, 0.0), 3.0, Vec3(1.0, 0.0, 0.0)) == Vec3(98.5, 0.0, 0.0)
  {
    assert 3.0 / 2.0 == 1.5;
    assert Scale(1.5, Vec3(1.0, 0.0, 0.0)) == Vec3(1.5, 0.0, 0.0);
  }

  /** The identity turned about x by the angle whose cosine is -1 and whose
      sine is taken as `s`. */
  lemma HalfTurnAboutX(s: real)
    ensures FinalStartDirectors(Identity, Vec3(1.0, 0.0, 0.0), -1.0, s)
         == Mat3(Vec3(1.0, 0.0, 0.0), Vec3(0.0, -1.0, -s), Vec3(0.0, s, -1.0))
  {
    var r := Rotation(Vec3(1.0, 0.0, 0.0), -1.0, s);
    assert r == Mat3(Vec3(1.0, 0.0, 0.0), Vec3(0.0, -1.0, -s), Vec3(0.0, s, -1.0));
    MatMulIdentity(r);
  }

  /** The end frames the helical BC derives for the scenario below: the
      identity turned by +theta and by -theta about x. */
  lemma HelicalScenarioFrames()
    ensures FinalStartDirectors(Identity, Vec3(1.0, 0.0, 0.0), -1.0, SinTheta)
         == Mat3(Vec3(1.0, 0.0, 0.0), Vec3(0.0, -1.0, -SinTheta), Vec3(0.0, SinTheta, -1.0))
    ensures FinalEndDirectors(Identity, Vec3(1.0, 0.0, 0.0), -1.0, SinTheta)
         == Mat3(Vec3(1.0, 0.0, 0.0), Vec3(0.0, -1.0, SinTheta), Vec3(0.0, -SinTheta, -1.0))
  {
    HalfTurnAboutX(SinTheta);
    HalfTurnAboutX(-SinTheta);
    assert FinalEndDirectors(Identity, Vec3(1.0, 0.0, 0.0), -1.0, SinTheta)
        == FinalStartDirectors(Identity, Vec3(1.0, 0.0, 0.0), -1.0, -SinTheta);
  }

  /** Builds the helical BC of the scenario below from copies of the rod's
      end columns, and names the constants it derives. cos of 27 * pi is
      passed as its double-precision value, -1, and sin as the rounded
      6.85926004e-15 the scenario's matrices carry, which produces exactly
      the small off-diagonal terms the scenario expects. */
  method NewScenarioBC(positionStart: Vec3, positionEnd: Vec3, directorStart: Mat3, directorEnd: Mat3)
    returns (bc: HelicalBucklingBC)
    requires positionStart == Zero && positionEnd == Vec3(100.0, 0.0, 0.0)
    requires directorStart == Identity && directorEnd == Identity
    ensures bc.twistingTime == 500.0
    ensures bc.shrinkVelocity == Vec3(0.003, 0.0, 0.0)
    ensures bc.spinVelocity == Vec3(Pi * 27.0 / 500.0, 0.0, 0.0)
    ensures -0.0000001 * 0.169646 <= bc.spinVelocity.x - 0.169646 <= 0.0000001 * 0.169646
    ensures bc.finalStartPosition == Vec3(1.5, 0.0, 0.0) && bc.finalEndPosition == Vec3(98.5, 0.0, 0.0)
    ensures bc.finalStartDirectors == Mat3(Vec3(1.0, 0.0, 0.0), Vec3(0.0, -1.0, -SinTheta), Vec3(0.0, SinTheta, -1.0))
    ensures bc.finalEndDirectors == Mat3(Vec3(1.0, 0.0, 0.0), Vec3(0.0, -1.0, SinTheta), Vec3(0.0, -SinTheta, -1.0))
  {
    bc := new HelicalBucklingBC(positionStart, positionEnd, directorStart, directorEnd,
                                500.0, 3.0, 27.0, 100.0, -1.0, SinTheta);
    HelicalScenarioAxis();
    HelicalScenarioSpeeds();
    HelicalScenarioPositions();
    HelicalScenarioFrames();
  }

  /** Puts the scenario's ends into a rod with arbitrary contents: positions
      (0,0,0) and (100,0,0), identity frames, all else as it was. */
  method SetUpHelicalRod(position: array2<real>, directors: array3<real>)
    requires position.Length0 == 3 && position.Length1 == 20
    requires directors.Length0 == 3 && directors.Length1 == 3 && directors.Length2 == 20
    modifies position, directors
    ensures Column(position, 0) == Zero && Column(position, 19) == Vec3(100.0, 0.0, 0.0)
    ensures Frame(directors, 0) == Identity && Frame(directors, 19) == Identity
    ensures forall k :: 0 < k < 19 ==> Columns(position)[k] == old(Columns(position))[k]
    ensures forall k :: 0 < k < 19 ==> Frames(directors)[k] == old(Frames(directors))[k]
  {
    SetColumn(position, 0, Zero);
    SetColumn(position, 19, Vec3(100.0, 0.0, 0.0));
    SetFrame(directors, 0, Identity);
    SetFrame(directors, 19, Identity);
  }

  /** The helical buckling scenario: a rod whose ends are at (0,0,0) and
      (100,0,0) with identity frames, twisting time 500, slack 3 and 27
      rotations. */
  method TestHelicalBucklingBC(position: array2<real>, directors: array3<real>, velocity: array2<real>, omega: array2<real>)
    requires Shapes(position, directors, velocity, omega)
    requires Column(position, 0) == Zero && Column(position, 19) == Vec3(100.0, 0.0, 0.0)
    requires Frame(directors, 0) == Identity && Frame(directors, 19) == Identity
    modifies position, directors, velocity, omega
    ensures Column(position, 0) == Vec3(1.5, 0.0, 0.0) && Column(position, 19) == Vec3(98.5, 0.0, 0.0)
    ensures Frame(directors, 0) == Mat3(Vec3(1.0, 0.0, 0.0), Vec3(0.0, -1.0, -SinTheta), Vec3(0.0, SinTheta, -1.0))
    ensures Frame(directors, 19) == Mat3(Vec3(1.0, 0.0, 0.0), Vec3(0.0, -1.0, SinTheta), Vec3(0.0, -SinTheta, -1.0))
    ensures Column(velocity, 0) == Zero && Column(velocity, 19) == Zero
    ensures Column(omega, 0) == Zero && Column(omega, 19) == Zero
    ensures forall k :: 0 < k < 19 ==> Columns(position)[k] == old(Columns(position))[k]
    ensures forall k :: 0 < k < 19 ==> Frames(directors)[k] == old(Frames(directors))[k]
    ensures forall k :: 0 < k < 19 ==> Columns(velocity)[k] == old(Columns(velocity))[k]
    ensures forall k :: 0 < k < 19 ==> Columns(omega)[k] == old(Columns(omega))[k]
  {
    var rod := new Rod(position, directors, velocity, omega);
    var bc := NewScenarioBC(Column(position, 0), Column(position, 19), Frame(directors, 0), Frame(directors, 19));
    ghost var before := rod.State();

    // twisting phase
    bc.ConstrainRates(rod, 499.0);
    assert Column(velocity, 0) == Vec3(0.003, 0.0, 0.0);
    assert Column(velocity, 19) == Neg(Vec3(0.003, 0.0, 0.0));
    assert Column(omega, 0) == bc.spinVelocity && Column(omega, 19) == Neg(bc.spinVelocity);
    assert forall k :: 0 < k < 19 ==> Columns(velocity)[k] == before.velocity[k] && Columns(omega)[k] == before.omega[k];

    // released phase
    bc.ConstrainRates(rod, 501.0);
    assert Column(velocity, 0) == Zero && Column(velocity, 19) == Zero;
    assert Column(omega, 0) == Zero && Column(omega, 19) == Zero;
    assert forall k :: 0 < k < 19 ==> Columns(velocity)[k] == before.velocity[k] && Columns(omega)[k] == before.omega[k];

    // imposed pose
    bc.ConstrainValues(rod, 501.0);
    assert Column(position, 0) == Vec3(1.5, 0.0, 0.0);
    assert Column(position, 19) == Vec3(98.5, 0.0, 0.0);
    assert Frame(directors, 0) == Mat3(Vec3(1.0, 0.0, 0.0), Vec3(0.0, -1.0, -SinTheta), Vec3(0.0, SinTheta, -1.0));
    assert Frame(directors, 19) == Mat3(Vec3(1.0, 0.0, 0.0), Vec3(0.0, -1.0, SinTheta), Vec3(0.0, -SinTheta, -1.0));
    assert forall k :: 0 < k < 19 ==> Columns(position)[k] == before.position[k] && Frames(directors)[k] == before.directors[k];
  }
}
