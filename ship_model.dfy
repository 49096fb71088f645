/** The control and dynamics state machine of pyobjs/Spaceship.py, as pure transitions on the
    ship's state. The class Ships.Spaceship is proved to follow these transitions. */
module ShipModel {
  import opened Util

  const RACC: real := 0.001  // rotation acceleration
  const RMAX: real := 0.1    // largest rotation rate
  const RIGHT: int := 1
  const LEFT: int := -1
  const PACC: real := 0.01   // positional acceleration
  const THF: int := 1        // thrust forward
  const THB: int := -1       // thrust back
  const TOL: real := 0.01    // speed below which the brake stops the ship
  const ROLL: nat := 0
  const PITCH: nat := 1
  const YAW: nat := 2
  /** The value of thrusting while the opposite (braking) thrust is on; the source writes 2. */
  const BRAKE: int := 2

  const ZERO: Vec3 := [0.0, 0.0, 0.0]

  /** An orientation quaternion, four components in the order of utils/quat.py. */
  type Quat = q: seq<real> | |q| == 4 witness [0.0, 1.0, 0.0, 0.0]

  /** The operations of utils/quat.py that the ship calls. That file is not part of this model,
      so they are parameters about which nothing is assumed. */
  datatype QuatLib = QuatLib(
    axisAngleToQ: (Vec3, real) -> Quat,
    normalizeQ: Quat -> Quat,
    qMult: (Quat, Quat) -> Quat,
    qvMult: (Quat, Vec3) -> Vec3,
    normalizeV: Vec3 -> Vec3)

  /** The per-axis control intent. The source stores these as string-tagged tuples ("STEADY",
      ("ROTSET", (axis, dir)), ("ROTRESET", axis)); here they are a closed enumeration. */
  datatype Intent = Steady | RotSet(axis: int, dir: int) | RotReset(axis: int)

  /** The intent stored at index i names axis i (setRot and resetRot store it so). */
  predicate TargetsAxis(a: Intent, i: int)
  {
    a.Steady? || a.axis == i
  }

  predicate Aligned(actions: seq<Intent>)
  {
    |actions| == 3 && forall i :: 0 <= i < 3 ==> TargetsAxis(actions[i], i)
  }

  /** Everything the Spaceship methods read or write. */
  datatype ShipState = ShipState(
    pos: Vec3, vel: Vec3, force: Vec3, orient: Quat,
    rpy: seq<real>, actions: seq<Intent>, thrusting: int, colr: real)

  predicate WellFormed(s: ShipState)
  {
    |s.rpy| == 3 && Aligned(s.actions)
  }

  /** Every rate lies within [-RMAX, RMAX]. */
  predicate RatesBounded(s: ShipState)
  {
    |s.rpy| == 3 && forall i :: 0 <= i < 3 ==> -RMAX <= s.rpy[i] <= RMAX
  }

  function Abs(x: real): real { if x < 0.0 then -x else x }

  /** np.sign on an integer. */
  function Sign(x: int): int { if x > 0 then 1 else if x < 0 then -1 else 0 }

  function MinReal(a: real, b: real): real { if a <= b then a else b }

  function MaxReal(a: real, b: real): real { if a >= b then a else b }

  // ---------------------------------------------------------------------------
  // Rotation rates
  // ---------------------------------------------------------------------------

  /** setRotCalc: one step of RACC in the direction of d, saturating at +-RMAX. */
  function SetRotStep(r: real, d: int): (r': real)
    ensures d > 0 ==> r' <= RMAX && r' <= r + d as real * RACC
    ensures d > 0 ==> r' == RMAX || r' == r + d as real * RACC
    ensures d < 0 ==> r' >= -RMAX && r' >= r + d as real * RACC
    ensures d < 0 ==> r' == -RMAX || r' == r + d as real * RACC
    ensures d == 0 ==> r' == r
  {
    if Sign(d) == 1 then MinReal(r + d as real * RACC, RMAX)
    else if Sign(d) == -1 then MaxReal(r + d as real * RACC, -RMAX)
    else r
  }

  /** resetRotCalc: one step of RACC toward zero, and any rate within RACC of zero becomes 0. */
  function ResetStep(r: real): (r': real)
    ensures r > 0.0 ==> 0.0 <= r' < r
    ensures r < 0.0 ==> r < r' <= 0.0
    ensures r == 0.0 ==> r' == 0.0
    ensures r' == 0.0 || Abs(r') == Abs(r) - RACC
    ensures r' == 0.0 || Abs(r') > RACC
    ensures r' == 0.0 <==> Abs(r) <= 2.0 * RACC
  {
    var stepped := if r > 0.0 then r - RACC else if r < 0.0 then r + RACC else r;
    if Abs(stepped) <= RACC then 0.0 else stepped
  }

  /** The rate after n calls of setRotCalc with direction d. */
  function SetRotIter(r: real, d: int, n: nat): real
    decreases n
  {
    if n == 0 then r else SetRotIter(SetRotStep(r, d), d, n - 1)
  }

  /** The rate after n calls of resetRotCalc. */
  function ResetIter(r: real, n: nat): real
    decreases n
  {
    if n == 0 then r else ResetIter(ResetStep(r), n - 1)
  }

  /** With a rate in [-RMAX, RMAX], setRotCalc keeps it there, whatever the direction, and
      moves it the way the direction points. */
  lemma SetRotKeepsBound(r: real, d: int)
    requires -RMAX <= r <= RMAX
    ensures -RMAX <= SetRotStep(r, d) <= RMAX
    ensures d > 0 ==> SetRotStep(r, d) >= r
    ensures d < 0 ==> SetRotStep(r, d) <= r
  {
  }

  /** setRotCalc to the left is setRotCalc to the right, mirrored. */
  lemma {:induction false} SetRotMirror(r: real, n: nat)
    ensures SetRotIter(-r, LEFT, n) == -SetRotIter(r, RIGHT, n)
    decreases n
  {
    if n != 0 {
      assert SetRotStep(-r, LEFT) == -SetRotStep(r, RIGHT);
      SetRotMirror(SetRotStep(r, RIGHT), n - 1);
    }
  }

  /** A rate at most k steps below RMAX reaches RMAX after k or more right steps, and stays. */
  lemma {:induction false} SetRotSaturatesRight(r: real, k: nat, n: nat)
    requires RMAX - k as real * RACC <= r <= RMAX
    requires n >= k
    ensures SetRotIter(r, RIGHT, n) == RMAX
    decreases n
  {
    if n != 0 {
      var k' := if k == 0 then 0 else k - 1;
      SetRotSaturatesRight(SetRotStep(r, RIGHT), k', n - 1);
    }
  }

  /** Holding a rotation key saturates the rate: from anywhere in [-RMAX, RMAX], 200 or more
      steps reach exactly d * RMAX, for either direction. */
  lemma SetRotSaturates(r: real, d: int, n: nat)
    requires -RMAX <= r <= RMAX
    requires d == RIGHT || d == LEFT
    requires n >= 200
    ensures SetRotIter(r, d, n) == d as real * RMAX
  {
    if d == RIGHT {
      SetRotSaturatesRight(r, 200, n);
    } else {
      SetRotSaturatesRight(-r, 200, n);
      SetRotMirror(-r, n);
    }
  }

  /** A rate within k steps of zero is exactly 0 after k or more resetRotCalc calls. */
  lemma {:induction false} ResetConverges(r: real, k: nat, n: nat)
    requires Abs(r) <= k as real * RACC
    requires n >= k
    ensures ResetIter(r, n) == 0.0
    decreases n
  {
    if n != 0 {
      var k' := if k == 0 then 0 else k - 1;
      ResetConverges(ResetStep(r), k', n - 1);
    }
  }

  /** From any rate in [-RMAX, RMAX] (RMAX itself included), RMAX / RACC = 100 resetRotCalc
      calls bring it to exactly 0, and further calls keep it there. */
  lemma ResetWithinHundred(r: real, n: nat)
    requires -RMAX <= r <= RMAX
    requires n >= 100
    ensures ResetIter(r, n) == 0.0
  {
    ResetConverges(r, 100, n);
  }

  /** The effect of one axis's intent on that axis's rate in adjust. */
  function AxisRate(a: Intent, r: real): real
  {
    match a
    case Steady => r
    case RotSet(_, d) => SetRotStep(r, d)
    case RotReset(_) => ResetStep(r)
  }

  /** One iteration of adjust's loop: the intent updates the rate of the axis it names. (A
      STEADY entry is the bare string "STEADY" in the source, whose first character matches
      neither "ROTSET" nor "ROTRESET", so nothing happens.) */
  function ApplyIntent(rpy: seq<real>, a: Intent): (r: seq<real>)
    requires |rpy| == 3 && (a.Steady? || 0 <= a.axis < 3)
    ensures |r| == 3
    ensures forall j :: 0 <= j < 3 && (a.Steady? || j != a.axis) ==> r[j] == rpy[j]
  {
    match a
    case Steady => rpy
    case RotSet(m, d) => rpy[m := SetRotStep(rpy[m], d)]
    case RotReset(m) => rpy[m := ResetStep(rpy[m])]
  }

  /** The rates after the first n iterations of adjust's loop. */
  function AdjustRatesUpTo(actions: seq<Intent>, rpy: seq<real>, n: nat): (r: seq<real>)
    requires Aligned(actions) && |rpy| == 3 && n <= 3
    ensures |r| == 3
  {
    if n == 0 then rpy else ApplyIntent(AdjustRatesUpTo(actions, rpy, n - 1), actions[n - 1])
  }

  function AdjustRates(actions: seq<Intent>, rpy: seq<real>): seq<real>
    requires Aligned(actions) && |rpy| == 3
  {
    AdjustRatesUpTo(actions, rpy, 3)
  }

  /** After n iterations, the axes already visited hold their intent's new rate and the others
      are untouched. */
  lemma {:induction false} AdjustRatesUpToAxes(actions: seq<Intent>, rpy: seq<real>, n: nat)
    requires Aligned(actions) && |rpy| == 3 && n <= 3
    ensures forall i :: 0 <= i < 3 ==>
      AdjustRatesUpTo(actions, rpy, n)[i] == if i < n then AxisRate(actions[i], rpy[i]) else rpy[i]
  {
    if n != 0 {
      AdjustRatesUpToAxes(actions, rpy, n - 1);
      assert TargetsAxis(actions[n - 1], n - 1);
    }
  }

  /** adjust treats each axis by its own intent: STEADY keeps the rate, ROTSET applies
      setRotCalc and ROTRESET applies resetRotCalc. */
  lemma AdjustRatesPerAxis(actions: seq<Intent>, rpy: seq<real>, i: int)
    requires Aligned(actions) && |rpy| == 3 && 0 <= i < 3
    ensures actions[i] == Steady ==> AdjustRates(actions, rpy)[i] == rpy[i]
    ensures actions[i].RotSet? ==> AdjustRates(actions, rpy)[i] == SetRotStep(rpy[i], actions[i].dir)
    ensures actions[i].RotReset? ==> AdjustRates(actions, rpy)[i] == ResetStep(rpy[i])
  {
    AdjustRatesUpToAxes(actions, rpy, 3);
  }

  // ---------------------------------------------------------------------------
  // Transitions of the ship state, one per Spaceship method
  // ---------------------------------------------------------------------------

  /** Spaceship.__init__: rates zero, every axis STEADY, no force, no velocity, no thrust, and
      a collision radius of two thirds of the mesh radius. */
  function Initial(pos: Vec3, orient: Quat, meshRadius: real): (s: ShipState)
    ensures WellFormed(s) && RatesBounded(s)
    ensures s.pos == pos && s.orient == orient
    ensures s.vel == ZERO && s.force == ZERO && s.thrusting == 0
    ensures forall i :: 0 <= i < 3 ==> s.actions[i] == Steady && s.rpy[i] == 0.0
    ensures 3.0 * s.colr == 2.0 * meshRadius
  {
    ShipState(pos, ZERO, ZERO, orient, [0.0, 0.0, 0.0], [Steady, Steady, Steady], 0,
              2.0 * meshRadius / 3.0)
  }

  /** setRot: a key-up makes the axis STEADY, a key-down records ROTSET(mode, d). */
  function SetRot(s: ShipState, mode: int, d: int, up: bool): (r: ShipState)
    requires WellFormed(s) && 0 <= mode < 3
    ensures WellFormed(r)
    ensures r.actions[mode] == if up then Steady else RotSet(mode, d)
    ensures forall j :: 0 <= j < 3 && j != mode ==> r.actions[j] == s.actions[j]
    ensures r.(actions := s.actions) == s
  {
    s.(actions := s.actions[mode := if up then Steady else RotSet(mode, d)])
  }

  /** resetRot: a key-up makes the axis STEADY, a key-down records ROTRESET(mode). */
  function ResetRot(s: ShipState, mode: int, up: bool): (r: ShipState)
    requires WellFormed(s) && 0 <= mode < 3
    ensures WellFormed(r)
    ensures r.actions[mode] == if up then Steady else RotReset(mode)
    ensures forall j :: 0 <= j < 3 && j != mode ==> r.actions[j] == s.actions[j]
    ensures r.(actions := s.actions) == s
  {
    s.(actions := s.actions[mode := if up then Steady else RotReset(mode)])
  }

  /** setThrust: a key-up drops the force and the thrust; a key-down sets the thrust mode and
      leaves the force for the next adjust. */
  function SetThrust(s: ShipState, mode: int, up: bool): (r: ShipState)
    ensures up ==> r.force == ZERO && r.thrusting == 0
    ensures !up ==> r.force == s.force && r.thrusting == mode
    ensures r.(force := s.force, thrusting := s.thrusting) == s
  {
    if up then s.(force := ZERO, thrusting := 0) else s.(thrusting := mode)
  }

  /** applyOppThrust: like setThrust, but a key-down selects the brake. */
  function ApplyOppThrust(s: ShipState, up: bool): (r: ShipState)
    ensures up ==> r.force == ZERO && r.thrusting == 0
    ensures !up ==> r.force == s.force && r.thrusting == BRAKE
    ensures r.(force := s.force, thrusting := s.thrusting) == s
  {
    if up then s.(force := ZERO, thrusting := 0) else s.(thrusting := BRAKE)
  }

  /** applyThrust: the force is added to the velocity. */
  function ApplyThrust(s: ShipState): (r: ShipState)
    ensures forall i :: 0 <= i < 3 ==> r.vel[i] == s.vel[i] + s.force[i]
    ensures r.(vel := s.vel) == s
  {
    s.(vel := AddVecs(s.force, s.vel))
  }

  /** applyVel: the velocity is added to the position. */
  function ApplyVel(s: ShipState): (r: ShipState)
    ensures forall i :: 0 <= i < 3 ==> r.pos[i] == s.pos[i] + s.vel[i]
    ensures r.(pos := s.pos) == s
  {
    s.(pos := AddVecs(s.vel, s.pos))
  }

  /** getHeading: the ship's local +X axis rotated by its orientation. */
  function Heading(s: ShipState, lib: QuatLib): Vec3
  {
    lib.qvMult(s.orient, [1.0, 0.0, 0.0])
  }

  /** The force of a forward, backward or absent thrust: PACC * sign(thrusting) * heading. */
  function ThrustForce(thrusting: int, heading: Vec3): (f: Vec3)
    ensures thrusting == 0 ==> f == ZERO
    ensures thrusting > 0 ==> f == ScalarMult(PACC, heading)
    ensures thrusting < 0 ==> f == ScalarMult(-PACC, heading)
  {
    var f := ScalarMult(Sign(thrusting) as real * PACC, heading);
    assert thrusting == 0 ==> f == ZERO by {
      if thrusting == 0 {
        assert forall i :: 0 <= i < 3 ==> f[i] == 0.0 * heading[i] == 0.0;
      }
    }
    f
  }

  /** adjust: the rates follow the intents; then the brake either stops a ship slower than TOL
      outright or pushes against the velocity with PACC * normalize(-vel); any other mode
      pushes along the heading. */
  function Adjust(s: ShipState, lib: QuatLib): (r: ShipState)
    requires WellFormed(s)
    ensures WellFormed(r)
    ensures r.rpy == AdjustRates(s.actions, s.rpy)
    ensures s.thrusting == BRAKE && SqMag(s.vel) <= TOL * TOL ==> r.vel == ZERO && r.force == ZERO
    ensures s.thrusting == BRAKE && SqMag(s.vel) > TOL * TOL ==>
      r.vel == s.vel && r.force == ScalarMult(PACC, lib.normalizeV(ScalarMult(-1.0, s.vel)))
    ensures s.thrusting != BRAKE ==> r.vel == s.vel && r.force == ThrustForce(s.thrusting, Heading(s, lib))
    ensures r.(rpy := s.rpy, force := s.force, vel := s.vel) == s
  {
    var s1 := s.(rpy := AdjustRates(s.actions, s.rpy));
    if s.thrusting == BRAKE then
      if SqMag(s.vel) <= TOL * TOL then s1.(force := ZERO, vel := ZERO)
      else s1.(force := ScalarMult(PACC, lib.normalizeV(ScalarMult(-1.0, s.vel))))
    else
      s1.(force := ScalarMult(Sign(s.thrusting) as real * PACC, Heading(s, lib)))
  }

  /** One rotation of rotate: composes the normalised axis-angle quaternion onto q, skipped
      when the rate is exactly zero. */
  function RotateAbout(q: Quat, axis: Vec3, angle: real, lib: QuatLib): Quat
  {
    if angle != 0.0 then lib.qMult(q, lib.normalizeQ(lib.axisAngleToQ(axis, angle))) else q
  }

  /** rotate: roll about X, then the PITCH rate about Z, then the YAW rate about Y, in that
      order. Only the orientation changes. */
  function Rotate(s: ShipState, lib: QuatLib): (r: ShipState)
    requires |s.rpy| == 3
    ensures r.(orient := s.orient) == s
    ensures s.rpy == [0.0, 0.0, 0.0] ==> r == s
  {
    var q1 := RotateAbout(s.orient, [1.0, 0.0, 0.0], s.rpy[ROLL], lib);
    var q2 := RotateAbout(q1, [0.0, 0.0, 1.0], s.rpy[PITCH], lib);
    var q3 := RotateAbout(q2, [0.0, 1.0, 0.0], s.rpy[YAW], lib);
    s.(orient := q3)
  }

  /** The simulation part of render, in its order: applyVel, adjust, rotate, applyThrust. */
  function Tick(s: ShipState, lib: QuatLib): (r: ShipState)
    requires WellFormed(s)
    ensures WellFormed(r)
  {
    ApplyThrust(Rotate(Adjust(ApplyVel(s), lib), lib))
  }

  // ---------------------------------------------------------------------------
  // Properties of a tick
  // ---------------------------------------------------------------------------

  /** The position advances by the velocity from before this tick's force is added, and the
      new velocity is that velocity plus this tick's force, computed from the heading before
      this tick's rotation. */
  lemma TickMotion(s: ShipState, lib: QuatLib)
    requires WellFormed(s)
    ensures Tick(s, lib).pos == AddVecs(s.vel, s.pos)
    ensures s.thrusting != BRAKE ==>
      Tick(s, lib).vel == AddVecs(ThrustForce(s.thrusting, Heading(s, lib)), s.vel)
    ensures s.thrusting != BRAKE ==> Tick(s, lib).force == ThrustForce(s.thrusting, Heading(s, lib))
  {
  }

  /** With no thrust the ship coasts: the force is zero and the velocity is unchanged. */
  lemma CoastingKeepsVelocity(s: ShipState, lib: QuatLib)
    requires WellFormed(s) && s.thrusting == 0
    ensures Tick(s, lib).force == ZERO
    ensures Tick(s, lib).vel == s.vel
  {
    TickMotion(s, lib);
    assert AddVecs(ZERO, s.vel) == s.vel;
  }

  /** The brake's stopping rule: once mag(vel) <= TOL, one tick leaves velocity and force
      exactly zero (the position still moves by the old velocity first). */
  lemma BrakeStops(s: ShipState, lib: QuatLib)
    requires WellFormed(s) && s.thrusting == BRAKE && SqMag(s.vel) <= TOL * TOL
    ensures Tick(s, lib).vel == ZERO && Tick(s, lib).force == ZERO
    ensures Tick(s, lib).pos == AddVecs(s.vel, s.pos)
  {
    assert AddVecs(ZERO, ZERO) == ZERO;
  }

  /** The test mag(vel) <= TOL of the source, for m the magnitude of vel, is the squared test
      the model uses. */
  lemma BrakeTestIsMagnitudeTest(v: seq<real>, m: real)
    requires m >= 0.0 && m * m == SqMag(v)
    ensures m <= TOL <==> SqMag(v) <= TOL * TOL
  {
    SquaresOrdered(m, TOL);
  }

  /** One component of a braking step: x + PACC * (-x / m) is x scaled by (m - PACC) / m. */
  lemma BrakeComponent(x: real, m: real)
    requires m > 0.0
    ensures PACC * (-1.0 / m * x) + x == (m - PACC) / m * x
  {
  }

  /** A braking step on the whole velocity, with normalize(-v) taken as -v / m. */
  lemma BrakeVelocity(v: Vec3, m: real)
    requires m > 0.0
    ensures AddVecs(ScalarMult(PACC, ScalarMult(-1.0 / m, v)), v) == ScalarMult((m - PACC) / m, v)
  {
    var f := ScalarMult(PACC, ScalarMult(-1.0 / m, v));
    var lhs, rhs := AddVecs(f, v), ScalarMult((m - PACC) / m, v);
    forall i | 0 <= i < 3 ensures lhs[i] == rhs[i] {
      BrakeComponent(v[i], m);
    }
  }

  /** ((m - PACC) / m)^2 * m^2 == (m - PACC)^2 */
  lemma ScaledSquare(k: real, m: real)
    requires m > 0.0 && k == (m - PACC) / m
    ensures k * k * (m * m) == (m - PACC) * (m - PACC)
  {
    assert k * m == m - PACC;
    assert k * k * (m * m) == (k * m) * (k * m);
  }

  /** Above TOL, and with normalize returning -vel / mag(vel), a braking tick scales the
      velocity by (m - PACC) / m, a factor in (0, 1): the speed drops by exactly PACC and the
      direction never reverses. */
  lemma BrakeSlows(s: ShipState, lib: QuatLib, m: real)
    requires WellFormed(s) && s.thrusting == BRAKE
    requires m > TOL && m * m == SqMag(s.vel)
    requires lib.normalizeV(ScalarMult(-1.0, s.vel)) == ScalarMult(-1.0 / m, s.vel)
    ensures Tick(s, lib).vel == ScalarMult((m - PACC) / m, s.vel)
    ensures 0.0 < (m - PACC) / m < 1.0
    ensures SqMag(Tick(s, lib).vel) == (m - PACC) * (m - PACC)
  {
    assert SqMag(s.vel) > TOL * TOL by {
      SquaresOrdered(TOL, m);
    }
    var a := Adjust(ApplyVel(s), lib);
    assert a.force == ScalarMult(PACC, ScalarMult(-1.0 / m, s.vel));
    assert Tick(s, lib).vel == AddVecs(a.force, s.vel);
    BrakeVelocity(s.vel, m);
    var k := (m - PACC) / m;
    SqMagScale(k, s.vel);
    ScaledSquare(k, m);
  }

  /** A STEADY axis keeps its rate through a whole tick. */
  lemma SteadyKeepsRate(s: ShipState, lib: QuatLib, i: int)
    requires WellFormed(s) && 0 <= i < 3 && s.actions[i] == Steady
    ensures Tick(s, lib).rpy[i] == s.rpy[i]
  {
    AdjustRatesPerAxis(s.actions, s.rpy, i);
  }

  /** Ticks keep every rate within [-RMAX, RMAX]. */
  lemma TickKeepsRatesBounded(s: ShipState, lib: QuatLib)
    requires WellFormed(s) && RatesBounded(s)
    ensures RatesBounded(Tick(s, lib))
  {
    forall i | 0 <= i < 3
      ensures -RMAX <= Tick(s, lib).rpy[i] <= RMAX
    {
      AdjustRatesPerAxis(s.actions, s.rpy, i);
      match s.actions[i]
      case Steady =>
      case RotSet(_, d) => SetRotKeepsBound(s.rpy[i], d);
      case RotReset(_) =>
    }
  }
}
