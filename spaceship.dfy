/** pyobjs/Spaceship.py: the ship object, whose methods update its fields in place. Each method
    is proved to perform the matching transition of ShipModel. */
module Ships {
  import opened Util
  import opened ShipModel

  class Spaceship {
    var pos: Vec3
    var vel: Vec3
    var force: Vec3
    var orient: Quat
    var rpy: seq<real>         // roll, pitch and yaw rates, updated by index
    var actions: seq<Intent>   // one control intent per axis, updated by index
    var thrusting: int         // -1 back, 0 none, 1 forward, 2 brake
    var colr: real

    /** The abstract value of the ship. */
    function State(): ShipState
      reads this
    {
      ShipState(pos, vel, force, orient, rpy, actions, thrusting, colr)
    }

    ghost predicate Valid()
      reads this
    {
      WellFormed(State())
    }

    /** Spaceship.__init__, with the mesh's bounding radius supplied by the caller. */
    constructor (pos: Vec3, orient: Quat, meshRadius: real)
      ensures Valid() && State() == Initial(pos, orient, meshRadius)
    {
      this.pos := pos;
      this.orient := orient;
      rpy := [0.0, 0.0, 0.0];
      actions := [Steady, Steady, Steady];
      force := ZERO;
      vel := ZERO;
      thrusting := 0;
      colr := 2.0 * meshRadius / 3.0;
    }

    method SetRot(mode: int, d: int, up: bool)
      requires Valid() && 0 <= mode < 3
      modifies this
      ensures Valid() && State() == ShipModel.SetRot(old(State()), mode, d, up)
    {
      if up {
        actions := actions[mode := Steady];
      } else {
        actions := actions[mode := RotSet(mode, d)];
      }
    }

    method ResetRot(mode: int, up: bool)
      requires Valid() && 0 <= mode < 3
      modifies this
      ensures Valid() && State() == ShipModel.ResetRot(old(State()), mode, up)
    {
      if up {
        actions := actions[mode := Steady];
      } else {
        actions := actions[mode := RotReset(mode)];
      }
    }

    method SetThrust(mode: int, up: bool)
      requires Valid()
      modifies this
      ensures Valid() && State() == ShipModel.SetThrust(old(State()), mode, up)
    {
      if up {
        force := ZERO;
        thrusting := 0;
      } else {
        thrusting := mode;
      }
    }

    method ApplyThrust()
      requires Valid()
      modifies this
      ensures Valid() && State() == ShipModel.ApplyThrust(old(State()))
    {
      vel := AddVecs(force, vel);
    }

    method ApplyOppThrust(up: bool)
      requires Valid()
      modifies this
      ensures Valid() && State() == ShipModel.ApplyOppThrust(old(State()), up)
    {
      if up {
        force := ZERO;
        thrusting := 0;
      } else {
        thrusting := BRAKE;
      }
    }

    method ApplyVel()
      requires Valid()
      modifies this
      ensures Valid() && State() == ShipModel.ApplyVel(old(State()))
    {
      pos := AddVecs(vel, pos);
    }

    method SetRotCalc(mode: int, d: int)
      requires Valid() && 0 <= mode < 3
      modifies this
      ensures Valid()
      ensures State() == old(State()).(rpy := old(rpy)[mode := SetRotStep(old(rpy)[mode], d)])
    {
      if Sign(d) == 1 {
        rpy := rpy[mode := MinReal(rpy[mode] + d as real * RACC, RMAX)];
      } else if Sign(d) == -1 {
        rpy := rpy[mode := MaxReal(rpy[mode] + d as real * RACC, -RMAX)];
      }
    }

    method ResetRotCalc(mode: int)
      requires Valid() && 0 <= mode < 3
      modifies this
      ensures Valid()
      ensures State() == old(State()).(rpy := old(rpy)[mode := ResetStep(old(rpy)[mode])])
    {
      if rpy[mode] > 0.0 {
        rpy := rpy[mode := rpy[mode] - RACC];
      } else if rpy[mode] < 0.0 {
        rpy := rpy[mode := rpy[mode] + RACC];
      }
      if Abs(rpy[mode]) <= RACC {
        rpy := rpy[mode := 0.0];
      }
    }

    method GetHeading(lib: QuatLib) returns (h: Vec3)
      ensures h == Heading(State(), lib)
    {
      h := lib.qvMult(orient, [1.0, 0.0, 0.0]);
    }

    method Adjust(lib: QuatLib)
      requires Valid()
      modifies this
      ensures Valid() && State() == ShipModel.Adjust(old(State()), lib)
    {
      // rotational acceleration, one axis at a time
      for i := 0 to 3
        invariant Valid()
        invariant rpy == AdjustRatesUpTo(actions, old(rpy), i)
        invariant State().(rpy := old(rpy)) == old(State())
      {
        match actions[i]
        case Steady =>
        case RotSet(m, d) => SetRotCalc(m, d);
        case RotReset(m) => ResetRotCalc(m);
      }
      // positional acceleration
      if thrusting == BRAKE {
        if SqMag(vel) <= TOL * TOL {
          force := ZERO;
          vel := ZERO;
        } else {
          force := ScalarMult(PACC, lib.normalizeV(ScalarMult(-1.0, vel)));
        }
      } else {
        var heading := GetHeading(lib);
        force := ScalarMult(Sign(thrusting) as real * PACC, heading);
      }
    }

    method Rotate(lib: QuatLib)
      requires Valid()
      modifies this
      ensures Valid() && State() == ShipModel.Rotate(old(State()), lib)
    {
      if rpy[ROLL] != 0.0 {
        var rotX := lib.normalizeQ(lib.axisAngleToQ([1.0, 0.0, 0.0], rpy[ROLL]));
        orient := lib.qMult(orient, rotX);
      }
      if rpy[PITCH] != 0.0 {
        var rotZ := lib.normalizeQ(lib.axisAngleToQ([0.0, 0.0, 1.0], rpy[PITCH]));
        orient := lib.qMult(orient, rotZ);
      }
      if rpy[YAW] != 0.0 {
        var rotY := lib.normalizeQ(lib.axisAngleToQ([0.0, 1.0, 0.0], rpy[YAW]));
        orient := lib.qMult(orient, rotY);
      }
    }

    /** The simulation steps of render, without the drawing: applyVel, adjust, rotate,
        applyThrust. */
    method Render(lib: QuatLib)
      requires Valid()
      modifies this
      ensures Valid() && State() == Tick(old(State()), lib)
    {
      ApplyVel();
      Adjust(lib);
      Rotate(lib);
      ApplyThrust();
    }
  }
}
