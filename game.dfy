/** game.py: the key table U_KEYS and handleKeyEvent, which turns a key press or release into a
    call on the ship or a change of the current camera view. */
module Game {
  import opened Errors
  import opened Util
  import opened ShipModel
  import opened Ships

  /** The logical controls named in U_KEYS. */
  datatype Control =
    | RollLeft | RollRight | RollCenter
    | PitchLeft | PitchRight | PitchCenter
    | YawLeft | YawRight | YawCenter
    | ThrustUp | ThrustDown | ThrustCenter
    | ViewFrontLeft | ViewBackRight | ViewTop | ViewStatic | ViewOrbit

  /** The camera views that CURVIEW selects among. */
  datatype View = BackRight | FrontLeft | Top | Static | Orbit

  /** U_KEYS: the pygame key code of each control. */
  function KeyCode(c: Control): int
  {
    match c
    case RollLeft => 97        // A
    case RollRight => 100      // D
    case RollCenter => 102     // F
    case PitchLeft => 119      // W
    case PitchRight => 115     // S
    case PitchCenter => 50     // 2
    case YawLeft => 101        // E
    case YawRight => 113       // Q
    case YawCenter => 114      // R
    case ThrustUp => 273       // up arrow
    case ThrustDown => 274     // down arrow
    case ThrustCenter => 32    // space bar
    case ViewFrontLeft => 117  // U
    case ViewBackRight => 108  // L
    case ViewTop => 105        // I
    case ViewStatic => 107     // K
    case ViewOrbit => 111      // O
  }

  /** The dictionary handleKeyEvent builds from U_KEYS, looked up with .get: the control whose
      handler a key code selects, if any. */
  function ControlOf(key: int): (r: Option<Control>)
    ensures r.Some? ==> KeyCode(r.value) == key
    ensures r.None? ==> forall c: Control :: KeyCode(c) != key
  {
    if key == KeyCode(RollLeft) then Some(RollLeft)
    else if key == KeyCode(RollRight) then Some(RollRight)
    else if key == KeyCode(RollCenter) then Some(RollCenter)
    else if key == KeyCode(PitchLeft) then Some(PitchLeft)
    else if key == KeyCode(PitchRight) then Some(PitchRight)
    else if key == KeyCode(PitchCenter) then Some(PitchCenter)
    else if key == KeyCode(YawLeft) then Some(YawLeft)
    else if key == KeyCode(YawRight) then Some(YawRight)
    else if key == KeyCode(YawCenter) then Some(YawCenter)
    else if key == KeyCode(ThrustUp) then Some(ThrustUp)
    else if key == KeyCode(ThrustDown) then Some(ThrustDown)
    else if key == KeyCode(ThrustCenter) then Some(ThrustCenter)
    else if key == KeyCode(ViewBackRight) then Some(ViewBackRight)
    else if key == KeyCode(ViewFrontLeft) then Some(ViewFrontLeft)
    else if key == KeyCode(ViewTop) then Some(ViewTop)
    else if key == KeyCode(ViewStatic) then Some(ViewStatic)
    else if key == KeyCode(ViewOrbit) then Some(ViewOrbit)
    else None
  }

  /** Looking up a control's own key code finds that control. */
  lemma ControlOfKeyCode(c: Control)
    ensures ControlOf(KeyCode(c)) == Some(c)
  {
  }

  /** The seventeen key codes are pairwise distinct, so each selects exactly one handler. */
  lemma KeyCodesDistinct(c1: Control, c2: Control)
    requires c1 != c2
    ensures KeyCode(c1) != KeyCode(c2)
  {
    ControlOfKeyCode(c1);
    ControlOfKeyCode(c2);
  }

  /** The handler closure of one control, called with the key-up flag. rc calls resetRot
      without passing the flag on, so a release of the roll-centre key is treated as a press. */
  function Handle(c: Control, s: ShipState, v: View, up: bool): (ShipState, View)
    requires WellFormed(s)
  {
    match c
    case RollLeft => (SetRot(s, ROLL, LEFT, up), v)
    case RollRight => (SetRot(s, ROLL, RIGHT, up), v)
    case RollCenter => (ResetRot(s, ROLL, false), v)
    case PitchLeft => (SetRot(s, PITCH, LEFT, up), v)
    case PitchRight => (SetRot(s, PITCH, RIGHT, up), v)
    case PitchCenter => (ResetRot(s, PITCH, up), v)
    case YawLeft => (SetRot(s, YAW, LEFT, up), v)
    case YawRight => (SetRot(s, YAW, RIGHT, up), v)
    case YawCenter => (ResetRot(s, YAW, up), v)
    case ThrustUp => (SetThrust(s, THF, up), v)
    case ThrustDown => (SetThrust(s, THB, up), v)
    case ThrustCenter => (ApplyOppThrust(s, up), v)
    case ViewBackRight => (s, if up then v else BackRight)
    case ViewFrontLeft => (s, if up then v else FrontLeft)
    case ViewTop => (s, if up then v else Top)
    case ViewStatic => (s, if up then v else Static)
    case ViewOrbit => (s, if up then v else Orbit)
  }

  /** handleKeyEvent on the ship's state and CURVIEW. */
  function KeyEffect(s: ShipState, v: View, key: int, up: bool): (r: (ShipState, View))
    requires WellFormed(s)
    ensures WellFormed(r.0)
  {
    match ControlOf(key)
    case None => (s, v)
    case Some(c) => Handle(c, s, v, up)
  }

  /** A key code outside the table changes neither the ship nor the view. */
  lemma UnknownKeyNoEffect(s: ShipState, v: View, key: int, up: bool)
    requires WellFormed(s)
    requires forall c: Control :: KeyCode(c) != key
    ensures KeyEffect(s, v, key, up) == (s, v)
  {
  }

  /** A rotation key pressed records ROTSET for its axis and direction; released, it makes the
      axis STEADY. The other axes and the view are untouched. */
  lemma RotationKeys(s: ShipState, v: View, up: bool)
    requires WellFormed(s)
    ensures KeyEffect(s, v, KeyCode(RollLeft), up) == (SetRot(s, ROLL, LEFT, up), v)
    ensures KeyEffect(s, v, KeyCode(RollRight), up) == (SetRot(s, ROLL, RIGHT, up), v)
    ensures KeyEffect(s, v, KeyCode(PitchLeft), up) == (SetRot(s, PITCH, LEFT, up), v)
    ensures KeyEffect(s, v, KeyCode(PitchRight), up) == (SetRot(s, PITCH, RIGHT, up), v)
    ensures KeyEffect(s, v, KeyCode(YawLeft), up) == (SetRot(s, YAW, LEFT, up), v)
    ensures KeyEffect(s, v, KeyCode(YawRight), up) == (SetRot(s, YAW, RIGHT, up), v)
    ensures KeyEffect(s, v, KeyCode(RollLeft), up).0.actions[ROLL] ==
      if up then Steady else RotSet(ROLL, LEFT)
    ensures KeyEffect(s, v, KeyCode(YawRight), up).0.actions[YAW] ==
      if up then Steady else RotSet(YAW, RIGHT)
  {
  }

  /** The centre keys: pressed, each records ROTRESET for its axis. Released, pitch- and
      yaw-centre make the axis STEADY, but roll-centre records ROTRESET again, because its
      handler drops the key-up flag. */
  lemma CenterKeys(s: ShipState, v: View, up: bool)
    requires WellFormed(s)
    ensures KeyEffect(s, v, KeyCode(RollCenter), up) == (ResetRot(s, ROLL, false), v)
    ensures KeyEffect(s, v, KeyCode(PitchCenter), up) == (ResetRot(s, PITCH, up), v)
    ensures KeyEffect(s, v, KeyCode(YawCenter), up) == (ResetRot(s, YAW, up), v)
    ensures KeyEffect(s, v, KeyCode(RollCenter), up).0.actions[ROLL] == RotReset(ROLL)
    ensures KeyEffect(s, v, KeyCode(PitchCenter), up).0.actions[PITCH] ==
      if up then Steady else RotReset(PITCH)
    ensures KeyEffect(s, v, KeyCode(YawCenter), up).0.actions[YAW] ==
      if up then Steady else RotReset(YAW)
  {
  }

  /** Thrust keys: pressed, up and down arrows set thrusting to 1 and -1 and space to the brake,
      leaving the force as it was; any release sets thrusting to 0 and the force to zero. */
  lemma ThrustKeys(s: ShipState, v: View)
    requires WellFormed(s)
    ensures KeyEffect(s, v, KeyCode(ThrustUp), false) == (s.(thrusting := THF), v)
    ensures KeyEffect(s, v, KeyCode(ThrustDown), false) == (s.(thrusting := THB), v)
    ensures KeyEffect(s, v, KeyCode(ThrustCenter), false) == (s.(thrusting := BRAKE), v)
    ensures KeyEffect(s, v, KeyCode(ThrustUp), true) == (s.(thrusting := 0, force := ZERO), v)
    ensures KeyEffect(s, v, KeyCode(ThrustDown), true) == (s.(thrusting := 0, force := ZERO), v)
    ensures KeyEffect(s, v, KeyCode(ThrustCenter), true) == (s.(thrusting := 0, force := ZERO), v)
  {
  }

  /** View keys change only the view, and only when pressed; a release changes nothing. */
  lemma ViewKeys(s: ShipState, v: View)
    requires WellFormed(s)
    ensures KeyEffect(s, v, KeyCode(ViewBackRight), false) == (s, BackRight)
    ensures KeyEffect(s, v, KeyCode(ViewFrontLeft), false) == (s, FrontLeft)
    ensures KeyEffect(s, v, KeyCode(ViewTop), false) == (s, Top)
    ensures KeyEffect(s, v, KeyCode(ViewStatic), false) == (s, Static)
    ensures KeyEffect(s, v, KeyCode(ViewOrbit), false) == (s, Orbit)
    ensures KeyEffect(s, v, KeyCode(ViewBackRight), true) == (s, v)
    ensures KeyEffect(s, v, KeyCode(ViewFrontLeft), true) == (s, v)
    ensures KeyEffect(s, v, KeyCode(ViewTop), true) == (s, v)
    ensures KeyEffect(s, v, KeyCode(ViewStatic), true) == (s, v)
    ensures KeyEffect(s, v, KeyCode(ViewOrbit), true) == (s, v)
  {
  }

  predicate IsViewControl(c: Control)
  {
    c.ViewFrontLeft? || c.ViewBackRight? || c.ViewTop? || c.ViewStatic? || c.ViewOrbit?
  }

  /** Only the view keys change the view. */
  lemma ShipKeysKeepView(s: ShipState, v: View, key: int, up: bool)
    requires WellFormed(s)
    requires ControlOf(key).Some? ==> !IsViewControl(ControlOf(key).value)
    ensures KeyEffect(s, v, key, up).1 == v
  {
  }

  /** The game's mutable input state: the global CURVIEW. */
  class GameState {
    var curView: View

    constructor ()
      ensures curView == BackRight
    {
      curView := BackRight;
    }

    /** handleKeyEvent, with the event given as its key code and whether it is a key release. */
    method HandleKeyEvent(ship: Spaceship, key: int, up: bool)
      requires ship.Valid()
      modifies this, ship
      ensures ship.Valid()
      ensures (ship.State(), curView) == KeyEffect(old(ship.State()), old(curView), key, up)
    {
      match ControlOf(key)
      case None =>
      case Some(c) =>
        match c
        case RollLeft => ship.SetRot(ROLL, LEFT, up);
        case RollRight => ship.SetRot(ROLL, RIGHT, up);
        case RollCenter => ship.ResetRot(ROLL, false);
        case PitchLeft => ship.SetRot(PITCH, LEFT, up);
        case PitchRight => ship.SetRot(PITCH, RIGHT, up);
        case PitchCenter => ship.ResetRot(PITCH, up);
        case YawLeft => ship.SetRot(YAW, LEFT, up);
        case YawRight => ship.SetRot(YAW, RIGHT, up);
        case YawCenter => ship.ResetRot(YAW, up);
        case ThrustUp => ship.SetThrust(THF, up);
        case ThrustDown => ship.SetThrust(THB, up);
        case ThrustCenter => ship.ApplyOppThrust(up);
        case ViewBackRight => if !up { curView := BackRight; }
        case ViewFrontLeft => if !up { curView := FrontLeft; }
        case ViewTop => if !up { curView := Top; }
        case ViewStatic => if !up { curView := Static; }
        case ViewOrbit => if !up { curView := Orbit; }
    }
  }
}
