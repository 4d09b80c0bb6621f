/**
 * The joystick half of the adapter: a joystick data byte (1 0 1 F U R D
 * L) becomes a gamepad report with a hat switch position and button A.
 */
module Joystick {

  /** Direction and fire bits of a joystick data byte. */
  const JoyLeft: bv8 := 0x01
  const JoyDown: bv8 := 0x02
  const JoyRight: bv8 := 0x04
  const JoyUp: bv8 := 0x08
  const JoyFire: bv8 := 0x10
  const JoyDirMask: bv8 := 0x0f

  /** Hat switch positions of the HID gamepad report. */
  const HatCentered: bv8 := 0
  const HatUp: bv8 := 1
  const HatUpRight: bv8 := 2
  const HatRight: bv8 := 3
  const HatDownRight: bv8 := 4
  const HatDown: bv8 := 5
  const HatDownLeft: bv8 := 6
  const HatLeft: bv8 := 7
  const HatUpLeft: bv8 := 8

  /** The first gamepad button. */
  const ButtonA: bv8 := 0x01

  /** joy_to_dpad: the hat position for each combination of the four
      direction bits; combinations a real stick cannot produce are
      centered. */
  function JoyToDpad(dir: bv8): (hat: bv8)
    requires dir <= JoyDirMask
    ensures hat <= HatUpLeft
  {
    match dir
    case 0x08 => HatUp
    case 0x0c => HatUpRight
    case 0x04 => HatRight
    case 0x06 => HatDownRight
    case 0x02 => HatDown
    case 0x03 => HatDownLeft
    case 0x01 => HatLeft
    case 0x09 => HatUpLeft
    case _ => HatCentered
  }

  /** A gamepad report as this firmware fills it (axes are always 0). */
  datatype GamepadReport = GamepadReport(hat: bv8, buttons: bv8)

  /** The report a stick at rest produces, used to clear the host's
      state after a power cycle. */
  const NeutralReport := GamepadReport(HatCentered, 0)

  /** send_joy_report: the hat from the direction bits, button A from
      the fire bit. */
  function JoyReport(data: bv8): (r: GamepadReport)
    ensures r.buttons == (if data & JoyFire != 0 then ButtonA else 0)
    ensures r.hat <= HatUpLeft
  {
    GamepadReport(JoyToDpad(data & JoyDirMask), if data & JoyFire != 0 then ButtonA else 0)
  }

  /** The vertical component of a stick position: 1 up, -1 down. */
  function Vertical(data: bv8): int {
    (if data & JoyUp != 0 then 1 else 0) - (if data & JoyDown != 0 then 1 else 0)
  }

  /** The horizontal component of a stick position: 1 right, -1 left. */
  function Horizontal(data: bv8): int {
    (if data & JoyRight != 0 then 1 else 0) - (if data & JoyLeft != 0 then 1 else 0)
  }

  /** Whether two opposite directions are pressed at once. */
  predicate Opposed(data: bv8) {
    (data & (JoyLeft | JoyRight) == JoyLeft | JoyRight) ||
    (data & (JoyUp | JoyDown) == JoyUp | JoyDown)
  }

  /** The hat position of a movement, numbered clockwise from up as the
      HID gamepad usage does. */
  function Compass(v: int, h: int): (hat: bv8)
    requires -1 <= v <= 1 && -1 <= h <= 1
  {
    if v == 1 then (if h == 1 then HatUpRight else if h == 0 then HatUp else HatUpLeft)
    else if v == 0 then (if h == 1 then HatRight else if h == 0 then HatCentered else HatLeft)
    else (if h == 1 then HatDownRight else if h == 0 then HatDown else HatDownLeft)
  }

  /** The table agrees with the compass reading of every stick position,
      except that opposed directions are centered. */
  lemma JoyToDpadIsCompass(data: bv8)
    ensures JoyReport(data).hat ==
      if Opposed(data) then HatCentered else Compass(Vertical(data), Horizontal(data))
  {
    var dir := data & JoyDirMask;
    assert Opposed(data) <==> Opposed(dir);
    assert Vertical(data) == Vertical(dir) && Horizontal(data) == Horizontal(dir);
    assert dir <= 0x0f;
    // one case per direction pattern
    assert dir == 0 || dir == 1 || dir == 2 || dir == 3 || dir == 4 || dir == 5 ||
           dir == 6 || dir == 7 || dir == 8 || dir == 9 || dir == 10 || dir == 11 ||
           dir == 12 || dir == 13 || dir == 14 || dir == 15;
  }

  /** The hat is centered exactly when the stick is at rest or two
      opposite directions are pressed. */
  lemma CenteredIff(data: bv8)
    ensures JoyReport(data).hat == HatCentered <==>
      data & JoyDirMask == 0 || Opposed(data)
  {
    JoyToDpadIsCompass(data);
    assert data & JoyDirMask == 0 <==> Vertical(data) == 0 && Horizontal(data) == 0 && !Opposed(data);
  }

  /** The fire bit alone decides the buttons, and the direction bits
      alone decide the hat. */
  lemma FireIndependent(data: bv8)
    ensures JoyReport(data | JoyFire).hat == JoyReport(data & !JoyFire).hat
    ensures JoyReport(data | JoyFire).buttons == ButtonA
    ensures JoyReport(data & !JoyFire).buttons == 0
  {
    assert (data | JoyFire) & JoyDirMask == data & JoyDirMask;
    assert (data & !JoyFire) & JoyDirMask == data & JoyDirMask;
  }
}
