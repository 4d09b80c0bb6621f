/**
 * The UART reader's routing of each byte from the keyboard link: a
 * joystick-select code announces which stick the next data byte belongs
 * to, joystick data goes to that stick's queue, and everything else is
 * keyboard data, queued only when it will lead to an action.
 */
module Reader {
  import opened Keymap

  /** No joystick announced (joy_instance < 0). */
  const NoStick: int := -1

  /** A value joy_instance can hold. */
  predicate PendingOk(pending: int) {
    -1 <= pending <= 1
  }

  /** Where a byte goes. */
  datatype Route = ToKeyboard | ToJoystick(which: nat) | Nowhere

  /** The reader's next joy_instance and the route of the byte. */
  datatype Routed = Routed(pending: int, route: Route)

  /** NABU_CODE_JOY0 or NABU_CODE_JOY1. */
  predicate IsJoystickSelect(c: bv8) {
    c == CodeJoy0 || c == CodeJoy1
  }

  /** A keyboard byte worth queueing: it has a translation, or it is a
      link-control code. */
  predicate Accepted(c: bv8) {
    NabuToHid(c).c0 != 0 || IsLinkControl(c)
  }

  /** One pass of the reader loop for the byte `c`. */
  function Classify(pending: int, c: bv8): (r: Routed)
    requires PendingOk(pending)
    ensures PendingOk(r.pending)
    // a select code is remembered and queued nowhere
    ensures IsJoystickSelect(c) ==>
      r == Routed(if c == CodeJoy0 then 0 else 1, Nowhere)
    // a stick is remembered only right after its select code
    ensures r.pending != NoStick <==> IsJoystickSelect(c)
    // joystick data reaches the announced stick, and only that stick
    ensures r.route.ToJoystick? <==> IsJoystickData(c) && pending != NoStick
    ensures r.route.ToJoystick? ==> r.route.which as int == pending
    // every other byte reaches the keyboard queue exactly when accepted
    ensures r.route == ToKeyboard <==>
      !IsJoystickSelect(c) && !IsJoystickData(c) && Accepted(c)
  {
    if IsJoystickSelect(c) then
      Routed(if c & 1 == 0 then 0 else 1, Nowhere)
    else if IsJoystickData(c) then
      if pending < 0 then Routed(pending, Nowhere)
      else Routed(NoStick, ToJoystick(pending as nat))
    else
      Routed(NoStick, if Accepted(c) then ToKeyboard else Nowhere)
  }

  /** Which bytes the keyboard queue can receive: every link-control
      code, and otherwise only character codes with a translation and
      the special keys at 0xe0 and above. */
  lemma AcceptedBytes(c: bv8)
    ensures Accepted(c) && !IsLinkControl(c) ==> c < 0x80 || c >= 0xe0
    ensures IsLinkControl(c) ==> Accepted(c)
  {
    if 0x80 <= c < 0xe0 {
      assert NabuToHid(c) == Unassigned;
    }
  }

  /** A select code followed by a data byte delivers the data to the
      stick it names, and leaves nothing pending. */
  lemma SelectThenData(pending: int, sel: bv8, data: bv8)
    requires PendingOk(pending) && IsJoystickSelect(sel) && IsJoystickData(data)
    ensures var r1 := Classify(pending, sel);
      var r2 := Classify(r1.pending, data);
      && r1.route == Nowhere
      && r2 == Routed(NoStick, ToJoystick(if sel == CodeJoy0 then 0 else 1))
  {
  }

  /** Joystick data without a select code before it is dropped. */
  lemma StrayDataDropped(data: bv8)
    requires IsJoystickData(data)
    ensures Classify(NoStick, data) == Routed(NoStick, Nowhere)
  {
  }
}
