/**
 * The adapter's whole state as a value, and what each routine of the
 * firmware does to it: the report task that runs every 10 ms, the
 * keyboard health check and power cycling, the USB bus callbacks, the
 * LED task and one pass of the UART reader.  Clock readings are
 * parameters; `settle` is the clock reading after the 4-second pause
 * of a power cycle.
 */
module Firmware {
  import opened Wrappers
  import opened Clock
  import opened Keymap
  import Queue
  import opened Sequencer
  import opened Joystick
  import StatusLed
  import opened Reader

  /** What the host sees: a keyboard report, a gamepad report on one of
      the two joystick interfaces, or a remote-wakeup signal. */
  datatype Event = KbdSent(kbd: KbdReport) | JoySent(which: nat, joy: GamepadReport) | WakeupSent

  /** joy_context[i]: the stick's queue and its zombie flag. */
  datatype JoyCtx = JoyCtx(queue: seq<bv8>, zombie: bool)

  /** joy_context[0] and joy_context[1]. */
  datatype Sticks = Sticks(stick0: JoyCtx, stick1: JoyCtx) {
    function At(i: nat): JoyCtx
      requires i < 2
    {
      if i == 0 then stick0 else stick1
    }

    function With(i: nat, j: JoyCtx): (r: Sticks)
      requires i < 2
      ensures r.At(i) == j && r.At(1 - i) == At(1 - i)
    {
      if i == 0 then Sticks(j, stick1) else Sticks(stick0, j)
    }
  }

  /** The firmware's globals.  Queues are given by their contents. */
  datatype Machine = Machine(
    kbdQueue: seq<bv8>,
    kbd: KbdState,
    joy: Sticks,
    suspended: bool,
    mounted: bool,
    wantRemoteWakeup: bool,
    haveNabu: bool,
    kbdPower: bool,
    lastKbdMessage: Millis,
    deadcheckWarned: bool,
    hidStart: Millis,
    led: StatusLed.LedCtx,
    sent: seq<Event>)

  const ReportIntervalMs: Millis := 10
  const DeadcheckWarnMs: Millis := 5000
  const DeadcheckDeclareMs: Millis := 10000

  /** The shape every reachable state has. */
  predicate Valid(m: Machine) {
    && |m.kbdQueue| <= Queue.Capacity
    && |m.joy.At(0).queue| <= Queue.Capacity
    && |m.joy.At(1).queue| <= Queue.Capacity
    && CursorOk(m.kbd.next)
    && StatusLed.LedOk(m.led)
  }

  /** The state main leaves behind before its loop: queues empty, the
      keyboard powered, the LED showing "not mounted" from `now`. */
  function Initial(now: Millis): (m: Machine)
    ensures Valid(m) && m.kbdPower && !m.haveNabu && m.sent == []
    // both stick queues and the keyboard queue are empty, no stick is a zombie
    ensures m.kbdQueue == [] && m.joy == Sticks(JoyCtx([], false), JoyCtx([], false))
    ensures m.kbd == InitialKbd && !m.mounted && !m.suspended && !m.wantRemoteWakeup
    ensures !m.deadcheckWarned && m.lastKbdMessage == 0 && m.hidStart == 0
    // the LED starts on the not-mounted pattern, lit, at `now`
    ensures m.led == StatusLed.LedCtx(Some(StatusLed.NotMounted), 0, now, true)
  {
    Machine([], InitialKbd, Sticks(JoyCtx([], false), JoyCtx([], false)),
            false, false, false, false, true, 0, false, 0,
            StatusLed.LedCtx(Some(StatusLed.NotMounted), 0, now, true), [])
  }

  function Link(m: Machine): StatusLed.LinkState {
    StatusLed.LinkState(m.mounted, m.suspended, m.wantRemoteWakeup, m.haveNabu)
  }

  /** led_select_sequence on the machine. */
  function LedSelect(m: Machine, now: Millis): (r: Machine)
    requires Valid(m)
    ensures Valid(r) && r == m.(led := r.led)
    ensures r.led == StatusLed.Select(m.led, Link(m), now)
  {
    m.(led := StatusLed.Select(m.led, Link(m), now))
  }

  /** kbd_setpower: switching the keyboard off forgets that it was ever
      heard from and updates the LED. */
  function SetPower(m: Machine, enabled: bool, now: Millis): (r: Machine)
    requires Valid(m)
    ensures Valid(r) && r.kbdPower == enabled
    ensures enabled ==> r == m.(kbdPower := true)
    ensures !enabled ==> r == LedSelect(m.(kbdPower := false, haveNabu := false), now)
  {
    var m1 := m.(kbdPower := enabled);
    if enabled then m1 else LedSelect(m1.(haveNabu := false), now)
  }

  /** kbd_reboot: power the keyboard off, empty every queue, pretend a
      message arrived at `settle`, owe the host an empty report on every
      interface, and power the keyboard on again.  The keyboard stays
      unheard-from until it announces itself. */
  function Reboot(m: Machine, now: Millis, settle: Millis): (r: Machine)
    requires Valid(m)
    ensures Valid(r)
    ensures r.kbdPower && !r.haveNabu
    ensures r.kbdQueue == [] && r.joy == Sticks(JoyCtx([], true), JoyCtx([], true))
    ensures r.kbd == m.kbd.(zombie := true)
    ensures r.lastKbdMessage == settle
    ensures r.led == StatusLed.Select(m.led, Link(m).(haveNabu := false), now)
    ensures r.sent == m.sent && r.hidStart == m.hidStart && r.deadcheckWarned == m.deadcheckWarned
    ensures Link(r) == Link(m).(haveNabu := false)
  {
    var m1 := SetPower(m, false, now);
    var m2 := m1.(kbdQueue := [], joy := Sticks(JoyCtx([], true), JoyCtx([], true)),
                  lastKbdMessage := settle, kbd := m1.kbd.(zombie := true));
    SetPower(m2, true, now)
  }

  /** send_kbd_report for `code` under the sticky modifiers. */
  function SendKbd(m: Machine, code: bv16): (r: Machine)
    ensures r == m.(sent := r.sent)
    ensures AddsKbd(m.sent, r.sent) && |r.sent| == |m.sent| + 1
    ensures r.sent[|m.sent|] == KbdSent(Encode(code, m.kbd.modifiers))
  {
    m.(sent := m.sent + [KbdSent(Encode(code, m.kbd.modifiers))])
  }

  /** `after` is `before` with at most one keyboard report added. */
  predicate AddsKbd(before: seq<Event>, after: seq<Event>) {
    after == before ||
    (|after| == |before| + 1 && after[..|before|] == before && after[|before|].KbdSent?)
  }

  /** `after` is `before` with at most one report of stick `i` added. */
  predicate AddsJoy(before: seq<Event>, after: seq<Event>, i: nat) {
    after == before ||
    (|after| == |before| + 1 && after[..|before|] == before &&
     after[|before|].JoySent? && after[|before|].which == i)
  }

  /** A state and whether the report task must stop for this tick. */
  datatype After = After(machine: Machine, rebooted: bool)

  /** kbd_err_task: the link-control codes; any other byte is ignored.
      Only a fault power-cycles the keyboard, which empties every queue;
      otherwise no queue changes. */
  function ErrTask(m: Machine, c: bv8, now: Millis, settle: Millis): (a: After)
    requires Valid(m)
    ensures Valid(a.machine) && a.machine.hidStart == m.hidStart && a.machine.suspended == m.suspended
    ensures CodeErrRam <= c <= CodeErrIsr <==> a.rebooted
    ensures a.rebooted ==> a.machine.kbdQueue == [] && a.machine.joy == Sticks(JoyCtx([], true), JoyCtx([], true))
    ensures !a.rebooted ==> a.machine.kbdQueue == m.kbdQueue && a.machine.joy == m.joy
    ensures c != CodeErrMultiKey ==> a.machine.sent == m.sent
    ensures AddsKbd(m.sent, a.machine.sent)
  {
    if c == CodeErrMultiKey then After(SendKbd(m, KeyNone as bv16), false)
    else if CodeErrRam <= c <= CodeErrIsr then After(Reboot(m, now, settle), true)
    else if c == CodeErrPing || c == CodeErrReset then After(LedSelect(m.(haveNabu := true), now), false)
    else After(m, false)
  }

  /** What each link-control code does: several keys at once tell the
      host that nothing is pressed, apart from the sticky modifiers; a
      RAM, ROM or interrupt fault power-cycles the keyboard; a ping or a
      reset announcement means the keyboard is alive; any other byte
      changes nothing. */
  lemma ErrTaskCases(m: Machine, c: bv8, now: Millis, settle: Millis)
    requires Valid(m)
    ensures var a := ErrTask(m, c, now, settle);
      && (c == CodeErrMultiKey ==>
            !a.rebooted && a.machine == m.(sent := m.sent + [KbdSent(Encode(0, m.kbd.modifiers))]))
      && (a.rebooted ==> a.machine == Reboot(m, now, settle))
      && (c == CodeErrPing || c == CodeErrReset ==>
            !a.rebooted && a.machine == LedSelect(m.(haveNabu := true), now))
      && (!IsLinkControl(c) ==> a == After(m, false))
  {
  }

  /** The log after a tick's optional keyboard report. */
  function Emit(sent: seq<Event>, r: Option<KbdReport>): (after: seq<Event>)
    ensures AddsKbd(sent, after)
    ensures r.Some? <==> |after| == |sent| + 1
  {
    if r.Some? then sent + [KbdSent(r.value)] else sent
  }

  /** The keyboard half of hid_task for a byte `c` just taken off the
      keyboard queue (`m` no longer holds it): a link-control code goes
      to kbd_err_task, anything else starts its translation entry. */
  function KbdDequeue(m: Machine, c: bv8, now: Millis, settle: Millis): (a: After)
    requires Valid(m) && m.kbd.next.Idle? && !m.kbd.zombie
    ensures Valid(a.machine) && a.machine.hidStart == m.hidStart
    ensures AddsKbd(m.sent, a.machine.sent)
    ensures a.machine.suspended == m.suspended
    ensures a.rebooted ==> a.machine.kbdQueue == [] && a.machine.joy == Sticks(JoyCtx([], true), JoyCtx([], true))
    ensures !a.rebooted ==> a.machine.joy == m.joy && a.machine.kbdQueue == m.kbdQueue
    // an ordinary byte is reported exactly when it is mapped
    ensures !IsLinkControl(c) ==>
      !a.rebooted && (|a.machine.sent| == |m.sent| + 1 <==> NabuToHid(c).c0 != 0)
  {
    if IsLinkControl(c) then ErrTask(m, c, now, settle)
    else
      var t := KbdTick(m.kbd, Some(NabuToHid(c)));
      After(m.(kbd := t.state, sent := Emit(m.sent, t.report)), false)
  }

  /** The keyboard half of hid_task, once the keyboard interface is
      ready: a sequence in flight, then an owed empty report, then the
      next queued byte. */
  function KbdPart(m: Machine, now: Millis, settle: Millis): (a: After)
    requires Valid(m)
    ensures Valid(a.machine) && a.machine.hidStart == m.hidStart
    ensures AddsKbd(m.sent, a.machine.sent)
    ensures a.machine.suspended == m.suspended
    // a power cycle empties every queue; otherwise only the keyboard
    // queue's oldest byte may be taken
    ensures a.rebooted ==> a.machine.kbdQueue == [] && a.machine.joy == Sticks(JoyCtx([], true), JoyCtx([], true))
    ensures !a.rebooted ==> (a.machine.joy == m.joy &&
      (a.machine.kbdQueue == m.kbdQueue || (m.kbdQueue != [] && a.machine.kbdQueue == m.kbdQueue[1..])))
    // a sequence in flight or an owed empty report leaves the queue alone
    ensures m.kbd.next.At? || m.kbd.zombie ==>
      var t := KbdTick(m.kbd, None);
      !a.rebooted && a.machine == m.(kbd := t.state, sent := Emit(m.sent, t.report))
    // with nothing in flight or owed, the oldest byte is taken
    ensures m.kbd.next.Idle? && !m.kbd.zombie && m.kbdQueue != [] ==>
      a == KbdDequeue(m.(kbdQueue := m.kbdQueue[1..]), m.kbdQueue[0], now, settle)
  {
    if m.kbd.next.At? || m.kbd.zombie || m.kbdQueue == [] then
      var t := KbdTick(m.kbd, None);
      After(m.(kbd := t.state, sent := Emit(m.sent, t.report)), false)
    else
      KbdDequeue(m.(kbdQueue := m.kbdQueue[1..]), m.kbdQueue[0], now, settle)
  }

  /** The part of hid_task for stick `i`, once its interface is ready:
      an owed neutral report first, then the next queued byte. */
  function JoyPart(m: Machine, i: nat): (r: Machine)
    requires Valid(m) && i < 2
    ensures Valid(r) && r.hidStart == m.hidStart
    ensures AddsJoy(m.sent, r.sent, i)
    ensures r.kbdQueue == m.kbdQueue && r.kbd == m.kbd && r.joy.At(1 - i) == m.joy.At(1 - i)
    ensures r.joy.At(i).queue == m.joy.At(i).queue ||
      (m.joy.At(i).queue != [] && r.joy.At(i).queue == m.joy.At(i).queue[1..])
    // the neutral report owed after a power cycle goes before any
    // queued byte
    ensures m.joy.At(i).zombie ==>
      && r.joy.At(i) == JoyCtx(m.joy.At(i).queue, false)
      && r.sent == m.sent + [JoySent(i, NeutralReport)]
    ensures !m.joy.At(i).zombie && m.joy.At(i).queue != [] ==>
      && r.joy.At(i) == JoyCtx(m.joy.At(i).queue[1..], false)
      && r.sent == m.sent + [JoySent(i, JoyReport(m.joy.At(i).queue[0]))]
  {
    var j := m.joy.At(i);
    if j.zombie then
      m.(joy := m.joy.With(i, JoyCtx(j.queue, false)), sent := m.sent + [JoySent(i, NeutralReport)])
    else if j.queue != [] then
      m.(joy := m.joy.With(i, JoyCtx(j.queue[1..], false)), sent := m.sent + [JoySent(i, JoyReport(j.queue[0]))])
    else m
  }

  /** tud_hid_n_ready for the three interfaces. */
  datatype Ready = Ready(kbd: bool, joy0: bool, joy1: bool)

  /** kbd_has_data_unlocked || joy_has_data_unlocked(0) || ...(1). */
  predicate HasWork(m: Machine)
    requires Valid(m)
  {
    m.kbd.next.At? || m.kbdQueue != [] || m.kbd.zombie ||
    m.joy.At(0).queue != [] || m.joy.At(0).zombie || m.joy.At(1).queue != [] || m.joy.At(1).zombie
  }

  /** The suspended branch of hid_task: a fault or an announcement at
      the head of the keyboard queue is handled at once; otherwise the
      host is woken, if it allowed that and has not been woken yet. */
  function SuspendedPart(m: Machine, now: Millis, settle: Millis): (r: Machine)
    requires Valid(m)
    ensures Valid(r) && r.hidStart == m.hidStart
    ensures r.sent == m.sent || (r.sent == m.sent + [WakeupSent] && m.wantRemoteWakeup && !r.wantRemoteWakeup)
    ensures || (r.joy == m.joy && (r.kbdQueue == m.kbdQueue || (m.kbdQueue != [] && r.kbdQueue == m.kbdQueue[1..])))
            || (r.kbdQueue == [] && r.joy == Sticks(JoyCtx([], true), JoyCtx([], true)))
  {
    if m.kbdQueue != [] && IsLinkControl(m.kbdQueue[0]) && m.kbdQueue[0] != CodeErrMultiKey then
      ErrTask(m.(kbdQueue := m.kbdQueue[1..]), m.kbdQueue[0], now, settle).machine
    else if m.wantRemoteWakeup then
      m.(sent := m.sent + [WakeupSent], wantRemoteWakeup := false)
    else m
  }

  /** tud_hid_n_ready for stick `i`. */
  predicate JoyReady(ready: Ready, i: nat) {
    if i == 0 then ready.joy0 else ready.joy1
  }

  /** One pass of the joystick loop of hid_task. */
  function JoyStep(m: Machine, ready: Ready, i: nat): (r: Machine)
    requires Valid(m) && i < 2
    ensures Valid(r) && r.hidStart == m.hidStart
    ensures !JoyReady(ready, i) ==> r == m
  {
    if JoyReady(ready, i) then JoyPart(m, i) else m
  }

  /** hid_task on an awake bus: the keyboard, then each stick, each
      only when its interface is ready; a power cycle ends the tick. */
  function ReadyPart(m: Machine, now: Millis, settle: Millis, ready: Ready): (r: Machine)
    requires Valid(m)
    ensures Valid(r) && r.hidStart == m.hidStart
  {
    var a := if ready.kbd then KbdPart(m, now, settle) else After(m, false);
    if a.rebooted then a.machine
    else JoyStep(JoyStep(a.machine, ready, 0), ready, 1)
  }

  /** Whether the report task runs at `now`. */
  predicate Due(m: Machine, now: Millis) {
    !(Elapsed(now, m.hidStart) < ReportIntervalMs)
  }

  /** hid_task: at most every 10 ms, on a schedule that advances by
      exactly 10 ms each time. */
  function HidTask(m: Machine, now: Millis, settle: Millis, ready: Ready): (r: Machine)
    requires Valid(m)
    ensures Valid(r)
    ensures !Due(m, now) ==> r == m
    ensures Due(m, now) ==> r.hidStart == Later(m.hidStart, ReportIntervalMs)
  {
    if !Due(m, now) then m
    else
      var m1 := m.(hidStart := Later(m.hidStart, ReportIntervalMs));
      if !HasWork(m1) then m1
      else if m1.suspended then SuspendedPart(m1, now, settle)
      else ReadyPart(m1, now, settle, ready)
  }

  /** kbd_deadcheck: silence longer than 5 s while the keyboard is known
      and powered earns a warning, longer than 10 s a power cycle; while
      the keyboard is unknown or off, the silence is merely forgiven. */
  function Deadcheck(m: Machine, now: Millis, settle: Millis): (r: Machine)
    requires Valid(m)
    ensures Valid(r)
  {
    var elapsed := Elapsed(now, m.lastKbdMessage);
    if elapsed < DeadcheckWarnMs then m.(deadcheckWarned := false)
    else if !m.haveNabu || !m.kbdPower then m.(lastKbdMessage := now)
    else if elapsed < DeadcheckDeclareMs then m.(deadcheckWarned := true)
    else Reboot(m, now, settle).(deadcheckWarned := false)
  }

  /** Whether Deadcheck at `now` prints its warning. */
  predicate Warns(m: Machine, now: Millis) {
    var elapsed := Elapsed(now, m.lastKbdMessage);
    DeadcheckWarnMs <= elapsed < DeadcheckDeclareMs && m.haveNabu && m.kbdPower && !m.deadcheckWarned
  }

  /** tud_mount_cb. */
  function Mount(m: Machine, now: Millis): (r: Machine)
    requires Valid(m)
    ensures Valid(r) && r.mounted && r == m.(mounted := true, led := r.led)
    ensures m.led.sequence.Some? ==>
      r.led.sequence == Some(if m.suspended && !m.wantRemoteWakeup then StatusLed.Suspended
                             else if m.haveNabu then StatusLed.Healthy else StatusLed.WaitNabu)
  {
    LedSelect(m.(mounted := true), now)
  }

  /** tud_umount_cb. */
  function Unmount(m: Machine, now: Millis): (r: Machine)
    requires Valid(m)
    ensures Valid(r) && !r.mounted && r == m.(mounted := false, led := r.led)
    ensures m.led.sequence.Some? ==> r.led.sequence == Some(StatusLed.NotMounted)
  {
    LedSelect(m.(mounted := false), now)
  }

  /** tud_suspend_cb: without remote wakeup the keyboard is switched off
      so that it cannot wake the host. */
  function Suspend(m: Machine, remoteWakeup: bool, now: Millis): (r: Machine)
    requires Valid(m)
    ensures Valid(r) && r.suspended && r.wantRemoteWakeup == remoteWakeup
    ensures remoteWakeup ==> r.kbdPower == m.kbdPower && r.haveNabu == m.haveNabu
    ensures !remoteWakeup ==> !r.kbdPower && !r.haveNabu
    ensures r.kbdQueue == m.kbdQueue && r.kbd == m.kbd && r.joy == m.joy && r.sent == m.sent
  {
    var m1 := m.(wantRemoteWakeup := remoteWakeup, suspended := true);
    var m2 := if !remoteWakeup then SetPower(m1, false, now) else m1;
    LedSelect(m2, now)
  }

  /** tud_resume_cb: the keyboard is switched back on if it was off. */
  function Resume(m: Machine, now: Millis): (r: Machine)
    requires Valid(m)
    ensures Valid(r) && !r.suspended && r.kbdPower && r.haveNabu == m.haveNabu
    ensures r.kbdQueue == m.kbdQueue && r.kbd == m.kbd && r.joy == m.joy && r.sent == m.sent
  {
    var m1 := m.(suspended := false);
    var m2 := if !m1.kbdPower then SetPower(m1, true, now) else m1;
    LedSelect(m2, now)
  }

  /** led_task on the machine. */
  function LedTask(m: Machine, now: Millis): (r: Machine)
    requires Valid(m)
    ensures Valid(r) && r == m.(led := r.led) && r.led.sequence == m.led.sequence
    ensures m.led.sequence.Some? ==> (r.led.state != m.led.state <==> StatusLed.Due(m.led, now))
  {
    m.(led := StatusLed.Step(m.led, now))
  }

  /** The reader's state between bytes: the machine and joy_instance. */
  datatype Fed = Fed(machine: Machine, pending: int)

  /** One pass of the reader loop: the byte `c` read at `now` is routed
      and, where it has a queue, added to it unless that queue is full. */
  function ReaderStep(m: Machine, pending: int, c: bv8, now: Millis): (f: Fed)
    requires Valid(m) && PendingOk(pending)
    ensures Valid(f.machine) && PendingOk(f.pending)
    ensures f.pending == Classify(pending, c).pending
    // only the time of the last byte and the queues change
    ensures f.machine == m.(lastKbdMessage := now, kbdQueue := f.machine.kbdQueue, joy := f.machine.joy)
    ensures Classify(pending, c).route.Nowhere? ==> f.machine == m.(lastKbdMessage := now)
    ensures Classify(pending, c).route.ToKeyboard? ==>
      f.machine == m.(lastKbdMessage := now, kbdQueue := Queue.Enqueue(m.kbdQueue, c))
    ensures Classify(pending, c).route.ToJoystick? ==> f.machine.kbdQueue == m.kbdQueue
    // a joystick byte joins the queue of the selected stick, the other stick is untouched
    ensures Classify(pending, c).route.ToJoystick? ==>
      var i := Classify(pending, c).route.which;
      i < 2 && f.machine == m.(lastKbdMessage := now, joy := f.machine.joy) &&
      f.machine.joy.At(i) == m.joy.At(i).(queue := Queue.Enqueue(m.joy.At(i).queue, c)) &&
      f.machine.joy.At(1 - i) == m.joy.At(1 - i)
  {
    var r := Classify(pending, c);
    var m1 := m.(lastKbdMessage := now);
    match r.route
    case ToKeyboard => Fed(m1.(kbdQueue := Queue.Enqueue(m1.kbdQueue, c)), r.pending)
    case ToJoystick(i) =>
      Fed(m1.(joy := m1.joy.With(i, m1.joy.At(i).(queue := Queue.Enqueue(m1.joy.At(i).queue, c)))), r.pending)
    case Nowhere => Fed(m1, r.pending)
  }

  /** The reader loop over the bytes `input`, byte k read at `clock[k]`. */
  function ReaderRun(m: Machine, pending: int, input: seq<bv8>, clock: seq<Millis>): (f: Fed)
    requires Valid(m) && PendingOk(pending) && |clock| == |input|
    ensures Valid(f.machine) && PendingOk(f.pending)
    // reading touches nothing but the time of the last byte and the queues
    ensures f.machine == m.(lastKbdMessage := f.machine.lastKbdMessage, kbdQueue := f.machine.kbdQueue, joy := f.machine.joy)
    ensures input == [] ==> f == Fed(m, pending)
    ensures input != [] ==> f.machine.lastKbdMessage == clock[|input| - 1]
    decreases |input|
  {
    if input == [] then Fed(m, pending)
    else
      var f := ReaderRun(m, pending, input[..|input| - 1], clock[..|input| - 1]);
      ReaderStep(f.machine, f.pending, input[|input| - 1], clock[|input| - 1])
  }
}
