/**
 * The firmware's globals as one object whose routines update them in
 * place: the three byte queues, kbd_context, the joystick zombie flags,
 * the bus and power flags, the keyboard health timestamps, the report
 * task's schedule and led_context.  Every routine is proved to do to
 * `Snapshot()` exactly what the matching function of the Firmware
 * module does to a Machine value.  The reports handed to the USB stack
 * and the remote-wakeup signals are appended to `sent`.
 */
module Device {
  import opened Wrappers
  import opened Clock
  import opened Keymap
  import opened Queue
  import opened Sequencer
  import opened Joystick
  import StatusLed
  import opened Reader
  import Firmware

  class Adapter {
    const kbdQueue: ByteQueue
    const joyQueue0: ByteQueue
    const joyQueue1: ByteQueue

    // kbd_context, apart from its queue
    var next: Cursor
    var modifiers: bv16
    var kbdZombie: bool

    // joy_context[0].zombie and joy_context[1].zombie
    var joyZombie0: bool
    var joyZombie1: bool

    var suspended: bool
    var mounted: bool
    var wantRemoteWakeup: bool
    var haveNabu: bool
    var kbdPower: bool
    var lastKbdMessage: Millis
    var deadcheckWarned: bool
    var hidStart: Millis

    // led_context
    var led: StatusLed.LedCtx

    /** Everything sent to the host, oldest first. */
    var sent: seq<Firmware.Event>

    ghost var Repr: set<object>

    /** The objects are distinct and every queue is well formed. */
    ghost predicate QueuesOk()
      reads this, Repr
    {
      && Repr == {this, kbdQueue, kbdQueue.data, joyQueue0, joyQueue0.data, joyQueue1, joyQueue1.data}
      && kbdQueue != joyQueue0 && kbdQueue != joyQueue1 && joyQueue0 != joyQueue1
      && kbdQueue.data != joyQueue0.data && kbdQueue.data != joyQueue1.data
      && joyQueue0.data != joyQueue1.data
      && kbdQueue.Valid() && joyQueue0.Valid() && joyQueue1.Valid()
    }

    /** The globals as a Machine value. */
    ghost function Snapshot(): (m: Firmware.Machine)
      reads this, Repr
      requires QueuesOk()
      ensures CursorOk(next) && StatusLed.LedOk(led) ==> Firmware.Valid(m)
    {
      Firmware.Machine(
        kbdQueue.Contents(), KbdState(next, modifiers, kbdZombie),
        Firmware.Sticks(Firmware.JoyCtx(joyQueue0.Contents(), joyZombie0),
                        Firmware.JoyCtx(joyQueue1.Contents(), joyZombie1)),
        suspended, mounted, wantRemoteWakeup, haveNabu, kbdPower,
        lastKbdMessage, deadcheckWarned, hidStart, led, sent)
    }

    /** The queues are well formed, the cursor points inside an entry
        and the LED phase names a duration. */
    ghost predicate Valid()
      reads this, Repr
    {
      QueuesOk() && CursorOk(next) && StatusLed.LedOk(led)
    }

    /** The state main sets up before its loop: queues and contexts
        initialised, the LED started on "not mounted" at `now`, and the
        keyboard powered. */
    constructor (now: Millis)
      ensures Valid() && fresh(Repr)
      ensures Snapshot() == Firmware.Initial(now)
    {
      var kq: ByteQueue := new ByteQueue();
      var jq0: ByteQueue := new ByteQueue();
      var jq1: ByteQueue := new ByteQueue();
      kbdQueue, joyQueue0, joyQueue1 := kq, jq0, jq1;
      next, modifiers, kbdZombie := Idle, 0, false;
      joyZombie0, joyZombie1 := false, false;
      suspended, mounted, wantRemoteWakeup, haveNabu := false, false, false, false;
      kbdPower := true;
      lastKbdMessage, deadcheckWarned, hidStart := 0, false, 0;
      led := StatusLed.LedCtx(Some(StatusLed.NotMounted), 0, now, true);
      sent := [];
      new;
      Repr := {this, kq, kq.data, jq0, jq0.data, jq1, jq1.data};
    }

    /** joy_context[i].queue. */
    function JoyQueue(i: nat): ByteQueue
      requires i < 2
    {
      if i == 0 then joyQueue0 else joyQueue1
    }

    /** led_set_sequence. */
    method LedSetSequence(p: StatusLed.Pattern, now: Millis)
      requires Valid()
      modifies this`led
      ensures Valid()
      ensures Snapshot() == old(Snapshot()).(led := StatusLed.SetSequence(old(led), p, now))
    {
      if led.sequence == Some(p) {
        return;
      }
      led := StatusLed.LedCtx(Some(p), 0, now, true);
    }

    /** led_select_sequence. */
    method LedSelectSequence(now: Millis)
      requires Valid()
      modifies this`led
      ensures Valid()
      ensures Snapshot() == Firmware.LedSelect(old(Snapshot()), now)
    {
      if led.sequence.None? {
        return;
      }
      if !mounted {
        LedSetSequence(StatusLed.NotMounted, now);
        return;
      }
      if suspended && !wantRemoteWakeup {
        LedSetSequence(StatusLed.Suspended, now);
        return;
      }
      if haveNabu {
        LedSetSequence(StatusLed.Healthy, now);
        return;
      }
      LedSetSequence(StatusLed.WaitNabu, now);
    }

    /** led_task. */
    method LedTask(now: Millis)
      requires Valid()
      modifies this`led
      ensures Valid()
      ensures Snapshot() == Firmware.LedTask(old(Snapshot()), now)
    {
      if led.sequence.None? {
        return;
      }
      var interval := StatusLed.PhaseAt(led.sequence.value, led.idx).ms;
      if Elapsed(now, led.startMs) < interval {
        return;
      }
      var idx := led.idx + 1;
      if StatusLed.PhaseAt(led.sequence.value, idx) == StatusLed.Restart {
        idx := 0;
      }
      led := StatusLed.LedCtx(led.sequence, idx, Later(led.startMs, interval), !led.state);
    }

    /** kbd_setpower. */
    method SetPower(enabled: bool, now: Millis)
      requires Valid()
      modifies this`kbdPower, this`haveNabu, this`led
      ensures Valid()
      ensures Snapshot() == Firmware.SetPower(old(Snapshot()), enabled, now)
    {
      kbdPower := enabled;
      if !enabled {
        haveNabu := false;
        LedSelectSequence(now);
      }
    }

    /** kbd_reboot; `settle` is the clock after the 4-second pause. */
    method Reboot(now: Millis, settle: Millis)
      requires Valid()
      modifies Repr
      ensures Valid()
      ensures Snapshot() == Firmware.Reboot(old(Snapshot()), now, settle)
    {
      SetPower(false, now);
      DrainQueues();
      OweReports(settle);
      SetPower(true, now);
    }

    /** queue_drain on every queue. */
    method DrainQueues()
      requires Valid()
      modifies Repr - {this}
      ensures Valid()
      ensures var m := old(Snapshot());
        Snapshot() == m.(kbdQueue := [], joy := Firmware.Sticks(Firmware.JoyCtx([], joyZombie0), Firmware.JoyCtx([], joyZombie1)))
    {
      kbdQueue.Drain();
      joyQueue0.Drain();
      joyQueue1.Drain();
    }

    /** The rest of kbd_reboot's middle: every interface owed an empty
        report, and the keyboard's silence forgiven up to `settle`. */
    method OweReports(settle: Millis)
      requires Valid()
      modifies this`kbdZombie, this`joyZombie0, this`joyZombie1, this`lastKbdMessage
      ensures Valid()
      ensures var m := old(Snapshot());
        Snapshot() == m.(joy := Firmware.Sticks(Firmware.JoyCtx(m.joy.stick0.queue, true), Firmware.JoyCtx(m.joy.stick1.queue, true)),
                         lastKbdMessage := settle, kbd := m.kbd.(zombie := true))
    {
      lastKbdMessage := settle;
      kbdZombie := true;
      joyZombie0, joyZombie1 := true, true;
    }

    /** send_kbd_report. */
    method SendKbdReport(code: bv16)
      requires Valid()
      modifies this`sent
      ensures Valid()
      ensures Snapshot() == Firmware.SendKbd(old(Snapshot()), code)
    {
      sent := sent + [Firmware.KbdSent(Encode(code, modifiers))];
    }

    /** kbd_modifier. */
    method KbdModifier(code: bv16) returns (r: bv16)
      modifies this`modifiers
      ensures Sequencer.Modified(r, modifiers) == Sequencer.KbdModifier(code, old(modifiers))
    {
      if code & FlagDown != 0 {
        modifiers := modifiers | Mods(code);
      } else if code & FlagUp != 0 {
        modifiers := modifiers & !Mods(code);
      } else {
        return code;
      }
      return KeyNone as bv16;
    }

    /** kbd_err_task: whether the keyboard was power-cycled. */
    method KbdErrTask(c: bv8, now: Millis, settle: Millis) returns (rebooted: bool)
      requires Valid()
      modifies Repr
      ensures Valid()
      ensures Firmware.After(Snapshot(), rebooted) == Firmware.ErrTask(old(Snapshot()), c, now, settle)
    {
      if c == CodeErrMultiKey {
        SendKbdReport(KeyNone as bv16);
        return false;
      } else if c == CodeErrRam || c == CodeErrRom || c == CodeErrIsr {
        Reboot(now, settle);
        return true;
      } else if c == CodeErrPing || c == CodeErrReset {
        haveNabu := true;
        LedSelectSequence(now);
        return false;
      }
      return false;
    }

    /** kbd_deadcheck. */
    method KbdDeadcheck(now: Millis, settle: Millis)
      requires Valid()
      modifies Repr
      ensures Valid()
      ensures Snapshot() == Firmware.Deadcheck(old(Snapshot()), now, settle)
    {
      if Elapsed(now, lastKbdMessage) < Firmware.DeadcheckWarnMs {
        deadcheckWarned := false;
        return;
      }
      if !haveNabu || !kbdPower {
        lastKbdMessage := now;
        return;
      }
      if Elapsed(now, lastKbdMessage) < Firmware.DeadcheckDeclareMs {
        if !deadcheckWarned {
          deadcheckWarned := true;
        }
        return;
      }
      Reboot(now, settle);
      deadcheckWarned := false;
    }

    /** kbd_has_data_unlocked. */
    predicate KbdHasData()
      reads this, Repr
      requires QueuesOk()
    {
      next.At? || !kbdQueue.IsEmpty() || kbdZombie
    }

    /** joy_has_data_unlocked(i). */
    predicate JoyHasData(i: nat)
      reads this, Repr
      requires QueuesOk() && i < 2
    {
      !JoyQueue(i).IsEmpty() || (if i == 0 then joyZombie0 else joyZombie1)
    }

    /** The keyboard state part of kbd_context. */
    ghost function Kbd(): KbdState
      reads this
    {
      KbdState(next, modifiers, kbdZombie)
    }

    /** The translation of a byte just taken off the keyboard queue
        that is not a link-control code: an UP or DOWN code goes out on
        its own, possibly through the sticky modifiers, and any other
        first code starts its sequence. */
    method KbdTranslate(c: bv8)
      requires next.Idle? && !kbdZombie
      modifies this`next, this`modifiers, this`sent
      ensures var t := KbdTick(old(Kbd()), Some(NabuToHid(c)));
        Kbd() == t.state && sent == Firmware.Emit(old(sent), t.report)
    {
      var sequence := NabuToHid(c);
      var code := sequence.c0;
      if code != 0 {
        if code & FlagDown != 0 {
          if HidKey(code) == KeyNone as bv16 {
            code := KbdModifier(code);
          }
        } else if code & FlagUp != 0 {
          if HidKey(code) == KeyNone as bv16 {
            code := KbdModifier(code);
          } else {
            code := KeyNone as bv16;
          }
        } else if code & FlagEndSeq == 0 {
          next := At(sequence, 1);
        }
        sent := sent + [Firmware.KbdSent(Encode(code, modifiers))];
      }
    }

    /** The keyboard half of hid_task for a byte just taken off the
        keyboard queue. */
    method KbdDispatch(c: bv8, now: Millis, settle: Millis) returns (rebooted: bool)
      requires Valid() && next.Idle? && !kbdZombie
      modifies Repr
      ensures Valid()
      ensures Firmware.After(Snapshot(), rebooted) == Firmware.KbdDequeue(old(Snapshot()), c, now, settle)
    {
      rebooted := false;
      if IsLinkControl(c) {
        rebooted := KbdErrTask(c, now, settle);
      } else {
        KbdTranslate(c);
      }
    }

    /** The keyboard half of hid_task while a sequence is in flight or
        an empty report is owed: the next code of the sequence, or else
        the empty report that also clears the sticky modifiers. */
    method KbdAdvance()
      requires CursorOk(next) && (next.At? || kbdZombie)
      modifies this`next, this`modifiers, this`kbdZombie, this`sent
      ensures var t := KbdTick(old(Kbd()), None);
        Kbd() == t.state && sent == Firmware.Emit(old(sent), t.report)
    {
      if next.At? {
        var code := next.entry.Code(next.index);
        next := if code == 0 || code & FlagEndSeq != 0 then Idle else At(next.entry, next.index + 1);
        sent := sent + [Firmware.KbdSent(Encode(code, modifiers))];
      } else {
        kbdZombie := false;
        modifiers := 0;
        sent := sent + [Firmware.KbdSent(Encode(KeyNone as bv16, modifiers))];
      }
    }

    /** KbdAdvance on the whole machine. */
    method KbdCatchUp()
      requires Valid() && (next.At? || kbdZombie)
      modifies this`next, this`modifiers, this`kbdZombie, this`sent
      ensures Valid()
      ensures var m := old(Snapshot()); var t := KbdTick(m.kbd, None);
        Snapshot() == m.(kbd := t.state, sent := Firmware.Emit(m.sent, t.report))
    {
      KbdAdvance();
    }

    /** The keyboard half of hid_task with nothing in flight or owed:
        the next byte is taken off the keyboard queue, if there is one,
        and dispatched. */
    method KbdFromQueue(now: Millis, settle: Millis) returns (rebooted: bool)
      requires Valid() && next.Idle? && !kbdZombie
      modifies Repr
      ensures Valid()
      ensures var m := old(Snapshot());
        Firmware.After(Snapshot(), rebooted) ==
          if m.kbdQueue == [] then Firmware.After(m, false)
          else Firmware.KbdDequeue(m.(kbdQueue := m.kbdQueue[1..]), m.kbdQueue[0], now, settle)
    {
      rebooted := false;
      var ok, c := kbdQueue.Get();
      if ok {
        rebooted := KbdDispatch(c, now, settle);
      }
    }

    /** The keyboard half of hid_task once its interface is ready:
        whether the keyboard was power-cycled. */
    method HidKeyboard(now: Millis, settle: Millis) returns (rebooted: bool)
      requires Valid()
      modifies Repr
      ensures Valid()
      ensures Firmware.After(Snapshot(), rebooted) == Firmware.KbdPart(old(Snapshot()), now, settle)
    {
      if next.At? || kbdZombie {
        KbdCatchUp();
        return false;
      }
      rebooted := KbdFromQueue(now, settle);
    }

    /** The neutral report stick `i` owes the host after a power cycle. */
    method JoyFlush(i: nat)
      requires Valid() && i < 2 && (if i == 0 then joyZombie0 else joyZombie1)
      modifies this`sent, this`joyZombie0, this`joyZombie1
      ensures Valid()
      ensures var m := old(Snapshot());
        Snapshot() == m.(joy := m.joy.With(i, Firmware.JoyCtx(m.joy.At(i).queue, false)),
                         sent := m.sent + [Firmware.JoySent(i, NeutralReport)])
    {
      if i == 0 {
        joyZombie0 := false;
      } else {
        joyZombie1 := false;
      }
      sent := sent + [Firmware.JoySent(i, JoyReport(0))];
    }

    /** One pass of the joystick loop of hid_task, for a ready stick. */
    method HidJoystick(i: nat)
      requires Valid() && i < 2
      modifies Repr
      ensures Valid()
      ensures Snapshot() == Firmware.JoyPart(old(Snapshot()), i)
    {
      if (if i == 0 then joyZombie0 else joyZombie1) {
        JoyFlush(i);
      } else {
        var ok, c := JoyQueue(i).Get();
        if ok {
          sent := sent + [Firmware.JoySent(i, JoyReport(c))];
        }
      }
    }

    /** The suspended branch of hid_task. */
    method HidSuspended(now: Millis, settle: Millis)
      requires Valid()
      modifies Repr
      ensures Valid()
      ensures Snapshot() == Firmware.SuspendedPart(old(Snapshot()), now, settle)
    {
      var ok, c := kbdQueue.Peek();
      if ok && IsLinkControl(c) && c != CodeErrMultiKey {
        ok, c := kbdQueue.Get();
        var _ := KbdErrTask(c, now, settle);
        return;
      }
      if wantRemoteWakeup {
        RemoteWakeup();
      }
    }

    /** tud_remote_wakeup, signalled once per suspend. */
    method RemoteWakeup()
      requires Valid()
      modifies this`sent, this`wantRemoteWakeup
      ensures Valid()
      ensures Snapshot() == old(Snapshot()).(sent := old(sent) + [Firmware.WakeupSent], wantRemoteWakeup := false)
    {
      sent := sent + [Firmware.WakeupSent];
      wantRemoteWakeup := false;
    }

    /** hid_task: `ready` answers tud_hid_n_ready for each interface,
        and `suspended` stands for tud_suspended. */
    method HidTask(now: Millis, settle: Millis, ready: Firmware.Ready)
      requires Valid()
      modifies Repr
      ensures Valid()
      ensures Snapshot() == Firmware.HidTask(old(Snapshot()), now, settle, ready)
    {
      if Elapsed(now, hidStart) < Firmware.ReportIntervalMs {
        return;
      }
      hidStart := Later(hidStart, Firmware.ReportIntervalMs);
      if !(KbdHasData() || JoyHasData(0) || JoyHasData(1)) {
        return;
      }
      if suspended {
        HidSuspended(now, settle);
        return;
      }
      HidReady(now, settle, ready);
    }

    /** hid_task on an awake bus: the keyboard, then each stick, each
        only when its interface is ready. */
    method HidReady(now: Millis, settle: Millis, ready: Firmware.Ready)
      requires Valid()
      modifies Repr
      ensures Valid()
      ensures Snapshot() == Firmware.ReadyPart(old(Snapshot()), now, settle, ready)
    {
      if ready.kbd {
        var rebooted := HidKeyboard(now, settle);
        if rebooted {
          return;
        }
      }
      ghost var m := Snapshot();
      for i := 0 to 2
        invariant Valid()
        invariant Snapshot() ==
          if i == 0 then m
          else if i == 1 then Firmware.JoyStep(m, ready, 0)
          else Firmware.JoyStep(Firmware.JoyStep(m, ready, 0), ready, 1)
      {
        if Firmware.JoyReady(ready, i) {
          HidJoystick(i);
        }
      }
    }

    /** tud_mount_cb. */
    method MountCallback(now: Millis)
      requires Valid()
      modifies this`mounted, this`led
      ensures Valid()
      ensures Snapshot() == Firmware.Mount(old(Snapshot()), now)
    {
      mounted := true;
      LedSelectSequence(now);
    }

    /** tud_umount_cb. */
    method UnmountCallback(now: Millis)
      requires Valid()
      modifies this`mounted, this`led
      ensures Valid()
      ensures Snapshot() == Firmware.Unmount(old(Snapshot()), now)
    {
      mounted := false;
      LedSelectSequence(now);
    }

    /** tud_suspend_cb. */
    method SuspendCallback(remoteWakeup: bool, now: Millis)
      requires Valid()
      modifies this`suspended, this`wantRemoteWakeup, this`kbdPower, this`haveNabu, this`led
      ensures Valid()
      ensures Snapshot() == Firmware.Suspend(old(Snapshot()), remoteWakeup, now)
    {
      wantRemoteWakeup := remoteWakeup;
      suspended := true;
      if !wantRemoteWakeup {
        SetPower(false, now);
      }
      LedSelectSequence(now);
    }

    /** tud_resume_cb. */
    method ResumeCallback(now: Millis)
      requires Valid()
      modifies this`suspended, this`kbdPower, this`haveNabu, this`led
      ensures Valid()
      ensures Snapshot() == Firmware.Resume(old(Snapshot()), now)
    {
      suspended := false;
      if !kbdPower {
        SetPower(true, now);
      }
      LedSelectSequence(now);
    }

    /** kbd_getc: the time of the last message from the keyboard. */
    method Heard(now: Millis)
      requires Valid()
      modifies this`lastKbdMessage
      ensures Valid()
      ensures Snapshot() == old(Snapshot()).(lastKbdMessage := now)
    {
      lastKbdMessage := now;
    }

    /** queue_add on stick `i`'s queue. */
    method JoyEnqueue(i: nat, c: bv8)
      requires Valid() && i < 2
      modifies JoyQueue(i), JoyQueue(i).data
      ensures Valid()
      ensures var m := old(Snapshot());
        Snapshot() == m.(joy := m.joy.With(i, m.joy.At(i).(queue := Enqueue(m.joy.At(i).queue, c))))
    {
      var _ := JoyQueue(i).Add(c);
    }

    /** queue_add on the keyboard queue. */
    method KbdEnqueue(c: bv8)
      requires Valid()
      modifies kbdQueue, kbdQueue.data
      ensures Valid()
      ensures var m := old(Snapshot());
        Snapshot() == m.(kbdQueue := Enqueue(m.kbdQueue, c))
    {
      var _ := kbdQueue.Add(c);
    }

    /** One pass of the reader loop: the byte `c`, read at `now`, with
        joy_instance `pending` before it; returns joy_instance after. */
    method ReadByte(pending: int, c: bv8, now: Millis) returns (joyInstance: int)
      requires Valid() && PendingOk(pending)
      modifies Repr
      ensures Valid()
      ensures Firmware.Fed(Snapshot(), joyInstance) == Firmware.ReaderStep(old(Snapshot()), pending, c, now)
    {
      Heard(now);
      joyInstance := pending;
      if c == CodeJoy0 || c == CodeJoy1 {
        joyInstance := if c & 1 == 0 then 0 else 1;
        return;
      }
      if IsJoystickData(c) {
        if joyInstance < 0 {
          return;
        }
        JoyEnqueue(joyInstance, c);
        joyInstance := NoStick;
        return;
      }
      if joyInstance >= 0 {
        joyInstance := NoStick;
      }
      if NabuToHid(c).c0 != 0 || IsLinkControl(c) {
        KbdEnqueue(c);
      }
    }

    /** nabu_keyboard_reader over the bytes `input`, byte k read at
        `clock[k]`, starting with no joystick announced. */
    method Reader(input: seq<bv8>, clock: seq<Millis>) returns (joyInstance: int)
      requires Valid() && |clock| == |input|
      modifies Repr
      ensures Valid()
      ensures Firmware.Fed(Snapshot(), joyInstance) == Firmware.ReaderRun(old(Snapshot()), NoStick, input, clock)
    {
      joyInstance := NoStick;
      ghost var m := Snapshot();
      for k := 0 to |input|
        invariant Valid() && PendingOk(joyInstance)
        invariant Firmware.Fed(Snapshot(), joyInstance) == Firmware.ReaderRun(m, NoStick, input[..k], clock[..k])
      {
        assert input[..k + 1][..k] == input[..k] && clock[..k + 1][..k] == clock[..k];
        joyInstance := ReadByte(joyInstance, input[k], clock[k]);
      }
      assert input[..|input|] == input && clock[..|input|] == clock;
    }
  }
}
