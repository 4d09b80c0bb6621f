/**
 * What the adapter promises across its routines: the report task's
 * limits, recovery after a power cycle, the health check's decisions,
 * and what can ever be waiting in the queues.
 */
module Properties {
  import opened Wrappers
  import opened Clock
  import opened Keymap
  import Queue
  import opened Sequencer
  import opened Joystick
  import StatusLed
  import opened Reader
  import opened Firmware

  /** The number of keyboard reports in `evs`. */
  function KbdCount(evs: seq<Event>): nat {
    if evs == [] then 0 else (if evs[0].KbdSent? then 1 else 0) + KbdCount(evs[1..])
  }

  /** The number of reports of stick `i` in `evs`. */
  function JoyCount(evs: seq<Event>, i: nat): nat {
    if evs == [] then 0
    else (if evs[0].JoySent? && evs[0].which == i then 1 else 0) + JoyCount(evs[1..], i)
  }

  lemma {:induction false} CountsAppend(a: seq<Event>, b: seq<Event>, i: nat)
    ensures KbdCount(a + b) == KbdCount(a) + KbdCount(b)
    ensures JoyCount(a + b, i) == JoyCount(a, i) + JoyCount(b, i)
    decreases |a|
  {
    if a == [] {
      assert a + b == b;
    } else {
      assert (a + b)[1..] == a[1..] + b;
      CountsAppend(a[1..], b, i);
    }
  }

  /** What a report task tick adds to the log. */
  function Added(m: Machine, r: Machine): seq<Event>
    requires |m.sent| <= |r.sent|
  {
    r.sent[|m.sent|..]
  }

  /** The events added by a part that adds at most one keyboard report. */
  lemma AddsKbdCounts(before: seq<Event>, after: seq<Event>, i: nat)
    requires AddsKbd(before, after)
    ensures |before| <= |after| && after[..|before|] == before
    ensures KbdCount(after[|before|..]) <= 1 && JoyCount(after[|before|..], i) == 0
  {
    if after != before {
      assert after[|before|..] == [after[|before|]];
    }
  }

  /** The events added by a part that adds at most one report of stick j. */
  lemma AddsJoyCounts(before: seq<Event>, after: seq<Event>, j: nat, i: nat)
    requires AddsJoy(before, after, j)
    ensures |before| <= |after| && after[..|before|] == before
    ensures KbdCount(after[|before|..]) == 0
    ensures JoyCount(after[|before|..], i) <= (if i == j then 1 else 0)
  {
    if after != before {
      assert after[|before|..] == [after[|before|]];
    }
  }

  /** Counts over a log that grew twice. */
  lemma Chain(a: seq<Event>, b: seq<Event>, c: seq<Event>, i: nat)
    requires |a| <= |b| <= |c| && b[..|a|] == a && c[..|b|] == b
    ensures c[..|a|] == a
    ensures KbdCount(c[|a|..]) == KbdCount(b[|a|..]) + KbdCount(c[|b|..])
    ensures JoyCount(c[|a|..], i) == JoyCount(b[|a|..], i) + JoyCount(c[|b|..], i)
  {
    assert c[|a|..] == b[|a|..] + c[|b|..];
    CountsAppend(b[|a|..], c[|b|..], i);
  }

  /** While the bus is suspended the host is sent no report at all; the
      most a tick does is wake the host, once, when it allowed that. */
  lemma SuspendedSendsNoReport(m: Machine, now: Millis, settle: Millis, ready: Ready)
    requires Valid(m) && m.suspended
    ensures var r := HidTask(m, now, settle, ready);
      r.sent == m.sent ||
      (r.sent == m.sent + [WakeupSent] && m.wantRemoteWakeup && !r.wantRemoteWakeup)
  {
  }

  /** A pass of the joystick loop for stick `j` sends at most one
      report, on that stick, and only when it is ready. */
  lemma JoyStepCounts(m: Machine, ready: Ready, j: nat, i: nat)
    requires Valid(m) && j < 2
    ensures var r := JoyStep(m, ready, j);
      && |m.sent| <= |r.sent| && r.sent[..|m.sent|] == m.sent
      && KbdCount(Added(m, r)) == 0
      && JoyCount(Added(m, r), i) <= (if i == j && JoyReady(ready, j) then 1 else 0)
  {
    if JoyReady(ready, j) {
      AddsJoyCounts(m.sent, JoyPart(m, j).sent, j, i);
    } else {
      assert Added(m, m) == [];
    }
  }

  /** The awake part of a tick: at most one report per interface, and
      none on an interface that is not ready. */
  lemma ReadyPartCounts(m: Machine, now: Millis, settle: Millis, ready: Ready, i: nat)
    requires Valid(m) && i < 2
    ensures var r := ReadyPart(m, now, settle, ready);
      && |m.sent| <= |r.sent| && r.sent[..|m.sent|] == m.sent
      && KbdCount(Added(m, r)) <= (if ready.kbd then 1 else 0)
      && JoyCount(Added(m, r), i) <= (if JoyReady(ready, i) then 1 else 0)
  {
    var r := ReadyPart(m, now, settle, ready);
    var a := if ready.kbd then KbdPart(m, now, settle) else After(m, false);
    AddsKbdCounts(m.sent, a.machine.sent, i);
    if !a.rebooted {
      var m2 := JoyStep(a.machine, ready, 0);
      JoyStepCounts(a.machine, ready, 0, i);
      JoyStepCounts(m2, ready, 1, i);
      Chain(m.sent, a.machine.sent, m2.sent, i);
      Chain(m.sent, m2.sent, r.sent, i);
    }
  }

  /** A tick of the report task sends at most one report on each of the
      three interfaces, and none on an interface that is not ready. */
  lemma OneReportPerInterface(m: Machine, now: Millis, settle: Millis, ready: Ready, i: nat)
    requires Valid(m) && !m.suspended && i < 2
    ensures var r := HidTask(m, now, settle, ready);
      && |m.sent| <= |r.sent| && r.sent[..|m.sent|] == m.sent
      && KbdCount(Added(m, r)) <= (if ready.kbd then 1 else 0)
      && JoyCount(Added(m, r), i) <= (if JoyReady(ready, i) then 1 else 0)
  {
    var r := HidTask(m, now, settle, ready);
    if Due(m, now) {
      var m1 := m.(hidStart := Later(m.hidStart, ReportIntervalMs));
      if HasWork(m1) {
        assert r == ReadyPart(m1, now, settle, ready);
        ReadyPartCounts(m1, now, settle, ready, i);
      } else {
        assert r.sent == m.sent && Added(m, r) == [];
      }
    } else {
      assert r == m && Added(m, r) == [];
    }
  }

  /** The tick after a power cycle, with every interface ready and no
      sequence in flight, sends the host exactly one empty keyboard
      report and one neutral report per stick, and clears the sticky
      modifiers and all three zombie flags. */
  lemma ZombieTick(m: Machine, now: Millis, settle: Millis)
    requires Valid(m) && !m.suspended && Due(m, now)
    requires m.kbd.next.Idle? && m.kbd.zombie && m.joy.At(0).zombie && m.joy.At(1).zombie
    ensures var r := HidTask(m, now, settle, Ready(true, true, true));
      && r.sent == m.sent + [KbdSent(NoKeyReport), JoySent(0, NeutralReport), JoySent(1, NeutralReport)]
      && r.kbd == InitialKbd
      && !r.joy.At(0).zombie && !r.joy.At(1).zombie
      && r.kbdQueue == m.kbdQueue && r.joy.At(0).queue == m.joy.At(0).queue && r.joy.At(1).queue == m.joy.At(1).queue
  {
    assert JoyReport(0) == NeutralReport;
  }

  /** A sequence in flight finishes before the empty report owed after a
      power cycle: the zombie flag survives every tick that plays a code
      of the sequence. */
  lemma SequenceBeforeZombie(m: Machine, now: Millis, settle: Millis, ready: Ready)
    requires Valid(m) && !m.suspended && Due(m, now) && ready.kbd
    requires m.kbd.next.At? && m.kbd.zombie
    ensures var r := HidTask(m, now, settle, ready);
      && r.kbd.zombie
      && |r.sent| > |m.sent|
      && r.sent[|m.sent|] == KbdSent(Encode(m.kbd.next.entry.Code(m.kbd.next.index), m.kbd.modifiers))
  {
    var r := HidTask(m, now, settle, ready);
    var m1 := m.(hidStart := Later(m.hidStart, ReportIntervalMs));
    assert HasWork(m1);
    var t := KbdTick(m1.kbd, None);
    var a := KbdPart(m1, now, settle);
    assert a.machine == m1.(kbd := t.state, sent := Emit(m1.sent, t.report));
    assert a.machine.sent == m.sent + [KbdSent(Encode(m.kbd.next.entry.Code(m.kbd.next.index), m.kbd.modifiers))];
    var m2 := if ready.joy0 then JoyPart(a.machine, 0) else a.machine;
    AddsJoyCounts(a.machine.sent, m2.sent, 0, 0);
    AddsJoyCounts(m2.sent, r.sent, 1, 0);
    assert r.sent[..|a.machine.sent|] == a.machine.sent by {
      assert r.sent[..|m2.sent|] == m2.sent;
    }
  }

  /** After a power cycle, the first tick with everything ready and
      nothing in flight puts the host back in a clean state. */
  lemma RecoveryAfterReboot(m: Machine, now: Millis, settle: Millis, later: Millis)
    requires Valid(m) && !m.suspended && m.kbd.next.Idle?
    requires var b := Reboot(m, now, settle); Due(b, later)
    ensures var b := Reboot(m, now, settle);
      var r := HidTask(b, later, settle, Ready(true, true, true));
      && r.sent == m.sent + [KbdSent(NoKeyReport), JoySent(0, NeutralReport), JoySent(1, NeutralReport)]
      && r.kbd == InitialKbd
      && r.kbdQueue == [] && r.joy == Sticks(JoyCtx([], false), JoyCtx([], false))
  {
    var b := Reboot(m, now, settle);
    ZombieTick(b, later, settle);
  }

  /** The health check never touches anything but its own bookkeeping,
      unless the keyboard is known, powered, and has been silent for at
      least 10 s; then it power-cycles it. */
  lemma DeadcheckRebootsOnlyWhenDead(m: Machine, now: Millis, settle: Millis)
    requires Valid(m)
    ensures var r := Deadcheck(m, now, settle);
      var elapsed := Elapsed(now, m.lastKbdMessage);
      || r == m.(lastKbdMessage := r.lastKbdMessage, deadcheckWarned := r.deadcheckWarned)
      || (m.haveNabu && m.kbdPower && elapsed >= DeadcheckDeclareMs &&
          r == Reboot(m, now, settle).(deadcheckWarned := false))
    ensures var r := Deadcheck(m, now, settle);
      r.lastKbdMessage != m.lastKbdMessage ==> Elapsed(now, m.lastKbdMessage) >= DeadcheckWarnMs
    ensures var r := Deadcheck(m, now, settle);
      Elapsed(now, m.lastKbdMessage) < DeadcheckWarnMs ==> r == m.(deadcheckWarned := false)
    ensures var r := Deadcheck(m, now, settle);
      var elapsed := Elapsed(now, m.lastKbdMessage);
      elapsed >= DeadcheckWarnMs && (!m.haveNabu || !m.kbdPower) ==> r == m.(lastKbdMessage := now)
    ensures var r := Deadcheck(m, now, settle);
      var elapsed := Elapsed(now, m.lastKbdMessage);
      DeadcheckWarnMs <= elapsed < DeadcheckDeclareMs && m.haveNabu && m.kbdPower ==>
        r == m.(deadcheckWarned := true)
    ensures var r := Deadcheck(m, now, settle);
      var elapsed := Elapsed(now, m.lastKbdMessage);
      elapsed >= DeadcheckDeclareMs && m.haveNabu && m.kbdPower ==>
        r == Reboot(m, now, settle).(deadcheckWarned := false)
  {
  }

  /** The warning is printed once per silence, however often the check
      runs before the keyboard is declared dead. */
  lemma WarnsOnce(m: Machine, now1: Millis, now2: Millis, settle: Millis)
    requires Valid(m) && Warns(m, now1)
    ensures !Warns(Deadcheck(m, now1, settle), now2)
  {
  }

  /** The health check run once for each clock reading in turn. */
  function Deadchecks(m: Machine, nows: seq<Millis>, settle: Millis): (r: Machine)
    requires Valid(m)
    ensures Valid(r)
    decreases |nows|
  {
    if nows == [] then m else Deadchecks(Deadcheck(m, nows[0], settle), nows[1..], settle)
  }

  /** A keyboard that has not announced itself is never power-cycled by
      the health check, however long it stays silent. */
  lemma {:induction false} UnknownKeyboardNeverRebooted(m: Machine, nows: seq<Millis>, settle: Millis)
    requires Valid(m) && !m.haveNabu
    ensures var r := Deadchecks(m, nows, settle);
      r == m.(lastKbdMessage := r.lastKbdMessage, deadcheckWarned := r.deadcheckWarned)
    decreases |nows|
  {
    if nows != [] {
      var m1 := Deadcheck(m, nows[0], settle);
      assert m1 == m.(lastKbdMessage := m1.lastKbdMessage, deadcheckWarned := m1.deadcheckWarned);
      UnknownKeyboardNeverRebooted(m1, nows[1..], settle);
    }
  }

  /** A known keyboard that falls silent at t0: the check warns at
      t0 + 5 s, stays quiet at t0 + 7 s, and power-cycles it at
      t0 + 10 s, after which the keyboard is waited for afresh. */
  lemma SilentKeyboardRebooted(m: Machine, t0: Millis, settle: Millis)
    requires Valid(m) && m.haveNabu && m.kbdPower && !m.deadcheckWarned
    requires m.lastKbdMessage == t0
    ensures var t5, t7, t10 := Later(t0, 5000), Later(t0, 7000), Later(t0, 10000);
      var r1 := Deadcheck(m, t5, settle);
      var r2 := Deadcheck(r1, t7, settle);
      var r3 := Deadcheck(r2, t10, settle);
      && Warns(m, t5) && !Warns(r1, t7)
      && r2 == m.(deadcheckWarned := true)
      && r3 == Reboot(m, t10, settle).(deadcheckWarned := false)
      && r3.kbd.zombie && !r3.haveNabu && r3.kbdPower && r3.lastKbdMessage == settle
  {
  }

  /** What the queues may hold: keyboard bytes the reader accepts, and
      joystick data. */
  predicate Clean(m: Machine)
    requires Valid(m)
  {
    && (forall k :: 0 <= k < |m.kbdQueue| ==> KeyboardByte(m.kbdQueue[k]))
    && (forall k :: 0 <= k < |m.joy.At(0).queue| ==> IsJoystickData(m.joy.At(0).queue[k]))
    && (forall k :: 0 <= k < |m.joy.At(1).queue| ==> IsJoystickData(m.joy.At(1).queue[k]))
  }

  /** A byte the reader puts on the keyboard queue. */
  predicate KeyboardByte(c: bv8) {
    !IsJoystickSelect(c) && !IsJoystickData(c) && Accepted(c)
  }

  /** Each queue of `r` is a suffix of the same queue of `m`: nothing is
      added, the oldest bytes go first. */
  predicate Shrinks(m: Machine, r: Machine)
    requires Valid(m) && Valid(r)
  {
    && |r.kbdQueue| <= |m.kbdQueue| && r.kbdQueue == m.kbdQueue[|m.kbdQueue| - |r.kbdQueue|..]
    && |r.joy.At(0).queue| <= |m.joy.At(0).queue| && r.joy.At(0).queue == m.joy.At(0).queue[|m.joy.At(0).queue| - |r.joy.At(0).queue|..]
    && |r.joy.At(1).queue| <= |m.joy.At(1).queue| && r.joy.At(1).queue == m.joy.At(1).queue[|m.joy.At(1).queue| - |r.joy.At(1).queue|..]
  }

  lemma ShrinksKeepsClean(m: Machine, r: Machine)
    requires Valid(m) && Valid(r) && Shrinks(m, r) && Clean(m)
    ensures Clean(r)
  {
    forall k | 0 <= k < |r.kbdQueue|
      ensures KeyboardByte(r.kbdQueue[k])
    {
      assert r.kbdQueue[k] == m.kbdQueue[|m.kbdQueue| - |r.kbdQueue| + k];
    }
    forall k | 0 <= k < |r.joy.At(0).queue|
      ensures IsJoystickData(r.joy.At(0).queue[k])
    {
      assert r.joy.At(0).queue[k] == m.joy.At(0).queue[|m.joy.At(0).queue| - |r.joy.At(0).queue| + k];
    }
    forall k | 0 <= k < |r.joy.At(1).queue|
      ensures IsJoystickData(r.joy.At(1).queue[k])
    {
      assert r.joy.At(1).queue[k] == m.joy.At(1).queue[|m.joy.At(1).queue| - |r.joy.At(1).queue| + k];
    }
  }

  /** A suffix of a suffix is a suffix. */
  lemma ShrinksTransitive(m1: Machine, m2: Machine, m3: Machine)
    requires Valid(m1) && Valid(m2) && Valid(m3) && Shrinks(m1, m2) && Shrinks(m2, m3)
    ensures Shrinks(m1, m3)
  {
  }

  lemma KbdPartShrinks(m: Machine, now: Millis, settle: Millis)
    requires Valid(m)
    ensures Shrinks(m, KbdPart(m, now, settle).machine)
  {
  }

  lemma JoyPartShrinks(m: Machine, i: nat)
    requires Valid(m) && i < 2
    ensures Shrinks(m, JoyPart(m, i))
  {
    var r := JoyPart(m, i);
    assert r.joy.At(1 - i) == m.joy.At(1 - i);
    if i == 0 {
      assert r.joy.At(1) == m.joy.At(1);
    } else {
      assert r.joy.At(0) == m.joy.At(0);
    }
  }

  lemma SuspendedPartShrinks(m: Machine, now: Millis, settle: Millis)
    requires Valid(m)
    ensures Shrinks(m, SuspendedPart(m, now, settle))
  {
  }

  lemma ShrinksReflexive(m: Machine)
    requires Valid(m)
    ensures Shrinks(m, m)
  {
    assert m.kbdQueue[0..] == m.kbdQueue && m.joy.At(0).queue[0..] == m.joy.At(0).queue && m.joy.At(1).queue[0..] == m.joy.At(1).queue;
  }

  lemma JoyStepShrinks(m: Machine, ready: Ready, i: nat)
    requires Valid(m) && i < 2
    ensures Shrinks(m, JoyStep(m, ready, i))
  {
    if JoyReady(ready, i) {
      JoyPartShrinks(m, i);
    } else {
      ShrinksReflexive(m);
    }
  }

  lemma ReadyPartShrinks(m: Machine, now: Millis, settle: Millis, ready: Ready)
    requires Valid(m)
    ensures Shrinks(m, ReadyPart(m, now, settle, ready))
  {
    var r := ReadyPart(m, now, settle, ready);
    var a := if ready.kbd then KbdPart(m, now, settle) else After(m, false);
    if ready.kbd {
      KbdPartShrinks(m, now, settle);
    } else {
      ShrinksReflexive(m);
    }
    if !a.rebooted {
      var m2 := JoyStep(a.machine, ready, 0);
      JoyStepShrinks(a.machine, ready, 0);
      JoyStepShrinks(m2, ready, 1);
      ShrinksTransitive(a.machine, m2, r);
      ShrinksTransitive(m, a.machine, r);
    }
  }

  /** The report task only ever takes the oldest byte of a queue, or
      empties every queue in a power cycle. */
  lemma HidTaskShrinks(m: Machine, now: Millis, settle: Millis, ready: Ready)
    requires Valid(m)
    ensures Shrinks(m, HidTask(m, now, settle, ready))
  {
    var r := HidTask(m, now, settle, ready);
    ShrinksReflexive(m);
    if Due(m, now) {
      var m1 := m.(hidStart := Later(m.hidStart, ReportIntervalMs));
      ShrinksReflexive(m1);
      if !HasWork(m1) {
        assert r == m1;
      } else if m1.suspended {
        assert r == SuspendedPart(m1, now, settle);
        SuspendedPartShrinks(m1, now, settle);
      } else {
        assert r == ReadyPart(m1, now, settle, ready);
        ReadyPartShrinks(m1, now, settle, ready);
      }
      ShrinksTransitive(m, m1, r);
    }
  }

  /** The reader adds a byte only to the queue its class belongs to. */
  lemma ReaderStepKeepsClean(m: Machine, pending: int, c: bv8, now: Millis)
    requires Valid(m) && PendingOk(pending) && Clean(m)
    ensures Clean(ReaderStep(m, pending, c, now).machine)
  {
    var r := Classify(pending, c);
    var f := ReaderStep(m, pending, c, now);
    if r.route == ToKeyboard {
      assert KeyboardByte(c);
    } else if r.route.ToJoystick? {
      assert IsJoystickData(c);
      if r.route.which == 0 {
        assert f.machine.joy.At(1) == m.joy.At(1);
      } else {
        assert f.machine.joy.At(0) == m.joy.At(0);
      }
    }
  }

  /** Whatever the reader has read, the queues hold only what belongs in
      them. */
  lemma {:induction false} ReaderRunKeepsClean(m: Machine, pending: int, input: seq<bv8>, clock: seq<Millis>)
    requires Valid(m) && PendingOk(pending) && |clock| == |input| && Clean(m)
    ensures Clean(ReaderRun(m, pending, input, clock).machine)
    decreases |input|
  {
    if input != [] {
      var n := |input| - 1;
      ReaderRunKeepsClean(m, pending, input[..n], clock[..n]);
      var f := ReaderRun(m, pending, input[..n], clock[..n]);
      ReaderStepKeepsClean(f.machine, f.pending, input[n], clock[n]);
    }
  }

  /** In a clean state, a byte taken off the keyboard queue is never
      lost without a trace: it is a link-control code, or it sends a
      report. */
  lemma DequeuedByteReported(m: Machine, now: Millis, settle: Millis, ready: Ready)
    requires Valid(m) && Clean(m) && !m.suspended && Due(m, now) && ready.kbd
    requires m.kbd.next.Idle? && !m.kbd.zombie && m.kbdQueue != []
    requires !IsLinkControl(m.kbdQueue[0])
    ensures var r := HidTask(m, now, settle, ready);
      KbdCount(Added(m, r)) == 1 && r.kbdQueue == m.kbdQueue[1..]
  {
    var c := m.kbdQueue[0];
    assert KeyboardByte(c);
    var m1 := m.(hidStart := Later(m.hidStart, ReportIntervalMs));
    var a := KbdPart(m1, now, settle);
    assert |a.machine.sent| == |m.sent| + 1;
    assert a.machine.sent[|m.sent|..] == [a.machine.sent[|m.sent|]];
    var r := HidTask(m, now, settle, ready);
    var m2 := if ready.joy0 then JoyPart(a.machine, 0) else a.machine;
    AddsJoyCounts(a.machine.sent, m2.sent, 0, 0);
    AddsJoyCounts(m2.sent, r.sent, 1, 0);
    Chain(m.sent, a.machine.sent, m2.sent, 0);
    Chain(m.sent, m2.sent, r.sent, 0);
  }

  /** A suspend without remote wakeup powers the keyboard off, and the
      resume powers it on again; the keyboard must then announce itself
      before the adapter counts it as present. */
  lemma SuspendResumePower(m: Machine, now1: Millis, now2: Millis)
    requires Valid(m) && m.mounted
    ensures var s := Suspend(m, false, now1);
      && !s.kbdPower && !s.haveNabu && s.suspended
      && (m.led.sequence.Some? ==> s.led.sequence == Some(StatusLed.Suspended))
    ensures var r := Resume(Suspend(m, false, now1), now2);
      && r.kbdPower && !r.haveNabu && !r.suspended
      && (m.led.sequence.Some? ==> r.led.sequence == Some(StatusLed.WaitNabu))
  {
  }

  /** A ping from the keyboard on a mounted, awake link shows the
      heartbeat pattern. */
  lemma PingShowsHeartbeat(m: Machine, now: Millis, settle: Millis)
    requires Valid(m) && m.mounted && !m.suspended && m.led.sequence.Some?
    ensures var a := ErrTask(m, CodeErrPing, now, settle);
      a.machine.haveNabu && a.machine.led.sequence == Some(StatusLed.Healthy) && a.machine.sent == m.sent
  {
  }
}
