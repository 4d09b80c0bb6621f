/**
 * The status LED: one of four blink patterns, chosen by the state of the
 * USB link and the keyboard, stepped phase by phase against the clock.
 * Times are milliseconds on a wrapping 32-bit clock.
 */
module StatusLed {
  import opened Wrappers
  import opened Clock

  /** The four blink patterns. */
  datatype Pattern = NotMounted | WaitNabu | Healthy | Suspended

  /** One element of a pattern: how long a phase lasts, or the -1
      sentinel that sends the pattern back to its start. */
  datatype Phase = Ms(ms: Millis) | Restart

  /** Element `i` of a pattern array: even phases on, odd phases off,
      and the sentinel after the last phase. */
  function PhaseAt(p: Pattern, i: nat): (ph: Phase)
    requires i <= Period(p)
    ensures ph.Restart? <==> i == Period(p)
    ensures ph.Ms? ==> ph.ms > 0
  {
    match p
    case NotMounted => if i < 2 then Ms(250) else Restart
    case WaitNabu => if i < 2 then Ms(1000) else Restart
    case Healthy =>
      if i == 0 || i == 2 then Ms(100)
      else if i == 1 then Ms(300)
      else if i == 3 then Ms(1000)
      else Restart
    case Suspended => if i < 2 then Ms(2500) else Restart
  }

  /** The number of phases before the sentinel; always even, so that
      every pattern ends with the LED off. */
  function Period(p: Pattern): (n: nat)
    ensures n >= 2 && n % 2 == 0
  {
    if p == Healthy then 4 else 2
  }

  /** led_context: no pattern before the firmware starts the LED. */
  datatype LedCtx = LedCtx(sequence: Option<Pattern>, idx: nat, startMs: Millis, state: bool)

  /** The context before the LED is started. */
  const LedOff := LedCtx(None, 0, 0, false)

  /** The phase index always names a duration, never the sentinel. */
  predicate LedOk(led: LedCtx) {
    led.sequence.Some? ==> led.idx < Period(led.sequence.value)
  }

  /** The link state the pattern is chosen from. */
  datatype LinkState = LinkState(mounted: bool, suspended: bool, wantRemoteWakeup: bool, haveNabu: bool)

  /** The pattern for a link state, by priority: not mounted first, then
      a suspend without remote wakeup, then a keyboard heard from, and
      otherwise waiting for the keyboard. */
  function Choose(ls: LinkState): (p: Pattern)
    ensures p == NotMounted <==> !ls.mounted
    ensures p == Suspended <==> ls.mounted && ls.suspended && !ls.wantRemoteWakeup
    ensures p == Healthy <==>
      ls.mounted && !(ls.suspended && !ls.wantRemoteWakeup) && ls.haveNabu
    ensures p == WaitNabu <==>
      ls.mounted && !(ls.suspended && !ls.wantRemoteWakeup) && !ls.haveNabu
  {
    if !ls.mounted then NotMounted
    else if ls.suspended && !ls.wantRemoteWakeup then Suspended
    else if ls.haveNabu then Healthy
    else WaitNabu
  }

  /** led_set_sequence: switching to the pattern already showing changes
      nothing; any other pattern starts over from its first phase, with
      the LED on, at `now`. */
  function SetSequence(led: LedCtx, p: Pattern, now: Millis): (r: LedCtx)
    requires LedOk(led)
    ensures LedOk(r) && r.sequence == Some(p)
    ensures led.sequence == Some(p) ==> r == led
    ensures led.sequence != Some(p) ==> r == LedCtx(Some(p), 0, now, true)
  {
    if led.sequence == Some(p) then led else LedCtx(Some(p), 0, now, true)
  }

  /** led_select_sequence: nothing before the LED is started, otherwise
      the pattern for the link state. */
  function Select(led: LedCtx, ls: LinkState, now: Millis): (r: LedCtx)
    requires LedOk(led)
    ensures LedOk(r)
    ensures led.sequence.None? ==> r == led
    ensures led.sequence.Some? ==> r.sequence == Some(Choose(ls))
    ensures led.sequence == r.sequence ==> r == led
  {
    if led.sequence.None? then led else SetSequence(led, Choose(ls), now)
  }

  /** The phase the LED is in. */
  function Interval(led: LedCtx): (ms: Millis)
    requires LedOk(led) && led.sequence.Some?
    ensures ms > 0
  {
    PhaseAt(led.sequence.value, led.idx).ms
  }

  /** Whether the current phase is over at `now`. */
  predicate Due(led: LedCtx, now: Millis)
    requires LedOk(led) && led.sequence.Some?
  {
    !(Elapsed(now, led.startMs) < Interval(led))
  }

  /** led_task: once the current phase is over, the next one starts where
      it was scheduled to end, wrapping at the sentinel, and the LED
      flips. */
  function Step(led: LedCtx, now: Millis): (r: LedCtx)
    requires LedOk(led)
    ensures LedOk(r) && r.sequence == led.sequence
    ensures led.sequence.None? ==> r == led
    ensures led.sequence.Some? ==>
      (r.state == !led.state <==> Due(led, now)) &&
      (!Due(led, now) ==> r == led)
  {
    if led.sequence.None? then led
    else
      var interval := Interval(led);
      if Elapsed(now, led.startMs) < interval then led
      else
        var idx := if PhaseAt(led.sequence.value, led.idx + 1) == Restart then 0 else led.idx + 1;
        LedCtx(led.sequence, idx, Later(led.startMs, interval), !led.state)
  }

  /** A step that is due moves to the following phase, or back to the
      first one after the last, and keeps the schedule: the new phase
      starts exactly where the old one was due to end. */
  lemma StepAdvances(led: LedCtx, now: Millis)
    requires LedOk(led) && led.sequence.Some? && Due(led, now)
    ensures var r := Step(led, now);
      && r.idx == (led.idx + 1) % Period(led.sequence.value)
      && r.startMs == Later(led.startMs, Interval(led))
  {
    if led.idx + 1 < Period(led.sequence.value) {
      assert PhaseAt(led.sequence.value, led.idx + 1).Ms?;
    }
  }

  /** Every pattern starts with the LED on and alternates: after k steps
      that are due from the start of a pattern, the LED is on exactly
      in the even phases. */
  lemma {:induction false} EvenPhasesOn(led: LedCtx, nows: seq<Millis>)
    requires LedOk(led) && led.sequence.Some?
    requires led.state == (led.idx % 2 == 0)
    ensures var r := Steps(led, nows);
      r.state == (r.idx % 2 == 0)
    decreases |nows|
  {
    if nows != [] {
      var r := Step(led, nows[0]);
      if Due(led, nows[0]) {
        StepAdvances(led, nows[0]);
      }
      EvenPhasesOn(r, nows[1..]);
    }
  }

  /** led_task called once for each clock reading in turn. */
  function Steps(led: LedCtx, nows: seq<Millis>): (r: LedCtx)
    requires LedOk(led)
    ensures LedOk(r) && r.sequence == led.sequence
    decreases |nows|
  {
    if nows == [] then led else Steps(Step(led, nows[0]), nows[1..])
  }
}
