/**
 * The keyboard half of the report task: the cursor into a translation
 * entry that is being played out, the sticky modifiers latched by the
 * SYM and TV/NABU keys, and the "zombie" flag that owes the host one
 * empty report after the keyboard was power-cycled.  Each tick sends at
 * most one keyboard report.
 */
module Sequencer {
  import opened Wrappers
  import opened Keymap

  /** A HID keyboard report as this firmware fills it: the modifier byte
      and the first key slot (the other five slots are always zero). */
  datatype KbdReport = KbdReport(modifier: bv8, keycode: bv8)

  /** Nothing pressed. */
  const NoKeyReport := KbdReport(0, 0)

  /** kbd_context.next: NULL, or a pointer to code `index` of a
      translation entry. */
  datatype Cursor = Idle | At(entry: CodeSeq, index: nat)

  /** kbd_context without its queue. */
  datatype KbdState = KbdState(next: Cursor, modifiers: bv16, zombie: bool)

  /** The state kbd_init leaves behind. */
  const InitialKbd := KbdState(Idle, 0, false)

  /** A cursor only ever points past the first code of an entry and
      inside it. */
  predicate CursorOk(cur: Cursor) {
    cur.At? ==> cur.entry.WellFormed() && 1 <= cur.index < EntrySize
  }

  /** send_kbd_report: the code's key in the first slot, and the code's
      modifier bits together with the sticky ones in the modifier byte. */
  function Encode(code: bv16, modifiers: bv16): (r: KbdReport)
    ensures r.keycode as bv16 == HidKey(code)
    ensures (r.modifier as bv16) << 8 == Mods(code) | Mods(modifiers)
  {
    KbdReport(KeymodToHid(code | modifiers), (code & 0xff) as bv8)
  }

  /** The result of kbd_modifier: the code to send and the new sticky
      modifiers. */
  datatype Modified = Modified(code: bv16, modifiers: bv16)

  /** kbd_modifier: a DOWN code latches its modifier bits, an UP code
      releases them; either way the host is sent an empty key so that it
      sees the new modifiers.  Any other code is returned untouched. */
  function KbdModifier(code: bv16, modifiers: bv16): (r: Modified)
    ensures code & FlagDown != 0 ==>
      && r.code == 0
      && r.modifiers & Mods(code) == Mods(code)
      && r.modifiers & !Mods(code) == modifiers & !Mods(code)
    ensures code & FlagDown == 0 && code & FlagUp != 0 ==>
      && r.code == 0
      && r.modifiers & Mods(code) == 0
      && r.modifiers & !Mods(code) == modifiers & !Mods(code)
    ensures code & (FlagDown | FlagUp) == 0 ==> r == Modified(code, modifiers)
  {
    if code & FlagDown != 0 then Modified(KeyNone as bv16, modifiers | Mods(code))
    else if code & FlagUp != 0 then Modified(KeyNone as bv16, modifiers & !Mods(code))
    else Modified(code, modifiers)
  }

  /** The outcome of one tick: the new state, the report sent if any,
      and whether the head of the queue was taken. */
  datatype Tick = Tick(state: KbdState, report: Option<KbdReport>, consumed: bool)

  /** The first code of `entry`, the translation of a freshly dequeued
      byte that is not a link-control code. */
  function Dispatch(s: KbdState, entry: CodeSeq): (t: Tick)
    requires entry.WellFormed()
    ensures t.consumed && t.state.zombie == s.zombie
    // a byte without a mapping is dropped without a report
    ensures entry.c0 == 0 ==> t.state == s && t.report.None?
    // a release of a real key collapses to an empty key
    ensures var code := entry.c0;
      code & FlagDown == 0 && code & FlagUp != 0 && HidKey(code) != 0 ==>
        t.state == s && t.report == Some(Encode(0, s.modifiers))
    // a press of a real key is sent as it is, without a sequence
    ensures var code := entry.c0;
      code & FlagDown != 0 && HidKey(code) != 0 ==>
        t.state == s && t.report == Some(Encode(code, s.modifiers))
    // a press or release of a pure modifier updates the sticky bits
    ensures var code := entry.c0;
      code & (FlagDown | FlagUp) != 0 && HidKey(code) == 0 ==>
        var m := KbdModifier(code, s.modifiers);
        t.state == s.(modifiers := m.modifiers) && t.report == Some(Encode(m.code, m.modifiers))
    // any other first code starts playing the entry unless it ends it
    ensures var code := entry.c0;
      code != 0 && code & (FlagDown | FlagUp) == 0 ==>
        && t.report == Some(Encode(code, s.modifiers))
        && t.state.modifiers == s.modifiers
        && t.state.next == (if code & FlagEndSeq == 0 then At(entry, 1) else s.next)
  {
    var code := entry.c0;
    if code == 0 then Tick(s, None, true)
    else if code & FlagDown != 0 then
      if HidKey(code) == KeyNone as bv16 then
        var m := KbdModifier(code, s.modifiers);
        Tick(s.(modifiers := m.modifiers), Some(Encode(m.code, m.modifiers)), true)
      else Tick(s, Some(Encode(code, s.modifiers)), true)
    else if code & FlagUp != 0 then
      if HidKey(code) == KeyNone as bv16 then
        var m := KbdModifier(code, s.modifiers);
        Tick(s.(modifiers := m.modifiers), Some(Encode(m.code, m.modifiers)), true)
      else Tick(s, Some(Encode(KeyNone as bv16, s.modifiers)), true)
    else
      var next := if code & FlagEndSeq == 0 then At(entry, 1) else s.next;
      Tick(s.(next := next), Some(Encode(code, s.modifiers)), true)
  }

  /** One keyboard tick of the report task while the keyboard interface
      is ready.  `head` is the translation entry of the byte at the head
      of the keyboard queue, if there is one and it is not a link-control
      code. */
  function KbdTick(s: KbdState, head: Option<CodeSeq>): (t: Tick)
    requires CursorOk(s.next)
    requires head.Some? ==> head.value.WellFormed()
    ensures CursorOk(t.state.next)
    // the queue is consulted only when no sequence is in flight and no
    // empty report is owed
    ensures t.consumed <==> s.next.Idle? && !s.zombie && head.Some?
    // a sequence in flight sends its next code and ends on a zero or an
    // END-OF-SEQUENCE code; the zombie report waits behind it
    ensures s.next.At? ==>
      var code := s.next.entry.Code(s.next.index);
      && t.report == Some(Encode(code, s.modifiers))
      && t.state.modifiers == s.modifiers && t.state.zombie == s.zombie
      && (t.state.next.Idle? <==> code == 0 || code & FlagEndSeq != 0)
      && (t.state.next.At? ==> t.state.next == At(s.next.entry, s.next.index + 1))
    // the zombie report clears the sticky modifiers and the host's keys
    ensures s.next.Idle? && s.zombie ==>
      t.state == InitialKbd && t.report == Some(NoKeyReport)
    ensures t.report.None? <==>
      s.next.Idle? && !s.zombie && (head.None? || head.value.c0 == 0)
  {
    match s.next
    case At(e, i) =>
      var code := e.Code(i);
      var next := if code == 0 || code & FlagEndSeq != 0 then Idle else At(e, i + 1);
      Tick(s.(next := next), Some(Encode(code, s.modifiers)), false)
    case Idle =>
      if s.zombie then Tick(KbdState(Idle, 0, false), Some(Encode(KeyNone as bv16, 0)), false)
      else if head.None? then Tick(s, None, false)
      else Dispatch(s, head.value)
  }

  /** Every entry in `entries` has the shape of a translation entry. */
  predicate AllWellFormed(entries: seq<CodeSeq>) {
    forall i :: 0 <= i < |entries| ==> entries[i].WellFormed()
  }

  /** The report list of an optional report. */
  function Sent(r: Option<KbdReport>): seq<KbdReport> {
    if r.Some? then [r.value] else []
  }

  /** What `ticks` ready ticks do, fed with the entries of the bytes
      waiting in the keyboard queue. */
  datatype Trace = Trace(state: KbdState, reports: seq<KbdReport>, rest: seq<CodeSeq>)

  function Run(s: KbdState, input: seq<CodeSeq>, ticks: nat): (tr: Trace)
    requires CursorOk(s.next) && AllWellFormed(input)
    ensures CursorOk(tr.state.next) && AllWellFormed(tr.rest)
    decreases ticks
  {
    if ticks == 0 then Trace(s, [], input)
    else
      var t := KbdTick(s, if input == [] then None else Some(input[0]));
      var rest := if t.consumed then input[1..] else input;
      var tr := Run(t.state, rest, ticks - 1);
      Trace(tr.state, Sent(t.report) + tr.reports, tr.rest)
  }

  /** The reports for a list of codes under fixed sticky modifiers. */
  function Played(codes: seq<bv16>, modifiers: bv16): (rs: seq<KbdReport>)
    ensures |rs| == |codes|
    ensures forall k :: 0 <= k < |codes| ==> rs[k] == Encode(codes[k], modifiers)
  {
    if codes == [] then [] else [Encode(codes[0], modifiers)] + Played(codes[1..], modifiers)
  }

  /** A plain entry, once the cursor points at its code `i`, sends codes
      `i` up to and including the terminating zero, one per tick, and then
      rests with the same modifiers and the same owed report. */
  lemma {:induction false} PlayFrom(e: CodeSeq, i: nat, s: KbdState, input: seq<CodeSeq>)
    requires e.IsPlain() && 1 <= i <= e.Length()
    requires s.next == At(e, i) && AllWellFormed(input)
    ensures Run(s, input, e.Length() + 1 - i) ==
      Trace(s.(next := Idle), Played(e.Slice(i, e.Length() + 1), s.modifiers), input)
    decreases e.Length() - i
  {
    if i < e.Length() {
      var t := KbdTick(s, if input == [] then None else Some(input[0]));
      assert e.Code(i) & FlagMask == 0;
      assert t.state == s.(next := At(e, i + 1));
      PlayFrom(e, i + 1, t.state, input);
    }
  }

  /** The first ready tick with a plain entry at the head of the queue
      sends its first code and points the cursor at the second. */
  lemma FirstTick(e: CodeSeq, modifiers: bv16, input: seq<CodeSeq>, ticks: nat)
    requires e.IsPlain() && e.c0 != 0 && AllWellFormed(input)
    ensures var s := KbdState(Idle, modifiers, false);
      var tail := Run(s.(next := At(e, 1)), input, ticks);
      Run(s, [e] + input, ticks + 1) ==
        Trace(tail.state, [Encode(e.c0, modifiers)] + tail.reports, tail.rest)
  {
    assert ([e] + input)[0] == e && ([e] + input)[1..] == input;
    assert e.c0 & FlagMask == 0;
  }

  /** Playing one more code in front sends its report first. */
  lemma PlayedCons(c: bv16, rest: seq<bv16>, modifiers: bv16)
    ensures Played([c] + rest, modifiers) == [Encode(c, modifiers)] + Played(rest, modifiers)
  {
    assert ([c] + rest)[1..] == rest;
  }

  /** The reports of a whole entry are its first code's report followed
      by the reports of the rest. */
  lemma PlayedWhole(e: CodeSeq, modifiers: bv16)
    requires e.WellFormed()
    ensures var n := e.Length();
      Played(e.Slice(0, n + 1), modifiers) == [Encode(e.c0, modifiers)] + Played(e.Slice(1, n + 1), modifiers)
  {
    var n := e.Length();
    assert e.Slice(0, n + 1) == [e.c0] + e.Slice(1, n + 1);
    PlayedCons(e.c0, e.Slice(1, n + 1), modifiers);
  }

  /** A plain entry of n codes, dequeued with nothing in flight and no
      report owed, produces exactly n + 1 reports over n + 1 ready ticks:
      its codes and then the terminating zero, all under the current
      sticky modifiers, and leaves the state as it found it. */
  lemma PlayEntry(e: CodeSeq, modifiers: bv16, input: seq<CodeSeq>)
    requires e.IsPlain() && e.c0 != 0 && AllWellFormed(input)
    ensures var n := e.Length();
      var tr := Run(KbdState(Idle, modifiers, false), [e] + input, n + 1);
      tr == Trace(KbdState(Idle, modifiers, false), Played(e.Slice(0, n + 1), modifiers), input)
  {
    var n := e.Length();
    var s := KbdState(Idle, modifiers, false);
    FirstTick(e, modifiers, input, n);
    PlayFrom(e, 1, s.(next := At(e, 1)), input);
    PlayedWhole(e, modifiers);
  }

  /** The reports of a whole entry, terminating zero included, end with
      the zero's report. */
  lemma PlayedEnds(e: CodeSeq, modifiers: bv16)
    requires e.WellFormed()
    ensures var n := e.Length();
      var rs := Played(e.Slice(0, n + 1), modifiers);
      |rs| == n + 1 && rs[n] == Encode(0, modifiers)
  {
  }

  /** The report for the terminating zero releases every key, and
      without sticky modifiers it is the empty report. */
  lemma ZeroReport(modifiers: bv16)
    ensures Encode(0, modifiers).keycode == 0
    ensures Mods(modifiers) == 0 ==> Encode(0, modifiers) == NoKeyReport
  {
  }

  /** Every assigned character code 0x00-0x7f plays out its whole entry:
      n + 1 reports for an entry of n codes, the last one carrying no key
      and, without sticky modifiers, no modifier either. */
  lemma PlayCharacter(c: bv8, modifiers: bv16)
    requires c < 0x80 && NabuToHid(c).c0 != 0
    ensures var e := NabuToHid(c);
      var tr := Run(KbdState(Idle, modifiers, false), [e], e.Length() + 1);
      && tr.state == KbdState(Idle, modifiers, false)
      && tr.reports == Played(e.Slice(0, e.Length() + 1), modifiers)
      && tr.reports[e.Length()] == Encode(0, modifiers)
      && (Mods(modifiers) == 0 ==> tr.reports[e.Length()] == NoKeyReport)
  {
    var e := NabuToHid(c);
    assert [e] + [] == [e];
    PlayEntry(e, modifiers, []);
    PlayedEnds(e, modifiers);
    ZeroReport(modifiers);
  }

  /** 'A' (0x41) with no sticky modifiers: Shift, Shift+A, Shift, nothing. */
  lemma ShiftedLetterReports()
    ensures Run(InitialKbd, [NabuToHid(0x41)], 4).reports ==
      [KbdReport(0x02, 0), KbdReport(0x02, KeyA), KbdReport(0x02, 0), NoKeyReport]
  {
    PlayCharacter(0x41, 0);
  }

  /** 'a' (0x61): the key, then nothing; two reports only. */
  lemma LowerLetterReports()
    ensures Run(InitialKbd, [NabuToHid(0x61)], 2).reports == [KbdReport(0, KeyA), NoKeyReport]
  {
    PlayCharacter(0x61, 0);
  }

  /** The modifier bits a special key can latch: left Ctrl, Shift, Alt
      and GUI. */
  predicate ModifierBit(b: bv16) {
    b == ModCtrl || b == ModShift || b == ModAlt || b == ModMeta
  }

  /** A pure modifier press latches its bit and reports it at once. */
  lemma ModifierPress(b: bv16, modifiers: bv16)
    requires ModifierBit(b)
    ensures KbdTick(KbdState(Idle, modifiers, false), Some(Single(FlagDown | b))) ==
      Tick(KbdState(Idle, modifiers | b, false), Some(Encode(0, modifiers | b)), true)
  {
    var code := FlagDown | b;
    assert code != 0 && code & FlagDown != 0 && HidKey(code) == 0 && Mods(code) == b by {
      if b == ModCtrl {} else if b == ModShift {} else if b == ModAlt {} else {}
    }
    var s := KbdState(Idle, modifiers, false);
    assert KbdModifier(code, modifiers) == Modified(0, modifiers | b);
    assert Dispatch(s, Single(code)) == Tick(s.(modifiers := modifiers | b), Some(Encode(0, modifiers | b)), true);
  }

  /** A pure modifier release drops its bit and reports the remaining
      modifiers. */
  lemma ModifierRelease(b: bv16, modifiers: bv16)
    requires ModifierBit(b)
    ensures KbdTick(KbdState(Idle, modifiers, false), Some(Single(FlagUp | b))) ==
      Tick(KbdState(Idle, modifiers & !b, false), Some(Encode(0, modifiers & !b)), true)
  {
    var code := FlagUp | b;
    assert code != 0 && code & FlagDown == 0 && code & FlagUp != 0 && HidKey(code) == 0 && Mods(code) == b by {
      if b == ModCtrl {} else if b == ModShift {} else if b == ModAlt {} else {}
    }
    var s := KbdState(Idle, modifiers, false);
    assert KbdModifier(code, modifiers) == Modified(0, modifiers & !b);
    assert Dispatch(s, Single(code)) == Tick(s.(modifiers := modifiers & !b), Some(Encode(0, modifiers & !b)), true);
  }

  /** A modifier's press and release played back to back: the bit is
      reported, then dropped, and every other sticky bit is kept. */
  lemma ModifierPressRelease(b: bv16, modifiers: bv16)
    requires ModifierBit(b)
    ensures Run(KbdState(Idle, modifiers, false), [Single(FlagDown | b), Single(FlagUp | b)], 2) ==
      Trace(KbdState(Idle, modifiers & !b, false), [Encode(0, modifiers | b), Encode(0, modifiers & !b)], [])
  {
    var down, up := Single(FlagDown | b), Single(FlagUp | b);
    var pressed, released := modifiers | b, modifiers & !b;
    ModifierPress(b, modifiers);
    RunConsumes(KbdState(Idle, modifiers, false), down, [up], 2);
    ReleaseRun(b, pressed, released);
    assert [down] + [up] == [down, up];
  }

  /** A tick that takes the head of the queue, followed by the rest of
      the run. */
  lemma RunConsumes(s: KbdState, e: CodeSeq, rest: seq<CodeSeq>, ticks: nat)
    requires CursorOk(s.next) && e.WellFormed() && AllWellFormed(rest) && ticks > 0
    requires KbdTick(s, Some(e)).consumed
    ensures var t := KbdTick(s, Some(e));
      var tr := Run(t.state, rest, ticks - 1);
      Run(s, [e] + rest, ticks) == Trace(tr.state, Sent(t.report) + tr.reports, tr.rest)
  {
    assert ([e] + rest)[0] == e && ([e] + rest)[1..] == rest;
  }

  /** A release alone in the queue, played for one tick. */
  lemma ReleaseRun(b: bv16, modifiers: bv16, released: bv16)
    requires ModifierBit(b) && released == modifiers & !b
    ensures Run(KbdState(Idle, modifiers, false), [Single(FlagUp | b)], 1) ==
      Trace(KbdState(Idle, released, false), [Encode(0, released)], [])
  {
    ModifierRelease(b, modifiers);
    assert [Single(FlagUp | b)][1..] == [];
  }

  /** SYM pressed (0xe8) and released (0xf8). */
  lemma SymPressRelease(modifiers: bv16)
    ensures Run(KbdState(Idle, modifiers, false), [NabuToHid(0xe8), NabuToHid(0xf8)], 2) ==
      Trace(KbdState(Idle, modifiers & !ModMeta, false), [Encode(0, modifiers | ModMeta), Encode(0, modifiers & !ModMeta)], [])
  {
    ModifierPressRelease(ModMeta, modifiers);
  }

  /** TV/NABU pressed (0xea) and released (0xfa). */
  lemma AltPressRelease(modifiers: bv16)
    ensures Run(KbdState(Idle, modifiers, false), [NabuToHid(0xea), NabuToHid(0xfa)], 2) ==
      Trace(KbdState(Idle, modifiers & !ModAlt, false), [Encode(0, modifiers | ModAlt), Encode(0, modifiers & !ModAlt)], [])
  {
    ModifierPressRelease(ModAlt, modifiers);
  }

  /** SYM held while 'a' is typed: Meta, Meta+a, Meta; Meta stays latched. */
  lemma SymThenLetter()
    ensures var tr := Run(InitialKbd, [NabuToHid(0xe8), NabuToHid(0x61)], 3);
      && tr.reports == [KbdReport(0x08, 0), KbdReport(0x08, KeyA), KbdReport(0x08, 0)]
      && tr.state == KbdState(Idle, ModMeta, false)
  {
    var sym, a := NabuToHid(0xe8), NabuToHid(0x61);
    assert sym == Single(FlagDown | ModMeta);
    var t1 := KbdTick(InitialKbd, Some(sym));
    assert t1.state == KbdState(Idle, ModMeta, false);
    assert [sym, a][1..] == [a];
    PlayEntry(a, ModMeta, []);
    assert [a] + [] == [a];
  }
}
