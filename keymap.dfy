/**
 * The translation from NABU key codes to USB HID key codes
 * (`nabu_to_hid`), the flag bits that annotate each entry, and the
 * classes of raw codes the keyboard sends.
 *
 * Every entry is six 16-bit codes, zero-terminated.  A code's low byte
 * is a HID key, bits 8-11 are HID modifier bits, and bits 12-14 are
 * the DOWN, UP and END-OF-SEQUENCE flags.  A printable character is a
 * sequence of reports (for 'A': Shift, Shift+A, Shift, nothing); the
 * special keys that the keyboard reports as separate press and release
 * codes are single codes.
 *
 * The numeric HID usages are those of the HID Usage Tables, Keyboard/
 * Keypad page (section 10), as the TinyUSB headers define them.
 */
module Keymap {

  // Modifier bits: the HID report's modifier byte, shifted left by 8.
  const ModCtrl: bv16 := 0x0100   // left Ctrl
  const ModShift: bv16 := 0x0200  // left Shift
  const ModAlt: bv16 := 0x0400    // left Alt
  const ModMeta: bv16 := 0x0800   // left GUI
  /** All four modifier bits (M_MODS). */
  const ModMask: bv16 := 0x0f00

  // Flag bits of the special-key entries.
  const FlagDown: bv16 := 0x1000
  const FlagUp: bv16 := 0x2000
  const FlagEndSeq: bv16 := 0x4000
  const FlagMask: bv16 := 0x7000

  // HID key usages.
  const KeyNone: bv8 := 0x00
  const KeyA: bv8 := 0x04
  const KeyB: bv8 := 0x05
  const KeyC: bv8 := 0x06
  const KeyD: bv8 := 0x07
  const KeyE: bv8 := 0x08
  const KeyF: bv8 := 0x09
  const KeyG: bv8 := 0x0a
  const KeyH: bv8 := 0x0b
  const KeyI: bv8 := 0x0c
  const KeyJ: bv8 := 0x0d
  const KeyK: bv8 := 0x0e
  const KeyL: bv8 := 0x0f
  const KeyM: bv8 := 0x10
  const KeyN: bv8 := 0x11
  const KeyO: bv8 := 0x12
  const KeyP: bv8 := 0x13
  const KeyQ: bv8 := 0x14
  const KeyR: bv8 := 0x15
  const KeyS: bv8 := 0x16
  const KeyT: bv8 := 0x17
  const KeyU: bv8 := 0x18
  const KeyV: bv8 := 0x19
  const KeyW: bv8 := 0x1a
  const KeyX: bv8 := 0x1b
  const KeyY: bv8 := 0x1c
  const KeyZ: bv8 := 0x1d
  const Key1: bv8 := 0x1e
  const Key2: bv8 := 0x1f
  const Key3: bv8 := 0x20
  const Key4: bv8 := 0x21
  const Key5: bv8 := 0x22
  const Key6: bv8 := 0x23
  const Key7: bv8 := 0x24
  const Key8: bv8 := 0x25
  const Key9: bv8 := 0x26
  const Key0: bv8 := 0x27
  const KeyEnter: bv8 := 0x28
  const KeyEscape: bv8 := 0x29
  const KeyBackspace: bv8 := 0x2a
  const KeyTab: bv8 := 0x2b
  const KeySpace: bv8 := 0x2c
  const KeyMinus: bv8 := 0x2d
  const KeyEqual: bv8 := 0x2e
  const KeyBracketLeft: bv8 := 0x2f
  const KeyBracketRight: bv8 := 0x30
  const KeyBackslash: bv8 := 0x31
  const KeySemicolon: bv8 := 0x33
  const KeyApostrophe: bv8 := 0x34
  const KeyComma: bv8 := 0x36
  const KeyPeriod: bv8 := 0x37
  const KeySlash: bv8 := 0x38
  const KeyPause: bv8 := 0x48
  const KeyPageUp: bv8 := 0x4b
  const KeyPageDown: bv8 := 0x4e
  const KeyArrowRight: bv8 := 0x4f
  const KeyArrowLeft: bv8 := 0x50
  const KeyArrowDown: bv8 := 0x51
  const KeyArrowUp: bv8 := 0x52

  // Raw codes with a fixed meaning on the link.
  const CodeJoy0: bv8 := 0x80
  const CodeJoy1: bv8 := 0x81
  const CodeErrFirst: bv8 := 0x90
  const CodeErrMultiKey: bv8 := 0x90  // several keys pressed at once
  const CodeErrRam: bv8 := 0x91       // faulty keyboard RAM
  const CodeErrRom: bv8 := 0x92       // faulty keyboard ROM
  const CodeErrIsr: bv8 := 0x93       // illegal interrupt
  const CodeErrPing: bv8 := 0x94      // periodic idle ping
  const CodeErrReset: bv8 := 0x95     // keyboard power-up or reset
  const CodeErrLast: bv8 := 0x95
  const CodeJoyDataFirst: bv8 := 0xa0
  const CodeJoyDataLast: bv8 := 0xbf

  /** NABU_CODE_JOYDAT_P. */
  predicate IsJoystickData(c: bv8) {
    CodeJoyDataFirst <= c <= CodeJoyDataLast
  }

  /** NABU_CODE_ERR_P: the link-control codes. */
  predicate IsLinkControl(c: bv8) {
    CodeErrFirst <= c <= CodeErrLast
  }

  /** M_HIDKEY: the HID key of a code. */
  function HidKey(code: bv16): bv16 {
    code & 0x00ff
  }

  /** M_MODS: the modifier bits of a code. */
  function Mods(code: bv16): bv16 {
    code & ModMask
  }

  /** keymod_to_hid: the modifier bits as the report's modifier byte. */
  function KeymodToHid(code: bv16): (m: bv8)
    ensures (m as bv16) << 8 == Mods(code)
    ensures m & 0xf0 == 0
  {
    (Mods(code) >> 8) as bv8
  }

  /** A HID key widened to a 16-bit code. */
  function Wide(k: bv8): (code: bv16)
    ensures HidKey(code) == code && code & FlagMask == 0 && Mods(code) == 0
  {
    k as bv16
  }

  /** Number of codes in every entry. */
  const EntrySize: nat := 6

  /** struct codeseq: six codes, zero-terminated. */
  datatype CodeSeq = CodeSeq(c0: bv16, c1: bv16, c2: bv16, c3: bv16, c4: bv16, c5: bv16) {

    /** codes[i]. */
    function Code(i: nat): bv16
      requires i < EntrySize
    {
      match i
      case 0 => c0
      case 1 => c1
      case 2 => c2
      case 3 => c3
      case 4 => c4
      case _ => c5
    }

    /** The shape every entry has: the last code is the terminating zero. */
    predicate WellFormed() {
      c5 == 0
    }

    /** An entry played out report by report until its terminating zero:
        no code carries a DOWN, UP or END-OF-SEQUENCE flag. */
    predicate IsPlain() {
      && WellFormed()
      && c0 & FlagMask == 0 && c1 & FlagMask == 0 && c2 & FlagMask == 0
      && c3 & FlagMask == 0 && c4 & FlagMask == 0
    }

    /** Index of the first terminating zero at or after `i`. */
    function FirstZero(i: nat): (n: nat)
      requires WellFormed() && i < EntrySize
      ensures i <= n < EntrySize && Code(n) == 0
      ensures forall k :: i <= k < n ==> Code(k) != 0
      decreases EntrySize - i
    {
      if Code(i) == 0 then i else FirstZero(i + 1)
    }

    /** The number of codes before the terminating zero. */
    function Length(): (n: nat)
      requires WellFormed()
      ensures n < EntrySize && Code(n) == 0
      ensures forall k :: 0 <= k < n ==> Code(k) != 0
    {
      FirstZero(0)
    }

    /** codes[i..j] as a sequence. */
    function Slice(i: nat, j: nat): (s: seq<bv16>)
      requires i <= j <= EntrySize
      ensures |s| == j - i
      ensures forall k :: i <= k < j ==> s[k - i] == Code(k)
      decreases j - i
    {
      if i == j then [] else [Code(i)] + Slice(i + 1, j)
    }
  }

  /** An entry with no codes at all. */
  const Unassigned := CodeSeq(0, 0, 0, 0, 0, 0)

  /** An entry of one code. */
  function Single(code: bv16): (e: CodeSeq)
    ensures e.WellFormed() && e.c0 == code
  {
    CodeSeq(code, 0, 0, 0, 0, 0)
  }

  /** An unmodified key: one press, then the key released. */
  function Key(k: bv8): (e: CodeSeq)
    requires k != KeyNone
    ensures e.IsPlain() && e.Length() == 1
  {
    Single(Wide(k))
  }

  /** A key typed with Shift held. */
  function Shifted(k: bv8): (e: CodeSeq)
    requires k != KeyNone
    ensures e.IsPlain() && e.Length() == 3
  {
    CodeSeq(ModShift, ModShift | Wide(k), ModShift, 0, 0, 0)
  }

  /** A key typed with Ctrl held. */
  function Ctrl(k: bv8): (e: CodeSeq)
    requires k != KeyNone
    ensures e.IsPlain() && e.Length() == 3
  {
    CodeSeq(ModCtrl, ModCtrl | Wide(k), ModCtrl, 0, 0, 0)
  }

  /** A key typed with Ctrl and Shift held. */
  function CtrlShifted(k: bv8): (e: CodeSeq)
    requires k != KeyNone
    ensures e.IsPlain() && e.Length() == 5
  {
    CodeSeq(ModCtrl, ModCtrl | ModShift, ModCtrl | ModShift | Wide(k), ModCtrl | ModShift, ModCtrl, 0)
  }

  /** nabu_to_hid for the control codes 0x00-0x1f, typed with Ctrl held. */
  function ControlEntry(c: bv8): (e: CodeSeq)
    requires c < 0x20
    ensures e.IsPlain()
  {
    match c
    case 0x00 => CtrlShifted(Key2)  // C-'@'
    case 0x01 => Ctrl(KeyA)
    case 0x02 => Ctrl(KeyB)
    case 0x03 => Ctrl(KeyC)
    case 0x04 => Ctrl(KeyD)
    case 0x05 => Ctrl(KeyE)
    case 0x06 => Ctrl(KeyF)
    case 0x07 => Ctrl(KeyG)
    case 0x08 => Key(KeyBackspace)  // Backspace
    case 0x09 => Key(KeyTab)  // Tab
    case 0x0a => Key(KeyEnter)  // LF
    case 0x0b => Ctrl(KeyK)
    case 0x0c => Ctrl(KeyL)
    case 0x0d => Key(KeyEnter)  // CR
    case 0x0e => Ctrl(KeyN)
    case 0x0f => Ctrl(KeyO)
    case 0x10 => Ctrl(KeyP)
    case 0x11 => Ctrl(KeyQ)
    case 0x12 => Ctrl(KeyR)
    case 0x13 => Ctrl(KeyS)
    case 0x14 => Ctrl(KeyT)
    case 0x15 => Ctrl(KeyU)
    case 0x16 => Ctrl(KeyV)
    case 0x17 => Ctrl(KeyW)
    case 0x18 => Ctrl(KeyX)
    case 0x19 => Ctrl(KeyY)
    case 0x1a => Ctrl(KeyZ)
    case 0x1b => Key(KeyEscape)  // ESC
    case 0x1c => CtrlShifted(KeyComma)  // C-'<'
    case 0x1d => Ctrl(KeyBracketRight)
    case 0x1e => CtrlShifted(Key6)  // C-'^'
    case 0x1f => CtrlShifted(KeyMinus)  // C-'_'
    case _ => Unassigned
  }

  /** nabu_to_hid for the codes 0x20-0x3f: space, digits and punctuation. */
  function PunctuationEntry(c: bv8): (e: CodeSeq)
    requires 0x20 <= c < 0x40
    ensures e.IsPlain()
  {
    match c
    case 0x20 => Key(KeySpace)
    case 0x21 => Shifted(Key1)  // !
    case 0x22 => Shifted(KeyApostrophe)  // "
    case 0x23 => Shifted(Key3)  // #
    case 0x24 => Shifted(Key4)  // $
    case 0x25 => Shifted(Key5)  // %
    case 0x26 => Shifted(Key7)  // &
    case 0x27 => Key(KeyApostrophe)
    case 0x28 => Shifted(Key9)  // (
    case 0x29 => Shifted(Key0)  // )
    case 0x2a => Shifted(Key8)  // *
    case 0x2b => Shifted(KeyEqual)  // +
    case 0x2c => Key(KeyComma)  // ,
    case 0x2d => Key(KeyMinus)  // -
    case 0x2e => Key(KeyPeriod)  // .
    case 0x2f => Key(KeySlash)  // /
    case 0x30 => Key(Key0)
    case 0x31 => Key(Key1)
    case 0x32 => Key(Key2)
    case 0x33 => Key(Key3)
    case 0x34 => Key(Key4)
    case 0x35 => Key(Key5)
    case 0x36 => Key(Key6)
    case 0x37 => Key(Key7)
    case 0x38 => Key(Key8)
    case 0x39 => Key(Key9)
    case 0x3a => Shifted(KeySemicolon)  // :
    case 0x3b => Key(KeySemicolon)
    case 0x3c => Shifted(KeyComma)  // <
    case 0x3d => Key(KeyEqual)
    case 0x3e => Shifted(KeyPeriod)  // >
    case 0x3f => Shifted(KeySlash)  // ?
    case _ => Unassigned
  }

  /** nabu_to_hid for the codes 0x40-0x5f: upper-case letters and symbols. */
  function UpperEntry(c: bv8): (e: CodeSeq)
    requires 0x40 <= c < 0x60
    ensures e.IsPlain()
  {
    match c
    case 0x40 => Shifted(Key2)  // @
    case 0x41 => Shifted(KeyA)
    case 0x42 => Shifted(KeyB)
    case 0x43 => Shifted(KeyC)
    case 0x44 => Shifted(KeyD)
    case 0x45 => Shifted(KeyE)
    case 0x46 => Shifted(KeyF)
    case 0x47 => Shifted(KeyG)
    case 0x48 => Shifted(KeyH)
    case 0x49 => Shifted(KeyI)
    case 0x4a => Shifted(KeyJ)
    case 0x4b => Shifted(KeyK)
    case 0x4c => Shifted(KeyL)
    case 0x4d => Shifted(KeyM)
    case 0x4e => Shifted(KeyN)
    case 0x4f => Shifted(KeyO)
    case 0x50 => Shifted(KeyP)
    case 0x51 => Shifted(KeyQ)
    case 0x52 => Shifted(KeyR)
    case 0x53 => Shifted(KeyS)
    case 0x54 => Shifted(KeyT)
    case 0x55 => Shifted(KeyU)
    case 0x56 => Shifted(KeyV)
    case 0x57 => Shifted(KeyW)
    case 0x58 => Shifted(KeyX)
    case 0x59 => Shifted(KeyY)
    case 0x5a => Shifted(KeyZ)
    case 0x5b => Key(KeyBracketLeft)  // [
    case 0x5d => Key(KeyBracketRight)  // ]
    case 0x5e => Shifted(Key6)  // ^
    case 0x5f => Shifted(KeyMinus)  // _
    case _ => Unassigned  // 0x5c
  }

  /** nabu_to_hid for the codes 0x60-0x7f: lower-case letters and symbols. */
  function LowerEntry(c: bv8): (e: CodeSeq)
    requires 0x60 <= c < 0x80
    ensures e.IsPlain()
  {
    match c
    case 0x61 => Key(KeyA)
    case 0x62 => Key(KeyB)
    case 0x63 => Key(KeyC)
    case 0x64 => Key(KeyD)
    case 0x65 => Key(KeyE)
    case 0x66 => Key(KeyF)
    case 0x67 => Key(KeyG)
    case 0x68 => Key(KeyH)
    case 0x69 => Key(KeyI)
    case 0x6a => Key(KeyJ)
    case 0x6b => Key(KeyK)
    case 0x6c => Key(KeyL)
    case 0x6d => Key(KeyM)
    case 0x6e => Key(KeyN)
    case 0x6f => Key(KeyO)
    case 0x70 => Key(KeyP)
    case 0x71 => Key(KeyQ)
    case 0x72 => Key(KeyR)
    case 0x73 => Key(KeyS)
    case 0x74 => Key(KeyT)
    case 0x75 => Key(KeyU)
    case 0x76 => Key(KeyV)
    case 0x77 => Key(KeyW)
    case 0x78 => Key(KeyX)
    case 0x79 => Key(KeyY)
    case 0x7a => Key(KeyZ)
    case 0x7b => Shifted(KeyBracketLeft)  // {
    case 0x7d => Shifted(KeyBracketRight)  // }
    case 0x7f => Key(KeyBackspace)  // DEL
    case _ => Unassigned  // 0x60, 0x7c, 0x7e
  }

  /** nabu_to_hid for the character codes 0x00-0x7f: each is played out
      as a sequence of reports. */
  function AsciiEntry(c: bv8): (e: CodeSeq)
    requires c < 0x80
    ensures e.IsPlain()
  {
    if c < 0x20 then ControlEntry(c)
    else if c < 0x40 then PunctuationEntry(c)
    else if c < 0x60 then UpperEntry(c)
    else LowerEntry(c)
  }

  /** nabu_to_hid for the codes 0x80-0xff: only the special keys, which
      arrive as separate press and release codes, are assigned. */
  function SpecialEntry(c: bv8): (e: CodeSeq)
    requires c >= 0x80
    ensures e.WellFormed()
    ensures c < 0xe0 ==> e == Unassigned
  {
    match c
    case 0xe0 => Single(FlagDown | Wide(KeyArrowRight))
    case 0xe1 => Single(FlagDown | Wide(KeyArrowLeft))
    case 0xe2 => Single(FlagDown | Wide(KeyArrowUp))
    case 0xe3 => Single(FlagDown | Wide(KeyArrowDown))
    case 0xe4 => Single(FlagDown | Wide(KeyPageDown))  // |||>
    case 0xe5 => Single(FlagDown | Wide(KeyPageUp))  // <|||
    case 0xe6 => Single(FlagEndSeq | Wide(KeyBackslash))  // NO: held until released, the host repeats it
    case 0xe7 => CodeSeq(ModShift, ModShift | FlagEndSeq | Wide(KeyBackslash), 0, 0, 0, 0)  // YES
    case 0xe8 => Single(FlagDown | ModMeta)  // SYM
    case 0xe9 => Single(FlagDown | Wide(KeyPause))  // PAUSE
    case 0xea => Single(FlagDown | ModAlt)  // TV/NABU
    case 0xf0 => Single(FlagUp | Wide(KeyArrowRight))
    case 0xf1 => Single(FlagUp | Wide(KeyArrowLeft))
    case 0xf2 => Single(FlagUp | Wide(KeyArrowUp))
    case 0xf3 => Single(FlagUp | Wide(KeyArrowDown))
    case 0xf4 => Single(FlagUp | Wide(KeyPageDown))  // |||>
    case 0xf5 => Single(FlagUp | Wide(KeyPageUp))  // <|||
    case 0xf6 => Single(FlagEndSeq)  // NO
    case 0xf7 => Single(ModShift)  // YES
    case 0xf8 => Single(FlagUp | ModMeta)  // SYM
    case 0xf9 => Single(FlagUp | Wide(KeyPause))  // PAUSE
    case 0xfa => Single(FlagUp | ModAlt)  // TV/NABU
    case _ => Unassigned
  }

  /** nabu_to_hid[c].codes. */
  function NabuToHid(c: bv8): (e: CodeSeq)
    ensures e.WellFormed()
    ensures c < 0x80 ==> e.IsPlain()
    ensures 0x80 <= c < 0xe0 ==> e == Unassigned
  {
    if c < 0x80 then AsciiEntry(c) else SpecialEntry(c)
  }
}
