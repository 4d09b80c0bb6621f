/**
 * The USB descriptor callbacks that compute something: the HID report
 * descriptor chosen by interface number, and the string descriptors,
 * whose ASCII text is widened to 16-bit code units behind a header word
 * giving the descriptor type and its length in bytes (section 9.6.7 of
 * the USB 2.0 specification).
 */
module Descriptors {
  import opened Wrappers

  /** ITF_NUM_KBD, ITF_NUM_JOY0 and ITF_NUM_JOY1. */
  const ItfKbd: Byte := 0
  const ItfJoy0: Byte := 1
  const ItfJoy1: Byte := 2

  /** desc_hid_kbd and desc_hid_joy. */
  datatype ReportDescriptor = KeyboardDescriptor | GamepadDescriptor

  /** tud_hid_descriptor_report_cb: None stands for NULL. */
  function ReportDescriptorFor(itf: Byte): (r: Option<ReportDescriptor>)
    ensures r == Some(KeyboardDescriptor) <==> itf == ItfKbd
    ensures r == Some(GamepadDescriptor) <==> itf == ItfJoy0 || itf == ItfJoy1
    ensures r.None? <==> itf > ItfJoy1
  {
    if itf == ItfKbd then Some(KeyboardDescriptor)
    else if itf == ItfJoy0 || itf == ItfJoy1 then Some(GamepadDescriptor)
    else None
  }

  /** The string index the configuration descriptor gives each interface. */
  function InterfaceString(itf: Byte): Byte
    requires itf <= ItfJoy1
  {
    4 + itf
  }

  /** A uint16_t word of a descriptor. */
  type Word = x: int | 0 <= x < 0x1_0000

  /** A byte of a descriptor. */
  type Byte = x: int | 0 <= x < 0x100

  /** bDescriptorType of a string descriptor (table 9-5 of the USB 2.0
      specification). */
  const DescTypeString: Byte := 3

  /** English (United States), the one supported language. */
  const LangIdEnglishUS: Word := 0x0409

  /** string_desc_arr[0]: the language ID as two bytes, low byte first. */
  const LangIdBytes: seq<Byte> := [0x09, 0x04]

  /** Entries of string_desc_arr; entry 0 is the language ID, handled on
      its own path, so its text here is never used. */
  const Strings: seq<string> :=
    ["", "@thorpej", "NABU Keyboard Adapter", "v0.5", "Keyboard", "Joystick 0", "Joystick 1"]

  /** string_desc_arr_cnt. */
  const StringCount: nat := 7

  /** The most characters a descriptor carries, and the words of _desc_str. */
  const MaxChars: nat := 31
  const BufferWords: nat := 32

  /** A 16-bit word stored by memcpy from two bytes on a little-endian
      processor. */
  function LeWord(lo: Byte, hi: Byte): (w: Word)
    ensures LowByte(w) == lo && HighByte(w) == hi
  {
    hi * 256 + lo
  }

  /** chr_count as written: strlen stored in a uint8_t, which keeps only
      the length modulo 256, and then capped at 31. */
  function CharCountAsWritten(len: nat): (n: nat)
    ensures n <= MaxChars
  {
    var c := len % 256;
    if c > MaxChars then MaxChars else c
  }

  /** chr_count as intended: the length capped at 31. */
  function CharCount(len: nat): (n: nat)
    ensures n <= MaxChars && n <= len
    ensures n == len || n == MaxChars
  {
    if len > MaxChars then MaxChars else len
  }

  /** A string of 256 characters comes out empty instead of capped. */
  lemma CharCountWraps()
    ensures CharCountAsWritten(256) == 0 && CharCount(256) == MaxChars
  {
  }

  /** Below 256 characters the two counts agree, so every string of the
      firmware's table is counted as intended. */
  lemma {:induction false} CharCountAgreesOnTable(index: nat)
    requires index < StringCount
    ensures CharCountAsWritten(|Strings[index]|) == CharCount(|Strings[index]|) == |Strings[index]|
  {
    assert |Strings[index]| <= 21;
  }

  /** The low byte of a word. */
  function LowByte(w: Word): Byte {
    w % 256
  }

  /** The high byte of a word. */
  function HighByte(w: Word): Byte {
    w / 256
  }

  /** A descriptor header's type: its high byte. */
  function TypeByte(header: Word): Byte {
    HighByte(header)
  }

  /** A descriptor header's length in bytes: its low byte. */
  function LengthByte(header: Word): Byte {
    LowByte(header)
  }

  /** _desc_str[0]: the type in the high byte and, in the low byte, the
      length in bytes of the header and the `count` characters.  The
      length is below 256, so or-ing it under the shifted type is the
      same as adding it. */
  function Header(count: nat): (h: Word)
    requires count <= MaxChars
    ensures TypeByte(h) == DescTypeString
    ensures LengthByte(h) == 2 * count + 2
  {
    DescTypeString * 256 + 2 * count + 2
  }

  /** The length byte is even, covers at least the header and one word,
      and never exceeds the 64 bytes of _desc_str. */
  lemma HeaderLength(count: nat)
    requires count <= MaxChars
    ensures LengthByte(Header(count)) % 2 == 0
    ensures 2 <= LengthByte(Header(count)) <= 2 * BufferWords
  {
  }

  /** A character as one unsigned byte, zero-extended to a code unit. */
  function Unit(c: char): Word {
    (c as int) % 256
  }

  /** The code units of `s`, character by character. */
  function Widen(s: string): (w: seq<Word>)
    ensures |w| == |s|
    ensures forall i :: 0 <= i < |s| ==> w[i] == Unit(s[i])
  {
    seq(|s|, i requires 0 <= i < |s| => Unit(s[i]))
  }

  /** The descriptor words for the text `s`: the header, then at most 31
      characters. */
  function Encode(s: string): (d: seq<Word>)
    ensures 1 <= |d| <= BufferWords
    ensures d[0] == Header(|d| - 1)
    ensures d[1..] == Widen(s[..CharCount(|s|)])
  {
    var n := CharCount(|s|);
    [Header(n)] + Widen(s[..n])
  }

  /** What tud_descriptor_string_cb leaves at the start of _desc_str for
      `index`, up to the length its header gives; None stands for NULL. */
  function StringDescriptor(index: Byte): (r: Option<seq<Word>>)
    ensures r.None? <==> index >= StringCount
    ensures r.Some? ==> 2 <= |r.value| <= BufferWords && r.value[0] == Header(|r.value| - 1)
    ensures index == 0 ==> r == Some([Header(1), LangIdEnglishUS])
  {
    if index == 0 then Some([Header(1), LeWord(LangIdBytes[0], LangIdBytes[1])])
    else if index >= StringCount then None
    else Some(Encode(Strings[index]))
  }

  /** How a host reads a string descriptor: check the type, then take
      the code units the length byte covers. */
  function Decode(d: seq<Word>): (r: Option<seq<Word>>)
    ensures r.Some? ==> |r.value| < |d|
  {
    if |d| == 0 || TypeByte(d[0]) != DescTypeString then None
    else
      var len := LengthByte(d[0]);
      if len < 2 || len % 2 != 0 || len / 2 > |d| then None
      else Some(d[1..len / 2])
  }

  /** A host decodes exactly the characters that were encoded, cut at 31. */
  lemma {:induction false} DecodeEncode(s: string)
    ensures Decode(Encode(s)) == Some(Widen(s[..CharCount(|s|)]))
  {
    var d := Encode(s);
    var n := CharCount(|s|);
    assert d[1..(2 * n + 2) / 2] == d[1..];
  }

  /** Every index the firmware answers decodes to its entry: the
      language ID for index 0 and the whole text for the others. */
  lemma DecodeStringDescriptor(index: Byte)
    requires index < StringCount
    ensures index == 0 ==> Decode(StringDescriptor(index).value) == Some([LangIdEnglishUS])
    ensures index != 0 ==> Decode(StringDescriptor(index).value) == Some(Widen(Strings[index]))
  {
    if index == 0 {
      var d := StringDescriptor(index).value;
      assert LengthByte(d[0]) == 4 && d[1..2] == [LangIdEnglishUS];
    } else {
      var s := Strings[index];
      DecodeEncode(s);
      CharCountAgreesOnTable(index);
      assert s[..|s|] == s;
    }
  }

  /** Each interface has a report descriptor and a name. */
  lemma InterfacesDescribed(itf: Byte)
    requires itf <= ItfJoy1
    ensures ReportDescriptorFor(itf).Some?
    ensures StringDescriptor(InterfaceString(itf)).Some?
    ensures (ReportDescriptorFor(itf) == Some(KeyboardDescriptor)) == (Strings[InterfaceString(itf)] == "Keyboard")
  {
  }

  /** _desc_str, the buffer the string callback fills. */
  class StringBuffer {
    const words: array<Word>

    constructor ()
      ensures fresh(words) && words.Length == BufferWords
    {
      words := new Word[BufferWords](_ => 0);
    }

    /** The conversion loop: the first `count` characters of `s` into
        _desc_str[1..], widened, leaving the header word and the rest of
        the buffer alone. */
    method CopyChars(s: string, count: nat)
      requires count <= |s| && count < words.Length
      modifies words
      ensures words[1..1 + count] == Widen(s[..count])
      ensures words[0] == old(words[0]) && words[1 + count..] == old(words[1 + count..])
    {
      for i := 0 to count
        invariant words[1..1 + i] == Widen(s[..i])
        invariant words[0] == old(words[0]) && words[1 + i..] == old(words[1 + i..])
      {
        words[1 + i] := Unit(s[i]);
        assert s[..i + 1] == s[..i] + [s[i]];
      }
    }

    /** tud_descriptor_string_cb: whether a descriptor was produced (the
        C function returns NULL otherwise, having written nothing). */
    method GetString(index: Byte) returns (ok: bool)
      requires words.Length == BufferWords
      modifies words
      ensures ok <==> StringDescriptor(index).Some?
      ensures ok ==> var d := StringDescriptor(index).value;
        words[..|d|] == d && words[|d|..] == old(words[|d|..])
      ensures !ok ==> words[..] == old(words[..])
    {
      var count: nat;
      if index == 0 {
        words[1] := LeWord(LangIdBytes[0], LangIdBytes[1]);
        count := 1;
      } else {
        if index >= StringCount {
          return false;
        }
        var s := Strings[index];
        count := |s| % 256;
        if count > MaxChars {
          count := MaxChars;
        }
        CharCountAgreesOnTable(index);
        CopyChars(s, count);
      }
      words[0] := Header(count);
      assert words[..count + 1] == [words[0]] + words[1..count + 1];
      return true;
    }
  }
}
