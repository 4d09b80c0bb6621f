# NABU keyboard to USB HID adapter, modelled in Dafny

This project models the firmware of an adapter that connects a NABU
personal computer keyboard to a USB host. The adapter presents three HID
interfaces: a keyboard and two gamepads. It has two halves, which talk
through three 64-slot byte queues (`nabu_usb_keyboard.c`).

- **Reader.** One loop reads the keyboard's serial link. It sorts each
  byte into the keyboard queue or one of the two joystick queues, and
  drops bytes that lead to no action.
- **Main loop.** Every 10 ms the report task turns queued bytes into HID
  reports:
  - A keyboard byte goes through the 256-entry `nabu_to_hid` table. A
    printable character becomes a short sequence of reports played out
    one per tick (for 'A': Shift, Shift+A, Shift, nothing). A special key
    becomes a single press or release code. SYM and TV/NABU latch sticky
    modifiers.
  - A joystick byte becomes a hat position and a fire button.
  - Link-control codes 0x90-0x95 announce the keyboard, report a key
    clash or report a keyboard fault. A fault power-cycles the keyboard.
- **Health check.** It warns after 5 s of silence from a keyboard that
  has announced itself, and power-cycles it after 10 s. After a power
  cycle every interface owes the host one empty report (the "zombie"
  flags).
- **Status LED.** It blinks one of four patterns, chosen from the USB
  link state and whether the keyboard has been heard from.
- **USB callbacks.** Mount, unmount, suspend and resume update flags and
  keyboard power. The string-descriptor callback widens ASCII text to
  16-bit code units behind a length and type header
  (`usb_descriptors.c`, section 9.6.7 of the USB 2.0 specification).

The modules follow the program's structure.

- `Queue` models `struct queue`. It is a class over a 64-byte array with
  producer and consumer indices, specified by the sequence of bytes it
  holds.
- `Keymap` models the translation table. `Sequencer` models the keyboard
  half of the report task as a function over the cursor, the sticky
  modifiers and the zombie flag. `Joystick` models the joystick reports,
  `StatusLed` the LED patterns and `Reader` the routing of one byte.
- `Firmware` gathers the globals into one `Machine` value. It gives each
  routine as a function on that value, with the reports sent to the host
  as an event log.
- `Device.Adapter` is the imperative model. It is a class holding the
  globals as fields and the three queues as `ByteQueue` objects. Each of
  its methods updates the fields in place and is proved to do to
  `Snapshot()` exactly what the matching `Firmware` function does.
  `Properties` proves what the firmware promises across routines.
- `Descriptors` models the two descriptor callbacks. It includes the
  `_desc_str` buffer as an array filled by a loop.

The firmware's inputs are modelled as parameters:
- **Clock.** Clock readings are `Millis` values modulo 2^32, and every
  time comparison is the unsigned 32-bit difference. The 4-second pause
  inside a power cycle is a second clock reading, `settle`.
- **USB stack.** `tud_hid_n_ready` for each interface is the `Ready`
  parameter. `tud_suspended` is the `suspended` flag the callbacks keep.
  `tud_hid_n_report` and `tud_remote_wakeup` append to the log of sent
  events.
- **Serial link.** The bytes read from the link and the times they were
  read are sequence parameters of the reader.

## Model

| member | source | states |
|---|---|---|
| Queue.Next | nabu_usb_keyboard.c:116-118 | The index after `n` is `n + 1`, wrapping to 0 after slot 63. |
| Queue.ItemsLength | nabu_usb_keyboard.c:116-120 | The ring holds `(prod - cons) mod 64` bytes and never more than 63. It is empty iff `prod == cons` and full (63 bytes) iff `QUEUE_NEXT(prod) == cons`. |
| Queue.ItemsAfterAdd | nabu_usb_keyboard.c:137-151 | When the ring is not full, storing at `prod` and advancing `prod` appends exactly that byte. |
| Queue.ItemsAfterAdvance | nabu_usb_keyboard.c:154-169 | The oldest byte sits at `cons`, and advancing `cons` removes exactly that byte. |
| Queue.Enqueue | nabu_usb_keyboard.c:137-151 | Adding to a queue of fewer than 63 bytes appends the byte. Adding to a full queue changes nothing. |
| Queue.ByteQueue.Contents | nabu_usb_keyboard.c:122-127 | A queue holds at most 63 bytes. |
| Queue.ByteQueue.constructor | nabu_usb_keyboard.c:129-134 | `queue_init` leaves the queue empty. |
| Queue.ByteQueue.IsEmpty | nabu_usb_keyboard.c:119 | `QUEUE_EMPTY_P` holds iff the queue holds nothing. |
| Queue.ByteQueue.IsFull | nabu_usb_keyboard.c:120 | `QUEUE_FULL_P` holds iff the queue holds 63 bytes. |
| Queue.ByteQueue.Add | nabu_usb_keyboard.c:136-151 | Succeeds iff fewer than 63 bytes are held, and then appends `v`. On failure the indices and every slot are unchanged. |
| Queue.ByteQueue.Consume | nabu_usb_keyboard.c:153-169 | Fails iff the queue is empty. Otherwise it returns the oldest byte and removes it exactly when `advance` is set; `prod` never changes. |
| Queue.ByteQueue.Peek | nabu_usb_keyboard.c:171-175 | Returns the oldest byte and leaves both indices unchanged; fails on an empty queue. |
| Queue.ByteQueue.Get | nabu_usb_keyboard.c:177-181 | Returns and removes the oldest byte; fails on an empty queue and changes nothing. |
| Queue.ByteQueue.Drain | nabu_usb_keyboard.c:183-189 | Both indices return to 0 and the queue is empty. |
| Clock.Elapsed | nabu_usb_keyboard.c:966 | The unsigned 32-bit difference `now - since`: the plain difference, plus 2^32 when the clock wrapped in between. |
| Clock.Later | nabu_usb_keyboard.c:970 | `t + d` modulo 2^32, from which exactly `d` has elapsed since `t`. |
| Keymap.KeymodToHid | nabu_usb_keyboard.c:774-778 | The report's modifier byte, shifted back up by 8, is exactly the code's modifier bits (0x0f00). Its high nibble is 0. |
| Keymap.ControlEntry | nabu_usb_keyboard.c:350-450 | Every entry 0x00-0x1f is a plain zero-terminated sequence without DOWN, UP or END-OF-SEQUENCE flags. |
| Keymap.PunctuationEntry | nabu_usb_keyboard.c:451-511 | The same for the entries 0x20-0x3f. |
| Keymap.UpperEntry | nabu_usb_keyboard.c:512-601 | The same for the entries 0x40-0x5f. |
| Keymap.LowerEntry | nabu_usb_keyboard.c:603-638 | The same for the entries 0x60-0x7f. |
| Keymap.AsciiEntry | nabu_usb_keyboard.c:350-638 | Every character code below 0x80 has a plain entry. |
| Keymap.SpecialEntry | nabu_usb_keyboard.c:640-679 | Every entry from 0x80 up is zero-terminated, and every entry 0x80-0xdf is unassigned (all zero). |
| Keymap.NabuToHid | nabu_usb_keyboard.c:346-679 | The whole table: the sixth code of each entry is 0, codes below 0x80 are plain, and 0x80-0xdf are unassigned. |
| Sequencer.Encode | nabu_usb_keyboard.c:805-817 | A report's key is the code's low byte. Its modifier byte holds the code's modifier bits together with the sticky ones. |
| Sequencer.KbdModifier | nabu_usb_keyboard.c:780-803 | DOWN sets exactly the code's modifier bits and UP clears exactly them; every other sticky bit is kept and the empty key is returned. With neither flag, the code and the modifiers come back unchanged. |
| Sequencer.Dispatch | nabu_usb_keyboard.c:1036-1074 | A dequeued byte is always consumed, and an unmapped byte sends nothing. A release of a real key becomes the empty key. A press of a real key is sent as it is. A pure modifier updates the sticky bits and reports them. Any other first code is sent and starts its sequence unless it carries END-OF-SEQUENCE. |
| Sequencer.KbdTick | nabu_usb_keyboard.c:1010-1076 | The queue is consulted iff no sequence is in flight and no empty report is owed. A sequence in flight sends its next code and ends iff that code is 0 or carries END-OF-SEQUENCE. The owed report is sent only after the sequence and clears the sticky modifiers. No report goes out iff nothing is in flight or owed and the head byte is absent or unmapped. |
| Sequencer.PlayFrom | nabu_usb_keyboard.c:1013-1020 | Once the cursor points at code `i` of a plain entry, the following ticks send codes `i` through the terminating zero, one per tick. The cursor then rests and the queue is untouched. |
| Sequencer.FirstTick | nabu_usb_keyboard.c:1036-1070 | The first tick with a plain entry at the head sends its first code and points the cursor at the second. |
| Sequencer.PlayEntry | nabu_usb_keyboard.c:1010-1076 | A plain entry of `n` codes, taken off the queue with nothing in flight or owed, sends exactly its `n` codes and the terminating zero over `n + 1` ticks under the current sticky modifiers. It leaves the state and the rest of the queue as it found them. |
| Sequencer.PlayCharacter | nabu_usb_keyboard.c:350-638 | Every mapped character code plays its whole entry. The last report carries no key, and without sticky modifiers it is the empty report. |
| Sequencer.ShiftedLetterReports | nabu_usb_keyboard.c:515-517 | 'A' (0x41) sends Shift, Shift+A, Shift, then nothing. |
| Sequencer.LowerLetterReports | nabu_usb_keyboard.c:604 | 'a' (0x61) sends only two reports: A, then nothing. |
| Sequencer.ModifierPress | nabu_usb_keyboard.c:1046-1052 | A pure press of any of Ctrl, Shift, Alt or GUI latches that bit and reports the new modifiers at once, with no key. |
| Sequencer.ModifierRelease | nabu_usb_keyboard.c:1053-1061 | A pure release of any of those bits drops that bit, keeps the others, and reports the remaining modifiers with no key. |
| Sequencer.ModifierPressRelease | nabu_usb_keyboard.c:780-803 | A press then release of any of those bits sends exactly two reports: the modifiers with the bit, then without it. Every other sticky bit ends as it was, and the queue ends empty. |
| Sequencer.SymPressRelease | nabu_usb_keyboard.c:663-675 | SYM down (0xe8) then SYM up (0xf8) reports Meta, then the modifiers without Meta. It ends with Meta clear and every other sticky bit as it was. |
| Sequencer.AltPressRelease | nabu_usb_keyboard.c:665-677 | TV/NABU down (0xea) then TV/NABU up (0xfa) reports Alt, then the modifiers without Alt. It ends with Alt clear and every other sticky bit as it was. |
| Sequencer.SymThenLetter | nabu_usb_keyboard.c:663 | SYM down then 'a' sends Meta, Meta+A, Meta: three reports, since the 'a' entry (0x61) holds only `HID_KEY_A`. Meta stays latched. |
| Joystick.JoyToDpad | nabu_usb_keyboard.c:697-710 | Every combination of the four direction bits maps to a valid hat position, from centered (0) to up-left (8). |
| Joystick.JoyReport | nabu_usb_keyboard.c:736-748 | Button A is set iff the fire bit is set, and the hat is a valid position. |
| Joystick.JoyToDpadIsCompass | nabu_usb_keyboard.c:690-710 | The 16-entry table agrees with the compass reading of every stick position, except that opposed directions are centered. |
| Joystick.CenteredIff | nabu_usb_keyboard.c:697-710 | The hat is centered iff no direction is pressed or two opposite directions are. |
| Joystick.FireIndependent | nabu_usb_keyboard.c:739-740 | The fire bit alone decides the buttons, and the direction bits alone decide the hat. |
| StatusLed.PhaseAt | nabu_usb_keyboard.c:201-219 | Each pattern has positive durations followed by the -1 sentinel at its period. |
| StatusLed.Period | nabu_usb_keyboard.c:201-219 | Every pattern has an even number of phases, at least two, so it ends with the LED off. |
| StatusLed.Choose | nabu_usb_keyboard.c:243-266 | The pattern is chosen by priority. It is "not mounted" iff not mounted. It is "suspended" iff mounted, suspended and remote wakeup is not allowed. Otherwise it is "healthy" iff the keyboard was heard from, and "waiting" iff not. |
| StatusLed.SetSequence | nabu_usb_keyboard.c:228-241 | Selecting the pattern already showing changes nothing. Any other pattern restarts at phase 0 with the LED on at `now`. |
| StatusLed.Select | nabu_usb_keyboard.c:243-266 | Before the LED is started nothing changes. Afterwards the chosen pattern shows, and the context is untouched when the pattern stays the same. |
| StatusLed.Interval | nabu_usb_keyboard.c:276 | The current phase always has a positive duration, never the sentinel. |
| StatusLed.Step | nabu_usb_keyboard.c:268-293 | The LED flips iff the current phase is over, and nothing changes before that. The pattern never changes, and the phase index never rests on the sentinel. |
| StatusLed.StepAdvances | nabu_usb_keyboard.c:278-287 | A due step moves to the next phase modulo the period. The new phase starts exactly where the old one was due to end, not at `now`. |
| StatusLed.EvenPhasesOn | nabu_usb_keyboard.c:196-199 | Over any run of steps, the LED is on exactly in the even phases. |
| StatusLed.Steps | nabu_usb_keyboard.c:268-293 | Repeated steps keep the pattern and a valid phase index. |
| Reader.Classify | nabu_usb_keyboard.c:1277-1318 | 0x80/0x81 select stick `c & 1` and queue nothing. A stick is pending only right after its select code. Joystick data goes to the pending stick, and only to it. Any other byte goes to the keyboard queue iff it is mapped or a link-control code. |
| Reader.AcceptedBytes | nabu_usb_keyboard.c:1310 | The keyboard queue can only receive link-control codes, character codes and the special keys at 0xe0 and above. |
| Reader.SelectThenData | nabu_usb_keyboard.c:1280-1298 | A select code followed by a data byte delivers the data to the named stick and leaves nothing pending. |
| Reader.StrayDataDropped | nabu_usb_keyboard.c:1289-1292 | Joystick data with no stick pending is dropped. |
| Firmware.Sticks.With | nabu_usb_keyboard.c:717-720 | Updating one joystick context leaves the other unchanged. |
| Firmware.Initial | nabu_usb_keyboard.c:1322-1404 | After start-up the keyboard queue and both stick queues are empty and no stick is a zombie. The sequencer is idle with no modifiers held. The keyboard is powered but not yet heard from. The device is neither mounted nor suspended, and no remote wakeup is wanted. No warning is pending, and nothing has been sent. The LED runs the not-mounted pattern from its first step, lit, starting at the start-up time. |
| Firmware.LedSelect | nabu_usb_keyboard.c:243-266 | Only the LED context changes, and it becomes the selection for the current link state. |
| Firmware.SetPower | nabu_usb_keyboard.c:826-835 | Power on changes only the power flag. Power off also forgets that the keyboard was heard from and reselects the LED pattern. |
| Firmware.Reboot | nabu_usb_keyboard.c:837-866 | The keyboard ends powered but not heard from. All three queues are empty, all three interfaces owe an empty report, and the keyboard's silence is forgiven until `settle`. No report is sent. |
| Firmware.ErrTask | nabu_usb_keyboard.c:906-954 | Exactly the RAM, ROM and interrupt faults power-cycle the keyboard and empty every queue. Otherwise no queue changes, and only a key clash sends a report. |
| Firmware.ErrTaskCases | nabu_usb_keyboard.c:906-954 | A key clash sends one empty key under the sticky modifiers. A fault is exactly a power cycle. A ping or reset marks the keyboard heard from and reselects the LED. Any other byte changes nothing. |
| Firmware.SendKbd | nabu_usb_keyboard.c:805-817 | Appends exactly one keyboard report, the code encoded under the sticky modifiers, and changes nothing else. |
| Firmware.Emit | nabu_usb_keyboard.c:805-817 | At most one keyboard report is appended, and one is appended iff there is a report. |
| Firmware.KbdDequeue | nabu_usb_keyboard.c:1036-1074 | A dequeued byte that is not a link-control code sends a report iff it is mapped, and never power-cycles. At most one keyboard report is sent. |
| Firmware.KbdPart | nabu_usb_keyboard.c:1010-1076 | At most one keyboard report is sent. Without a power cycle only the keyboard queue's oldest byte may be taken. A sequence in flight or an owed report leaves the queue alone. |
| Firmware.JoyPart | nabu_usb_keyboard.c:1080-1087 | At most one report is sent, on this stick. An owed neutral report goes first and clears the flag without touching the queue. Otherwise the oldest byte is taken and reported. |
| Firmware.SuspendedPart | nabu_usb_keyboard.c:991-1008 | While suspended, the only event sent is a remote wakeup, once, when allowed. A queue loses at most its oldest byte, unless a fault empties them all. |
| Firmware.JoyStep | nabu_usb_keyboard.c:1080-1087 | One pass of the joystick loop keeps the machine well formed and the schedule unchanged. A stick that is not ready changes nothing. |
| Firmware.ReadyPart | nabu_usb_keyboard.c:1010-1088 | An awake tick keeps the machine well formed and the schedule unchanged. |
| Firmware.HidTask | nabu_usb_keyboard.c:958-1089 | Before 10 ms have passed on the schedule nothing changes. Otherwise the schedule advances by exactly 10 ms, not to `now`. |
| Firmware.Deadcheck | nabu_usb_keyboard.c:868-904 | The health check keeps the machine well formed. |
| Firmware.LedTask | nabu_usb_keyboard.c:268-293 | Only the LED context changes, and never its pattern. When a pattern is showing, the LED flips iff its phase is over. |
| Firmware.ReaderStep | nabu_usb_keyboard.c:1252-1318 | One byte changes only the last-message time and the queues, and the pending stick becomes what `Reader.Classify` gives. A byte routed nowhere changes only the time. A keyboard byte is added to the keyboard queue as `Queue.Enqueue` specifies. A joystick byte is added with `Queue.Enqueue` to the queue of the stick `Reader.Classify` names. The other stick and the keyboard queue are left alone. |
| Firmware.ReaderRun | nabu_usb_keyboard.c:1267-1319 | Reading any bytes changes only the last-message time and the queues. The time is that of the last byte read, and reading nothing changes nothing. |
| Firmware.Mount | nabu_usb_keyboard.c:1094-1099 | The mounted flag is set and the LED shows the pattern for the rest of the link state. Nothing else changes. |
| Firmware.Unmount | nabu_usb_keyboard.c:1104-1109 | The mounted flag is cleared and the LED shows "not mounted". Nothing else changes. |
| Firmware.Suspend | nabu_usb_keyboard.c:1123-1133 | Without remote wakeup the keyboard is switched off and forgotten. With it, power and presence are kept. Queues and reports are untouched. |
| Firmware.Resume | nabu_usb_keyboard.c:1138-1147 | The bus is awake and the keyboard powered, and presence is unchanged. Queues and reports are untouched. |
| Properties.CountsAppend | nabu_usb_keyboard.c:958-1089 | Report counts add up over concatenated logs. |
| Properties.AddsKbdCounts | nabu_usb_keyboard.c:1010-1076 | A step that adds at most one keyboard report adds no joystick report. |
| Properties.AddsJoyCounts | nabu_usb_keyboard.c:1079-1088 | A step that adds at most one report of stick `j` adds no other report. |
| Properties.Chain | nabu_usb_keyboard.c:958-1089 | Report counts over a log that grew twice are the sum of the two growths. |
| Properties.SuspendedSendsNoReport | nabu_usb_keyboard.c:991-1008 | While the bus is suspended a tick sends no report. At most it wakes the host, once, when remote wakeup is allowed. |
| Properties.JoyStepCounts | nabu_usb_keyboard.c:1080-1087 | One pass of the joystick loop sends at most one report, on its own stick, and none when that stick is not ready. |
| Properties.ReadyPartCounts | nabu_usb_keyboard.c:1010-1088 | On an awake bus a tick sends at most one report per interface, and none on an interface that is not ready. |
| Properties.OneReportPerInterface | nabu_usb_keyboard.c:958-1089 | A whole report-task tick on an awake bus sends at most one report per interface, none on one that is not ready, and only appends to the log. |
| Properties.ZombieTick | nabu_usb_keyboard.c:1021-1032 | With everything owed and ready, one tick sends exactly one empty keyboard report and one neutral report per stick. It clears the sticky modifiers and all three flags, and leaves the queues alone. |
| Properties.SequenceBeforeZombie | nabu_usb_keyboard.c:1013-1032 | A sequence in flight keeps playing before the owed empty report, and the owed flag survives. |
| Properties.RecoveryAfterReboot | nabu_usb_keyboard.c:837-866 | After a power cycle, the first tick with everything ready puts the host back in a clean state: an empty keyboard report, a neutral report per stick, empty queues and no owed reports. |
| Properties.DeadcheckRebootsOnlyWhenDead | nabu_usb_keyboard.c:871-904 | Below 5 s of silence the health check only clears the warning flag. At 5 s or more, if the keyboard is not yet known or is powered off, it only moves the last-message time to now. Otherwise, between 5 s and 10 s it only sets the warning flag. At 10 s or more it power-cycles the keyboard (`Reboot`) and clears the flag. |
| Properties.WarnsOnce | nabu_usb_keyboard.c:893-898 | The warning is printed once per silence. |
| Properties.Deadchecks | nabu_usb_keyboard.c:1407-1411 | Running the health check at a series of clock readings keeps the state well formed. |
| Properties.UnknownKeyboardNeverRebooted | nabu_usb_keyboard.c:882-890 | A keyboard that has not announced itself is never power-cycled, however long it stays silent. |
| Properties.SilentKeyboardRebooted | nabu_usb_keyboard.c:871-904 | A known keyboard silent since `t0` is warned about at `t0` + 5 s, not again at `t0` + 7 s, and power-cycled at `t0` + 10 s. |
| Properties.ShrinksKeepsClean | nabu_usb_keyboard.c:1277-1318 | Removing the oldest bytes keeps the queues free of bytes that do not belong in them. |
| Properties.ShrinksTransitive | nabu_usb_keyboard.c:116-189 | Taking bytes off the front twice is taking bytes off the front. |
| Properties.KbdPartShrinks | nabu_usb_keyboard.c:1010-1076 | The keyboard half of a tick only takes bytes off the front of the queues. |
| Properties.JoyPartShrinks | nabu_usb_keyboard.c:1080-1087 | A joystick pass only takes bytes off the front of the queues. |
| Properties.SuspendedPartShrinks | nabu_usb_keyboard.c:991-1008 | The suspended branch only takes bytes off the front of the queues. |
| Properties.ShrinksReflexive | nabu_usb_keyboard.c:116-189 | Taking nothing is taking bytes off the front. |
| Properties.JoyStepShrinks | nabu_usb_keyboard.c:1079-1088 | One pass of the joystick loop only takes bytes off the front. |
| Properties.ReadyPartShrinks | nabu_usb_keyboard.c:1010-1088 | An awake tick only takes bytes off the front. |
| Properties.HidTaskShrinks | nabu_usb_keyboard.c:958-1089 | The report task never adds to a queue: it takes the oldest bytes, or empties all queues in a power cycle. |
| Properties.ReaderStepKeepsClean | nabu_usb_keyboard.c:1277-1318 | One reader pass adds a byte only to the queue its class belongs to. |
| Properties.ReaderRunKeepsClean | nabu_usb_keyboard.c:1267-1319 | Whatever the reader reads, the keyboard queue holds only accepted keyboard bytes and the stick queues only joystick data. |
| Properties.DequeuedByteReported | nabu_usb_keyboard.c:1036-1074 | In such a clean state, an ordinary byte taken off the keyboard queue always sends exactly one keyboard report. |
| Properties.SuspendResumePower | nabu_usb_keyboard.c:1123-1147 | A suspend without remote wakeup powers the keyboard off and shows "suspended". The resume powers it on and shows "waiting" until the keyboard announces itself. |
| Properties.PingShowsHeartbeat | nabu_usb_keyboard.c:933-938 | A ping on a mounted, awake link marks the keyboard present, shows the heartbeat pattern and sends nothing. |
| Device.Adapter.Snapshot | nabu_usb_keyboard.c:191-226 | The globals with a valid cursor and LED phase form a well-formed machine. |
| Device.Adapter.constructor | nabu_usb_keyboard.c:1322-1404 | The globals as `main` leaves them before its loop equal `Firmware.Initial`. |
| Device.Adapter.LedSetSequence | nabu_usb_keyboard.c:228-241 | Updates `led_context` in place as `StatusLed.SetSequence` does, and nothing else. |
| Device.Adapter.LedSelectSequence | nabu_usb_keyboard.c:243-266 | Does exactly what `Firmware.LedSelect` does. |
| Device.Adapter.LedTask | nabu_usb_keyboard.c:268-293 | Does exactly what `Firmware.LedTask` (`StatusLed.Step`) does. |
| Device.Adapter.SetPower | nabu_usb_keyboard.c:826-835 | Does exactly what `Firmware.SetPower` does. |
| Device.Adapter.Reboot | nabu_usb_keyboard.c:837-866 | Does exactly what `Firmware.Reboot` does. |
| Device.Adapter.DrainQueues | nabu_usb_keyboard.c:850-853 | Empties the three queues and changes nothing else. |
| Device.Adapter.OweReports | nabu_usb_keyboard.c:855-863 | Sets the three zombie flags and the last-message time, and changes nothing else. |
| Device.Adapter.SendKbdReport | nabu_usb_keyboard.c:805-817 | Appends the encoded report under the sticky modifiers. |
| Device.Adapter.KbdModifier | nabu_usb_keyboard.c:780-803 | Updates the sticky modifiers and returns the code as `Sequencer.KbdModifier` specifies. |
| Device.Adapter.KbdErrTask | nabu_usb_keyboard.c:906-954 | Does exactly what `Firmware.ErrTask` does, and returns whether it power-cycled. |
| Device.Adapter.KbdDeadcheck | nabu_usb_keyboard.c:871-904 | Does exactly what `Firmware.Deadcheck` does. |
| Device.Adapter.KbdTranslate | nabu_usb_keyboard.c:1042-1070 | Updates the cursor, the modifiers and the log as `Sequencer.KbdTick` specifies for a dequeued entry. |
| Device.Adapter.KbdDispatch | nabu_usb_keyboard.c:1036-1074 | Does exactly what `Firmware.KbdDequeue` does. |
| Device.Adapter.KbdAdvance | nabu_usb_keyboard.c:1013-1032 | Advances the cursor, or pays the owed report, as `Sequencer.KbdTick` specifies. |
| Device.Adapter.KbdCatchUp | nabu_usb_keyboard.c:1013-1032 | The same step on the whole machine. |
| Device.Adapter.KbdFromQueue | nabu_usb_keyboard.c:1033-1035 | Takes the oldest keyboard byte, if any, and does what `Firmware.KbdDequeue` does with it. |
| Device.Adapter.HidKeyboard | nabu_usb_keyboard.c:1010-1076 | Does exactly what `Firmware.KbdPart` does. |
| Device.Adapter.JoyFlush | nabu_usb_keyboard.c:1082-1084 | Sends the owed neutral report on stick `i` and clears its flag. |
| Device.Adapter.HidJoystick | nabu_usb_keyboard.c:1081-1086 | Does exactly what `Firmware.JoyPart` does. |
| Device.Adapter.HidSuspended | nabu_usb_keyboard.c:991-1008 | Does exactly what `Firmware.SuspendedPart` does. |
| Device.Adapter.RemoteWakeup | nabu_usb_keyboard.c:1002-1005 | Signals a wakeup and clears the flag. |
| Device.Adapter.HidTask | nabu_usb_keyboard.c:958-1089 | Does exactly what `Firmware.HidTask` does. |
| Device.Adapter.HidReady | nabu_usb_keyboard.c:1010-1088 | Does exactly what `Firmware.ReadyPart` does, with the joystick loop proved by its invariant. |
| Device.Adapter.MountCallback | nabu_usb_keyboard.c:1094-1099 | Does exactly what `Firmware.Mount` does. |
| Device.Adapter.UnmountCallback | nabu_usb_keyboard.c:1104-1109 | Does exactly what `Firmware.Unmount` does. |
| Device.Adapter.SuspendCallback | nabu_usb_keyboard.c:1123-1133 | Does exactly what `Firmware.Suspend` does. |
| Device.Adapter.ResumeCallback | nabu_usb_keyboard.c:1138-1147 | Does exactly what `Firmware.Resume` does. |
| Device.Adapter.Heard | nabu_usb_keyboard.c:1253-1257 | Records the time of the last byte from the keyboard. |
| Device.Adapter.JoyEnqueue | nabu_usb_keyboard.c:1295 | Adds the byte to stick `i`'s queue as `Queue.Enqueue` specifies. |
| Device.Adapter.KbdEnqueue | nabu_usb_keyboard.c:1310-1314 | Adds the byte to the keyboard queue as `Queue.Enqueue` specifies. |
| Device.Adapter.ReadByte | nabu_usb_keyboard.c:1277-1318 | One reader pass does exactly what `Firmware.ReaderStep` does, which routes as `Reader.Classify` specifies. |
| Device.Adapter.Reader | nabu_usb_keyboard.c:1267-1319 | The reader loop over a byte stream does exactly what `Firmware.ReaderRun` does, proved by its loop invariant. |
| Descriptors.ReportDescriptorFor | usb_descriptors.c:78-91 | Interface 0 gets the keyboard descriptor and interfaces 1 and 2 the gamepad descriptor. Anything else gets NULL. |
| Descriptors.LeWord | usb_descriptors.c:168-169 | The two language-ID bytes copied into a word keep the first as the low byte. |
| Descriptors.CharCountAsWritten | usb_descriptors.c:182-185 | The count as written never exceeds 31. |
| Descriptors.CharCount | usb_descriptors.c:182-185 | The intended count is the length capped at 31. |
| Descriptors.CharCountWraps | usb_descriptors.c:182-185 | A 256-character string would be counted as 0 characters instead of 31. |
| Descriptors.CharCountAgreesOnTable | usb_descriptors.c:144-153 | Every string in the table is short enough that both counts equal its length. |
| Descriptors.Header | usb_descriptors.c:194 | The header's high byte is the string-descriptor type (3) and its low byte `2 * count + 2`. |
| Descriptors.HeaderLength | usb_descriptors.c:157-194 | The length byte is even, at least 2 and at most the 64 bytes of `_desc_str`. |
| Descriptors.Widen | usb_descriptors.c:188-190 | Character `i` becomes code unit `i`, zero-extended, in order. |
| Descriptors.Encode | usb_descriptors.c:178-194 | A descriptor is the header for its length followed by the first 31 characters at most, and fits the buffer. |
| Descriptors.StringDescriptor | usb_descriptors.c:161-197 | NULL iff the index is 7 or more. Index 0 gives the 4-byte language-ID descriptor for 0x0409. Every descriptor fits in 32 words. |
| Descriptors.Decode | usb_descriptors.c:194 | A host's reading never yields more code units than the descriptor holds. |
| Descriptors.DecodeEncode | usb_descriptors.c:178-194 | A host decodes exactly the encoded characters, cut at 31. |
| Descriptors.DecodeStringDescriptor | usb_descriptors.c:144-197 | Every index the callback answers decodes to its table entry: the language ID for index 0, the whole text otherwise. |
| Descriptors.InterfacesDescribed | usb_descriptors.c:78-123 | Each interface has a report descriptor and a name, and only the keyboard interface is named "Keyboard". |
| Descriptors.StringBuffer.constructor | usb_descriptors.c:157 | `_desc_str` has 32 words. |
| Descriptors.StringBuffer.CopyChars | usb_descriptors.c:188-190 | The loop writes the widened first `count` characters at words 1 onwards and leaves every other word alone. |
| Descriptors.StringBuffer.GetString | usb_descriptors.c:161-197 | Succeeds iff `StringDescriptor` gives a descriptor, and then the buffer starts with exactly it and is unchanged beyond it. On failure nothing is written. |

## Left out

- The mutexes around each queue operation and the two-core start-up handshake. Each queue operation is one atomic step, and the unlocked emptiness checks are plain reads.
- UART, GPIO, board and LED pin I/O, `sleep_ms`, and the body of `main` outside its state set-up. Clock readings are parameters. `settle` stands for the clock reading after the 4-second pause in a power cycle. The LED level is the `state` field.
- The TinyUSB calls. `tud_hid_n_ready` is a parameter, `tud_suspended` is the `suspended` flag, and reports and remote wakeups are appended to a log. `tud_task` and `tusb_init` are not modelled.
- `printf` and `debug_printf` output: the health check's warning is the `deadcheckWarned` flag, and nothing else is printed.
- The `SIMULATE_KEYSTROKES` generator in `kbd_getc`, which is compiled out. The reader takes its bytes as a parameter.
- The stub GET_REPORT and SET_REPORT callbacks, and the device and configuration descriptor tables (data built from library macros). Only the string indices the configuration gives each interface (4, 5, 6) are used.
- The byte contents of the HID report descriptors: `ReportDescriptorFor` returns which descriptor, not its bytes.
- HID usage values (`HID_KEY_*`, `GAMEPAD_HAT_*`, `GAMEPAD_BUTTON_A`, `TUSB_DESC_STRING`) are concrete numbers from the HID Usage Tables and section 9.6.7 of the USB 2.0 specification. They are not symbolic constants. The proofs use these facts about them:
  - every `HID_KEY_*` value fits in the low byte of a code, and `HID_KEY_NONE` is 0;
  - the hat positions run from 0 (centered) to 8 (up-left), so only centered is 0 and up-left is the largest;
  - button A is bit 0, and the string descriptor type is 3.
  `Sequencer.ShiftedLetterReports`, `Sequencer.LowerLetterReports` and `Sequencer.SymThenLetter` also state the concrete report bytes of Shift, GUI and `HID_KEY_A`.
- The other four slots of the keyboard report are always zero and are not modelled, and neither are the gamepad's axes.
- Descriptors.Unit: a `char` is taken as an unsigned byte. Every string in the table is ASCII, so the sign of `char` does not matter.
- Firmware.HidTask: its own contract states only the schedule. What the tick does is stated by `Properties.OneReportPerInterface`, `Properties.HidTaskShrinks`, `Properties.SuspendedSendsNoReport`, `Properties.ZombieTick` and `Properties.DequeuedByteReported`.
- Firmware.Deadcheck: its own contract states only well-formedness. What it does in each case is stated by `Properties.DeadcheckRebootsOnlyWhenDead`.
- Firmware.JoyStep: its own contract states only well-formedness, the schedule, and that a stick that is not ready changes nothing. What a pass sends and takes is stated by `Properties.JoyStepCounts` and `Properties.JoyStepShrinks`.
- Firmware.ReadyPart: its own contract states only well-formedness and the schedule. What an awake tick sends and takes is stated by `Properties.ReadyPartCounts` and `Properties.ReadyPartShrinks`.
- Firmware.ReaderRun: its contract states the frame and the last-message time, not the queue contents. `Properties.ReaderRunKeepsClean` states only that each queue holds bytes of its own class, not their order.

## Findings

| source | as written | input that shows it | evidently intended | confidence | as-written member | corrected member |
|---|---|---|---|---|---|---|
| usb_descriptors.c:182-185 | `chr_count` is a `uint8_t` assigned `strlen(str)`, so the length is taken modulo 256 before the cap at 31 | a string of 256 characters gives `chr_count` 0 and an empty descriptor | the length capped at 31 (so 31 characters) | not executed; latent, since every string in the table has at most 21 characters | Descriptors.CharCountAsWritten, Descriptors.CharCountWraps | Descriptors.CharCount, Descriptors.DecodeEncode |
