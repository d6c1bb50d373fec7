# Cymbal bus: host controller and hammer firmware, modelled in Dafny

The cymbal is a mechanical percussion instrument. Each servo-driven hammer with a
solenoid striker is run by a small AVR (ATtiny) board. The boards share one SPI bus driven
by a Raspberry Pi. This project models both ends of that bus and proves properties
of the model.

- **`PiControl`** (`picontrol.dfy`, from `rpi/picontrol.py`). The host program.
  - `Kuku` caches the last position sent to each device (`duty`). It drops
    out-of-range positions in `setPos` and clamps them in `move`. It frames commands as
    `[0x69, dev, cmd, param, sum & 0xFF]`.
  - The timed gestures are `set_pos_wait`, `bing_pos` and `bing_note`.
  - The note-sheet player is `play_music_sheet`.
  - The key-code dispatcher is the body of `interact`, together with its selected-hammer
    variable `dev_id`.
  - Every SPI transfer becomes an `Xfer(bytes)` effect and every `time.sleep` a
    `Delay(ms)` effect. Both are appended, in order, to the controller's `trace`.
  - Each operation exists twice:
    - a function over a `Host` value (`SetPosOn`, `PlayOn`, `DispatchOn`, …), the
      reference semantics about which the properties are proved;
    - a method following the source's statements (`Kuku.SetPos`, `PlayMusicSheet`, …),
      proved equal to that function.
  - Python's `KeyError` becomes `Outcome.Raised`. Effects made before the raise stay in
    the trace, as they do in the program.
- **`Cymbal`** (`cymbal.dfy`, from `avr/cymbal.c`). The firmware.
  - The `USI_OVF_vect` interrupt receives one byte per call into `spi_data.arr[4]`,
    `spi_idx` and `spi_ready`. It is the pure step `IsrStep` and the method
    `Device.Isr`, which updates an `array` of four bytes.
  - The main loop's command switch is the pure `Execute` and the method `Device.Poll`.
    They act on this device state:
    - the servo duty `OCR1B`;
    - the solenoid bit of `PORTB`;
    - `DDRB`;
    - an EEPROM map;
    - a log of solenoid writes and 10 ms waits.
  - `getDeviceId` and `getInitialPWM` are functions over the EEPROM map.
  - All arithmetic is on `uint8_t`, written as explicit `% 256`.
- **`Link`** (`link.dfy`). Host and device together.
  - A frame built by `_send` reaches an idle receiver with the same fields. This holds
    provided none of its four bytes after the start byte is `0x69`: the protocol has no
    escaping.
  - Every frame the player and the dispatcher can send is of that kind.
  - What a device then does with such frames.

Two details of the code that the model keeps as written:
- `NOTES` puts `C` on hammer 1 at 38 (`rpi/picontrol.py:22`), so `PlayGoCo` strikes
  both notes of "Go Co" with hammer 1.
- `set_pos_wait` waits whenever the *requested* position differs from the cached one
  (`rpi/picontrol.py:78-80`). It waits even when `setPos` drops that position as out
  of range (`SetPosWaitOn`).

## Model

| member | source | states |
|---|---|---|
| PiControl.InitialIsValid | rpi/picontrol.py:38 | the fresh cache holds devices 1, 2 and 0xFF, every entry in [25,68], and nothing has been sent |
| PiControl.NotesWellFormed | rpi/picontrol.py:18-31 | every note of `NOTES` is on hammer 1 or 2, at a position `setPos` accepts |
| PiControl.Frame | rpi/picontrol.py:66-71 | the frame `_send` builds: length of the data plus 2, `0x69` first, then the data, then `sum(data) & 0xFF`, a value in 0..255 |
| PiControl.FrameOfCommand | rpi/picontrol.py:66-71 | for a three-byte command the frame is `[0x69, dev, cmd, param, (dev+cmd+param) mod 256]` |
| PiControl.Kuku.Send | rpi/picontrol.py:66-71 | building the list by `extend`/`append` transfers exactly `Frame(data)` and leaves the cache alone |
| PiControl.SetPosOn | rpi/picontrol.py:43-47 | out of [25,68]: no change and no frame. In range: `duty[dev] = pos`, keys grow only by `dev`, one frame `[0x69, dev, 1, pos, (dev+1+pos) mod 256]`. Other devices keep their entries. The cache invariant is preserved |
| PiControl.Kuku.SetPos | rpi/picontrol.py:43-47 | the method's new cache and trace are those of `SetPosOn` |
| PiControl.Kuku.GetPos | rpi/picontrol.py:49-50 | returns the cached position exactly when the device is known; `None` where Python raises `KeyError` |
| PiControl.Clamp | rpi/picontrol.py:53-57 | the result is in [25,68]: `x` itself when in range, 68 above, 25 below |
| PiControl.MoveOn | rpi/picontrol.py:52-58 | an unknown device raises and changes nothing. For a known one, the cache becomes `duty[dev := clamped sum]`, with no key added and the other entries unchanged, and exactly one set-position frame with that value is sent. The invariant is preserved |
| PiControl.Kuku.Move | rpi/picontrol.py:52-58 | the method's state and outcome are those of `MoveOn` |
| PiControl.ProgramIdOn | rpi/picontrol.py:60-61 | the cache is unchanged; one frame `[0x69, old, 5, new, (old+5+new) mod 256]` |
| PiControl.Kuku.ProgramId | rpi/picontrol.py:60-61 | the method's state is that of `ProgramIdOn` |
| PiControl.BingOn | rpi/picontrol.py:63-64 | the cache is unchanged and exactly one frame is appended; its payload is `dt & 0xFF` (Euclidean `mod 256`, also for negative `dt`), which is `dt` itself for 0..255 |
| PiControl.Kuku.Bing | rpi/picontrol.py:63-64 | the method's state is that of `BingOn` |
| PiControl.Kuku.Sleep | rpi/picontrol.py:80-101 | `time.sleep` appends one `Delay(ms)` and changes nothing else (`DelayOn`). The calls at lines 80 and 101 go through it; the two pauses of the enter-key gesture (lines 184 and 186) are covered by `FanfareOn` and `FanfareChoreography` |
| PiControl.Kuku.constructor | rpi/picontrol.py:34-38 | a new controller has the initial cache and an empty trace |
| PiControl.SetPosWaitOn | rpi/picontrol.py:75-80 | an unknown device raises before any effect. Otherwise the cache is as after `setPos`, and a settle wait follows exactly when the requested position differs from the old cached one, even when it was dropped. Effects only extend the trace |
| PiControl.SetPosWait | rpi/picontrol.py:75-80 | the method's state and outcome are those of `SetPosWaitOn` |
| PiControl.BingPosOn | rpi/picontrol.py:82-84 | the frames and waits of `set_pos_wait`, followed by one strike frame of length 2 to the same device |
| PiControl.BingPos | rpi/picontrol.py:82-84 | the method's state and outcome are those of `BingPosOn` |
| PiControl.BingNoteOn | rpi/picontrol.py:86-88 | an unknown note raises with no effect. A known note on a valid cache sends its set-position frame, then a settle wait if its position differs from the cache, then the strike |
| PiControl.BingNote | rpi/picontrol.py:86-88 | the method's state and outcome are those of `BingNoteOn` |
| PiControl.SplitFrom | rpi/picontrol.py:92 | scanning with a pending word yields only non-empty tokens free of whitespace |
| PiControl.SplitFromKeepsLetters | rpi/picontrol.py:92 | the scan's tokens concatenate to the pending word followed by the text's non-whitespace characters |
| PiControl.SplitFromWord | rpi/picontrol.py:92 | a run of non-whitespace characters at the head of the text joins the pending word |
| PiControl.Split | rpi/picontrol.py:92 | `text.split()` yields only non-empty tokens free of whitespace |
| PiControl.SplitKeepsLetters | rpi/picontrol.py:92 | the tokens, concatenated, are exactly the non-whitespace characters of the text in order |
| PiControl.SplitSkipsSpace | rpi/picontrol.py:92 | any run of whitespace (tabs, newlines, several spaces) in front of the text yields no token |
| PiControl.SplitWord | rpi/picontrol.py:92 | a non-empty whitespace-free word ended by whitespace or by the end of the text is exactly one token, followed by the tokens of the rest |
| PiControl.SplitJoin | rpi/picontrol.py:92 | splitting tokens written with single spaces between them gives back those tokens |
| PiControl.PlayTokenOn | rpi/picontrol.py:96-101 | an unknown note fails before any frame. An unknown duration fails after the strike. Otherwise the strike is followed by the wait of the duration symbol (`O` 400, `o` 250, `.` 120, `,` 600 ms) |
| PiControl.PlayOn | rpi/picontrol.py:90-101 | playback keeps the cache invariant and only extends the trace; a sheet with no token of length 2 has no effect at all |
| PiControl.WellFormed | rpi/picontrol.py:93-94 | the tokens kept are all of length 2 |
| PiControl.PlaySkipsMalformed | rpi/picontrol.py:93-94 | playing a sheet is playing only its length-2 tokens |
| PiControl.PlaySequential | rpi/picontrol.py:92-101 | playing `a + b` is playing `a`, then `b` from the resulting state unless `a` failed |
| PiControl.KnownSheetPlaysThrough | rpi/picontrol.py:96-100 | on a valid cache, a sheet whose length-2 tokens all use known notes and durations never raises |
| PiControl.PlayGoCo | rpi/picontrol.py:90-101 | on a fresh controller "Go Co" produces, in order, the frames and waits: G set-position, settle, strike, half; C set-position, settle, strike, full |
| PiControl.PlayGo | rpi/picontrol.py:95-101 | the token "Go" on a fresh controller: set-position 45 on hammer 1, settle, strike, half |
| PiControl.PlayCo | rpi/picontrol.py:95-101 | the token "Co" with hammer 1 cached at 45: set-position 38, settle, strike, full, and the cache holds 38 |
| PiControl.PlayMusicSheet | rpi/picontrol.py:90-101 | the token loop's state and outcome are those of `PlayOn` over `Split(text)` |
| PiControl.FanfareOn | rpi/picontrol.py:181-187 | on a valid cache the enter-key gesture never raises, leaves the broadcast entry at 34 and ends with the release strike `bing(0)` |
| PiControl.FanfareChoreography | rpi/picontrol.py:181-187 | on a valid cache the gesture is exactly: set-position 45 to all, a settle wait unless the cache already holds 45, strike 255, pause 200, set-position 34, settle, pause 200, strike 0 |
| PiControl.KeyTable | rpi/picontrol.py:130-191 | the key table's entries: the 21 acted-on codes and their actions |
| PiControl.KeyNotesKnown | rpi/picontrol.py:152-175 | every note key rings a note that `NOTES` holds |
| PiControl.ActOn | rpi/picontrol.py:132-187 | only left shift changes the selection, to the other hammer. Every action keeps the cache invariant and only extends the trace. With the selected device known, no action raises unless it names a note outside `NOTES` |
| PiControl.DispatchOn | rpi/picontrol.py:130-191 | events other than key-down, and unknown codes, change nothing. Left shift toggles between 1 and 2 and sends nothing; no other key changes the selection. With a known selected device no key raises, and the cache invariant holds |
| PiControl.Dispatch | rpi/picontrol.py:130-191 | the if/elif chain has the state, outcome and new `dev_id` of the table-driven `DispatchOn` |
| PiControl.ToggleTwice | rpi/picontrol.py:177-179 | from hammer 1 or 2, two left-shift presses restore the selection and send nothing |
| PiControl.JogKeys | rpi/picontrol.py:132-139 | A, S, D, F are `move(+2, dev_id)`, `move(+1, dev_id)`, `move(-1, dev_id)`, `move(-2, dev_id)`: the selection stays, the selected hammer's entry becomes the clamped sum, no other entry changes, and exactly the set-position frame with that value is sent |
| Cymbal.IsrStep | avr/cymbal.c:95-117 | with a frame ready every byte is ignored. Otherwise `0x69` rewinds the index and stores nothing. Any other byte goes to slot `idx & 3`, other slots unchanged, and `idx` wraps to `(idx+1) mod 256`. `ready` becomes 1 exactly when `idx >= 4` and the checksum matches |
| Cymbal.Device.Isr | avr/cymbal.c:95-120 | the interrupt's update of `arr`, `spi_idx`, `spi_ready` is `IsrStep`; the device state is untouched |
| Cymbal.FeedWhileReady | avr/cymbal.c:99 | while `spi_ready` is set, any run of bytes leaves the receiver unchanged |
| Cymbal.ReceiveFrame | avr/cymbal.c:95-116 | from any idle receiver, `0x69, a, c, p, cs` with `cs = (a+c+p) mod 256` and no `0x69` among them leaves `[a, c, p, cs]` buffered, index 4, ready |
| Cymbal.GetDeviceId | avr/cymbal.c:162-169 | the id is `EEPROM[1]` when `EEPROM[0] == 0x43` and 0 otherwise |
| Cymbal.GetInitialPwm | avr/cymbal.c:171-179 | always in [25,68]; the stored duty when it is in range, `PWM_MIN` otherwise |
| Cymbal.Delays | avr/cymbal.c:231-232 | `n` iterations of the delay loop are `n` 10 ms waits |
| Cymbal.BootHw | avr/cymbal.c:181-199 | at power-up the duty is in range, the solenoid is off, the log is empty and the EEPROM is as given |
| Cymbal.Device.Boot | avr/cymbal.c:181-199 | power-up: `my_id` from EEPROM, receiver all zero, device state `BootHw` |
| Cymbal.Execute | avr/cymbal.c:216-254 | frames for another address change nothing. `CMD_PWM_DUTY` stores the parameter unchecked and is the only command that changes the duty. `CMD_OUT` ends high only for 255, with the log showing the pulse of `p` 10 ms waits. `CMD_PROGRAM` writes exactly cells 1 (`p`) and 0 (the magic `0x43`), so `getDeviceId` returns `p` and the initial duty is kept. `CMD_PROGPWM` writes exactly cell 2. Neither changes anything else, and only these two write EEPROM. `CMD_STOP` makes every pin an input and the solenoid low. `CMD_START` sets `DDRB` to servo and solenoid. Other commands change nothing |
| Cymbal.Device.Poll | avr/cymbal.c:214-257 | a ready frame is executed and `spi_ready` cleared, the rest of the receiver unchanged; with nothing ready, nothing changes |
| Cymbal.ProgramTakesEffectOnReboot | avr/cymbal.c:183 | after `CMD_PROGRAM p`, addressed to this device or broadcast, the EEPROM makes the next power-up answer to `p`, with the same initial duty. The running device keeps its id because `Device.myId` is a `const` |
| Link.SentFrameIsReceived | avr/cymbal.c:95-116 | a frame from `_send` with no `0x69` after the start byte reaches an idle receiver with the same address, command and parameter, ready |
| Link.SetPosFrameDeliverable | rpi/picontrol.py:43-46 | every set-position frame to 1, 2 or 0xFF with a position in [25,68] is free of `0x69` after its start byte |
| Link.BingFrameDeliverable | rpi/picontrol.py:63-64 | the strikes of length 0, 2 and 255 to 1, 2 or 0xFF are free of `0x69` after the start byte |
| Link.SetPosMovesServo | avr/cymbal.c:220-222 | the host's set-position frame, received by an addressed device, sets its servo duty to that position and changes nothing else |
| Link.StrikePulsesSolenoid | avr/cymbal.c:223-235 | the host's note strike (`bing(2)`) drives the solenoid high for two 10 ms waits, then low |
| Link.ProgramIdReprograms | avr/cymbal.c:237-240 | a received `programId(new, old)` frame makes the device's next `getDeviceId` return `new` |
| Link.ProgramIdToStartByteIsLost | avr/cymbal.c:101-104 | `programId(0x69)` is never received. From any idle receiver its parameter rewinds the receiver, which is left with index 1 and not ready |
| Link.StoreStep | avr/cymbal.c:107-116 | an idle receiver below index 3 stores a non-start byte at `idx`, advances the index and is not ready |
| Link.AppendDeliverable | rpi/picontrol.py:66-71 | appending a wait, or a frame free of `0x69` after its start byte, keeps every frame of the trace so |
| Link.SetPosDeliverable | rpi/picontrol.py:43-47 | `setPos` to 1, 2 or 0xFF, whatever the position, adds only frames free of `0x69` after the start byte |
| Link.BingDeliverable | rpi/picontrol.py:63-64 | the strikes of length 0, 2 and 255 add only such frames |
| Link.SetPosWaitDeliverable | rpi/picontrol.py:75-80 | `set_pos_wait` to 1, 2 or 0xFF adds only such frames |
| Link.BingNoteDeliverable | rpi/picontrol.py:86-88 | ringing any note, known or not, adds only such frames |
| Link.PlayTokenDeliverable | rpi/picontrol.py:96-101 | one token of the player adds only such frames |
| Link.PlayDeliverable | rpi/picontrol.py:90-101 | whatever the sheet, every frame the player sends is free of `0x69` after its start byte, so by `SentFrameIsReceived` an idle device receives it intact |
| Link.FanfareDeliverable | rpi/picontrol.py:181-187 | every frame of the enter-key gesture is free of `0x69` after its start byte |
| Link.DispatchDeliverable | rpi/picontrol.py:130-191 | with hammer 1 or 2 selected, every frame any key press sends is free of `0x69` after its start byte |
| Link.ActionDeliverable | rpi/picontrol.py:132-187 | each action of the key table, with hammer 1 or 2 selected, adds only frames free of `0x69` after the start byte |
| Link.JogHammerOne | rpi/picontrol.py:132-133 | the A key on a fresh controller with hammer 1 selected caches 42 for hammer 1 and sends exactly `[0x69,1,1,42,44]` |
| Link.TabOnJogged | rpi/picontrol.py:148-149 | the tab key after that jog sends exactly `[0x69,0xFF,1,40,40]` and leaves hammer 1 cached at 42 |
| Link.BroadcastLeavesCacheStale | rpi/picontrol.py:149 | after jogging hammer 1 by +2 and then tab, the host sends exactly the two frames `[0x69,1,1,42,44]` and `[0x69,0xFF,1,40,40]`; hammer 1 executing them ends at duty 40 while the host still caches 42 for it |

Four definitions carry no contract of their own, and the rows above state what they do:
- `PiControl.SendOn`, the reference for `_send`, is covered by `Kuku.Send` and `Frame`.
- `PiControl.DelayOn` is covered by `Kuku.Sleep` and by the gesture rows.
- `Cymbal.Feed`, the interrupt run once per byte, is covered by `FeedWhileReady`, `ReceiveFrame` and `Link.ProgramIdToStartByteIsLost`.
- `Cymbal.EepromRead` (`avr/cymbal.c:149-160`, an unwritten cell reads `0xFF`) is covered by `GetDeviceId`, `GetInitialPwm` and `Execute`.

## Left out

- The SPI device: `spidev` open, close and speed settings. `xfer` is the `Xfer(bytes)` effect. A failing transfer is not modelled; the source never catches one.
- Frame values outside 0..255 (for example `programId(300)`) stay unbounded ints in `Xfer`. What `spidev` does with them is not part of this model.
- `time.sleep` and the float durations: they are `Delay` effects in integer milliseconds (0.12 s is 120), with no real timing.
- `interact`'s I/O: the epoll loop, `os.open`/`os.read`, the `struct.unpack("IIHHI")` decoding, `KeyboardInterrupt` and the closing of handles. Only the dispatch body for one decoded event is modelled (`Dispatch`).
- `Kuku.close`, the `print` diagnostics, the `__main__` argument and file-reading glue. The commented-out code in `play_music_sheet` and `interact` is also out.
- `PiControl.Kuku.GetPos`: Python raises `KeyError` for an unknown device; the method returns `None` instead, and the callers turn that into `Raised(UnknownDevice)`.
- `PiControl.Split`: the text comes from a file read with Python's default decoding, and that decoding is not modelled. Whitespace is the set `str.isspace` accepts.
- AVR register configuration: `TCCR1`, `GTCCR`, `OCR1C`, `USICR`, the `USISR` flag clear, `cli`/`sei`, and the two one-second start-up delays.
- `DDRB` is a whole byte; `PORTB` is only its solenoid bit, the only bit the firmware sets.
- EEPROM is a map from address to byte. An address never written reads `0xFF`, the erased value. The `EEPE`/`EEMPE` busy-wait handshakes of `EEPROM_write`/`EEPROM_read` are not modelled.
- The interrupt runs concurrently with the main loop through `volatile spi_ready`. The model has them as interleaved sequential calls (`Isr`, `Poll`). `spi_ready` is cleared only after the command has run (`avr/cymbal.c:256`), so bytes that arrive during a strike's delay loop are dropped. `Isr` calls made before `Poll` show this (`FeedWhileReady`). What the model does not capture is how many bytes arrive within the `p` × 10 ms of the pulse, because it has no time.
- The `#if 0` sweep block at the end of the main loop.
