# Peristaltic pump controller: the mode state machine in Dafny

The firmware runs on an M5 AtomS3. It drives a peristaltic pump through an
H-bridge, and the user tunes it with a rotary encoder unit, whose knob is also
a push button. It also serves a small web page, and it keeps two parameters in
the ESP32's emulated EEPROM:

- `ontime`: how many ms the pump runs per cycle;
- `forsink`: how many ms pass between the end of one run and the start of the next.

Every pass of `loop()` does three things in order:

1. It services the web server. A POST to `/update` may overwrite both
   parameters and save them.
2. It watches the encoder button. When the sampled status changes to false,
   `mstatus` moves on by one: 0, 1, 2, 3, 4, then back to 0. The entry latch
   `newpress` is set at the same time.
3. It dispatches on `mstatus`:
   - mode 0 runs the pump whenever the delay has elapsed;
   - mode 1 adds the encoder's movement to `ontime`;
   - mode 2 adds the encoder's movement to `forsink`;
   - mode 3 saves both parameters when the AtomS3's own button, BtnA, is pressed;
   - mode 4 has no case, so nothing happens in it.

The model has three modules.

- `Eeprom` (`eeprom.dfy`) models the parameter store.
  - A C `int` is four bytes, little-endian, two's complement.
  - `PutInt` and `GetInt` are `EEPROM.put` and `EEPROM.get` on a byte buffer.
  - `SavePair` and `LoadPair` write and read both parameters at offsets 0
    and `sizeof(int)`.
  - The class `Store` keeps the 512-byte RAM cache as an `array`, written in
    place by `Put`. It keeps the committed flash contents as a `seq`, which
    `Commit` replaces and which is all that survives a restart.
- `PumpControl` (`pump_control.dfy`) models the controller.
  - `State` holds the globals `mstatus`, `newpress`, `last_btn`,
    `last_value`, `ontime`, `forsink` and `tempus`.
  - `Step` is the pure specification of one pass. It has one function per
    piece of `loop()`: `SampleButton`, `Running`, `AdjustOntime`,
    `AdjustDelay`, `ConfirmSave` and `Dispatch`.
  - `Run` chains passes together, `RemoteUpdated` is `handleUpdate()`, and
    `Boot` is the state after `setup()`.
  - The class `Controller` has the globals as mutable fields and owns a
    `Store`. Its methods `Tick`, `RemoteUpdate` and `Loop` are proved to
    follow those functions, and to write the store exactly when the firmware
    does.
  - Hardware is replaced by inputs and results. A pass takes what it sampled:
    the encoder button status, the encoder reading, `millis()` at the timer
    check and after the pump run, and whether BtnA was pressed. It returns
    the effects it requests: text drawn, a pump run of `ontime` ms, a write
    of the pair.
- `ControlProperties` (`properties.dfy`) proves what the state machine
  promises over one pass and over any run of passes.

Behaviour of the firmware worth knowing (the model follows the code):

- Mode 4 is a fifth state with no handler. In it no parameter changes, the
  pump never runs and the latch stays set until the next press.
- The save in mode 3 is confirmed by BtnA. Mode advance reads the encoder
  unit's button. These are two separate inputs.
- The mode moves on when the sampled encoder-button status changes to false.
  That happens while the knob is held down, not when it is let go. Letting
  it go never advances the mode.
- `tempus` is set after the pump run. The delay is therefore measured from
  the end of one run to the start of the next.
- A negative `forsink` is compared as a `uint64_t`, so the pump never runs
  again.
- A negative `ontime` is passed to `delay`, which takes an unsigned
  argument, so the firmware then blocks for a very long time.
- A remote update with both arguments present is always accepted.
  `String::toInt` turns text that is not a number into 0; it does not
  reject it.

## Model

| member | source | states |
|---|---|---|
| `Eeprom.Wrap32` | src/main.cpp:16-17 | the value a C `int` ends up holding: in 32-bit range, congruent to the input modulo 2^32, and the input itself when that is in range |
| `Eeprom.DecodeEncode` | src/main.cpp:50-51 | reading back the four bytes `EEPROM.put` wrote for an int gives that int as a C `int` |
| `Eeprom.EncodeDecode` | src/main.cpp:63-64 | every four stored bytes are exactly the encoding of the int `EEPROM.get` reads from them |
| `Eeprom.PutInt` | src/main.cpp:50 | a put replaces exactly the four bytes at its offset with the int's encoding; every other byte is kept |
| `Eeprom.GetPutSame` | src/main.cpp:50-51 | getting at the offset just put returns the value put (as a C `int`) |
| `Eeprom.GetPutOther` | src/main.cpp:50-51 | a put does not disturb any int slot it does not overlap, so the two slots are independent |
| `Eeprom.SavePair` | src/main.cpp:50-51 | the save writes `ontime` at offset 0 and `forsink` at offset `sizeof(int)`, and leaves the rest of the 512 bytes unchanged |
| `Eeprom.LoadAfterSave` | src/main.cpp:63-64 | loading after a save returns the saved pair, wrapped to C `int`, and exactly the saved pair when both values are in `int` range |
| `Eeprom.SaveAfterLoad` | src/main.cpp:63-64 | saving the pair that was just loaded leaves the stored bytes unchanged |
| `Eeprom.Store.Begin` | src/main.cpp:62 | `EEPROM.begin(512)`: a fresh 512-byte cache that holds the flash contents |
| `Eeprom.Store.Put` | src/main.cpp:50 | the cache becomes `PutInt` of its old contents, updated in place |
| `Eeprom.Store.Commit` | src/main.cpp:52 | the flash takes the cache's contents |
| `PumpControl.RemoteUpdated` | src/main.cpp:45-58 | with both arguments present, both parameters are overwritten; `mstatus`, `newpress`, `last_btn`, `last_value` and `tempus` never change; with either argument missing nothing changes |
| `PumpControl.StepKeepsInv` | src/main.cpp:90-100 | every pass keeps `mstatus` in 0..4, and keeps the latch set while in mode 4 |
| `PumpControl.Controller.Setup` | src/main.cpp:62-64 | after start-up, `ontime` and `forsink` are the two ints read from flash at offsets 0 and 4, `tempus` is the start time, mode 0 and the latch are set, and the cache equals the flash |
| `PumpControl.Controller.SaveParameters` | src/main.cpp:188-190 | the cache and the flash both hold the previous cache with the current pair saved at the two offsets |
| `PumpControl.Controller.RemoteUpdate` | src/main.cpp:45-58 | accepted exactly when both arguments are present; the globals become `RemoteUpdated` of the old globals; the flash holds the new pair when accepted and is unchanged otherwise |
| `PumpControl.Controller.SampleButtonStatus` | src/main.cpp:90-100 | the edge detection updates the globals as `SampleButton` specifies and reports the mode number drawn |
| `PumpControl.Controller.RunCase` | src/main.cpp:104-124 | case 0 updates the globals and requests effects as `Running` specifies |
| `PumpControl.Controller.OntimeCase` | src/main.cpp:126-151 | case 1 updates the globals and requests effects as `AdjustOntime` specifies |
| `PumpControl.Controller.DelayCase` | src/main.cpp:153-175 | case 2 updates the globals and requests effects as `AdjustDelay` specifies |
| `PumpControl.Controller.SaveCase` | src/main.cpp:177-209 | case 3 follows `ConfirmSave`; with BtnA pressed the flash holds the current pair, otherwise it is unchanged |
| `PumpControl.Controller.Tick` | src/main.cpp:90-213 | a pass moves the globals to `Step` of the old ones and returns `Step`'s effects; it keeps the invariant; the flash changes only on a save in mode 3, and then it holds the pair |
| `PumpControl.Controller.Loop` | src/main.cpp:87-214 | a whole pass applies the pending web update first, then the tick; the update is accepted exactly when both arguments are present; the flash holds the pair the update saved (if accepted), then the pair a mode-3 BtnA save wrote (if any), and is otherwise unchanged |
| `ControlProperties.ModeAdvance` | src/main.cpp:90-94 | the mode moves on by one, wrapping 4 to 0, exactly when the sampled status differs from `last_btn` and is false; otherwise it is unchanged; it stays in 0..4, and `last_btn` takes the sample |
| `ControlProperties.ModeAfterRun` | src/main.cpp:90-99 | after any run of passes the mode is the starting mode plus the number of presses, modulo 5: the cycle 0, 1, 2, 3, 4 with no skips |
| `ControlProperties.HoldAdvancesOnce` | src/main.cpp:91-99 | holding the button down for any number of passes advances the mode exactly once |
| `ControlProperties.LatchAfterPass` | src/main.cpp:97-184 | every advance sets `newpress`; after a pass it is set exactly when the mode is 4, because modes 0 to 3 clear it in the pass that enters them |
| `ControlProperties.IdleModeIsDead` | src/main.cpp:102-213 | in mode 4 the pass changes only the button state: no parameter, baseline or timer changes, no pump run, no write, and the latch stays set |
| `ControlProperties.OntimeEntry` | src/main.cpp:131-136 | the pass entering mode 1 takes the reading as the baseline, clears the latch, and leaves both parameters unchanged |
| `ControlProperties.OntimeTelescopes` | src/main.cpp:138-148 | in mode 1 without a press, after any run of passes `ontime` has moved by the last reading minus the baseline; `forsink` and `tempus` are untouched |
| `ControlProperties.OntimeSession` | src/main.cpp:128-148 | over a whole visit to mode 1, `ontime` is its value on entry plus the last reading minus the reading on entry, and `forsink` is unchanged |
| `ControlProperties.DelayEntry` | src/main.cpp:158-163 | the pass entering mode 2 takes the reading as the baseline, clears the latch, and leaves both parameters unchanged |
| `ControlProperties.DelayTelescopes` | src/main.cpp:165-173 | in mode 2 without a press, after any run of passes `forsink` has moved by the last reading minus the baseline; `ontime` and `tempus` are untouched |
| `ControlProperties.DelaySession` | src/main.cpp:155-173 | over a whole visit to mode 2, `forsink` is its value on entry plus the last reading minus the reading on entry, and `ontime` is unchanged |
| `ControlProperties.SteadyReading` | src/main.cpp:138-173 | in mode 1 or 2, a reading equal to the baseline changes nothing but `last_btn` and draws nothing |
| `ControlProperties.DispatchCounts` | src/main.cpp:102-213 | the switch requests one pump run of `ontime` exactly in mode 0 once the delay has elapsed, and one write of the current pair exactly in mode 3 when BtnA was pressed; otherwise none |
| `ControlProperties.PumpRunsIff` | src/main.cpp:110-122 | a pass runs the pump, once and for `ontime` ms, exactly when it dispatches in mode 0 with `forsink >= 0` and `now - tempus >= forsink`; `tempus` then becomes the post-run time and is otherwise unchanged |
| `ControlProperties.NoEarlyRerun` | src/main.cpp:110-121 | after a run, `tempus` is the time the run ended; the next pass does not run the pump before `forsink` ms have passed since then, and does run it once they have (while in mode 0) |
| `ControlProperties.NoRerunBeforeDelay` | src/main.cpp:110-121 | in mode 0 without a press, over any number of passes that all come before `tempus + forsink`, the pump never runs, `tempus` keeps its value and both parameters are unchanged |
| `ControlProperties.SaveIff` | src/main.cpp:186-190 | a pass requests one write exactly when BtnA is pressed in mode 3; the write carries the current pair; the mode and both parameters stay as they were |
| `ControlProperties.RestartAfterSave` | src/main.cpp:186-190 | what a mode-3 save writes is what `setup()` reads back after a restart: the pair, wrapped to C `int` |
| `ControlProperties.RestartAfterRemoteUpdate` | src/main.cpp:46-51 | after an accepted remote update, `setup()` reads back the `ontime` and `forsink` of the updated state, as C ints, and exactly those values when they are in `int` range |
| `ControlProperties.RemoteUpdateDuringOntime` | src/main.cpp:138-147 | a remote update in the middle of mode 1 does not recapture the baseline, so the encoder movement since the baseline is added on top of the remotely set `ontime` |
| `ControlProperties.RemoteUpdateDuringDelay` | src/main.cpp:165-172 | the same for `forsink` in mode 2 |
| `ControlProperties.TuneDelayThenSave` | src/main.cpp:153-190 | start from on-time 30 and delay 1000; move the encoder +5, +5, -2 in mode 2; the delay is then 1008; a release and a press reach mode 3, where BtnA saves (30, 1008) and a restart reads it back |
| `ControlProperties.TimerScenario` | src/main.cpp:110-121 | with a 1000 ms delay, 999 ms after the last run nothing happens; at 1000 ms the pump runs once and the timer restarts from the end of the run |

## Left out

- The WiFi access point, the `WebServer` routing, the `handleRoot` page and the 200/400 responses are network I/O and markup. `RemoteUpdate` returns only whether the update was accepted.
- PumpControl.Controller.RemoteUpdate: takes already-parsed integers, each with a presence flag. `String::toInt`, a foreign library call that turns non-numeric text into 0, is not modelled.
- Display rendering is not modelled: clearing, text colours and sizes, coordinates, erasing the old value by drawing it in black, and the black/green flash after a save with its `delay(200)` waits. `Draw` effects record only which text or number a pass draws.
- The H-bridge I2C commands and the blocking `delay(ontime)` and `delay(20)` are not modelled. A pump run is the single effect `RunPump(ontime)`, and the time after it is an input of the pass.
- Peripheral and serial initialisation in `setup()` is hardware set-up. So is `AtomS3.update()`, which only refreshes the button state that the model takes as an input.
- The unused global `save_forsink` is not modelled.
- PumpControl.Controller.Tick: `ontime` and `forsink` are unbounded integers, so signed 32-bit overflow of `ontime + relative_change` is not modelled. The wrap to 32 bits happens only in the store, which is why the restart lemmas state `Wrap32`.
- PumpControl.Controller.Tick: the 32-bit wrap-around of `millis()` is not modelled; time is a natural number. If a later reading were below `tempus`, the elapsed time would be negative and the pump would not run.
- A failed `EEPROM.commit()` is not modelled; the source ignores its result.
- The contents of an EEPROM that was never written are not modelled; the flash contents at start-up are an input.
