# Bogenampel — a verified model of the archery-timer firmware core

Bogenampel is an archery range timer made of two boards. A hand-held **sender**
(TFT display, three buttons, nRF24 radio) runs the tournament. A **receiver** drives
an LED strip with two group bars and three 7-segment digits, plus a buzzer. This
project models, in Dafny, the integer-only logic of both firmware images and proves
what the code promises about it:

- **Radio packets** (`Commands`): eleven one-byte command codes. A two-byte packet
  carries the command and its checksum `command ^ 0xFF`. The module covers packet
  validation and the code→name table.
- **Tournament state machine** (`Controller`): the sender's four screens SPLASH,
  CONFIG_MENU, PFEILE_HOLEN ("fetch arrows") and SCHIESS_BETRIEB ("shooting"), with
  enter/exit hooks and `millis()`-based time-in-state. The handlers run the menus and
  call the radio. `StateMachine` is a class whose fields are the source's fields. Each
  method is proved equal to a pure function of the old state. The lemmas are about
  those functions, ending with `RunFollowsGraph`: along any series of main-loop cycles,
  whatever button states the button manager's update leaves before each cycle and
  whatever the clock and the radio return, the screen changes only along the
  transitions drawn in the header.
- **Group rotation** (`GroupRotation`): the documented 4-turn cycle over
  (group, position). The menus display a different order; both are modelled and
  compared.
- **Menus** (`ConfigScreen`, `PfeileHolen`, `SchiessBetrieb`): the configuration menu
  (three lines, toggles, "Ändern"/"Start"), the arrow-fetching menu (cursor
  wrap-around, cursor→action map, 4-slot ring buffer of probe results, battery gauge)
  and the shooting screen (a latched end request, ms→s ceiling conversion). Each
  consumes read-once button events.
- **Buttons** (`Buttons`): per-button debouncing over the `buttons[]` array,
  read-once press/release events, long presses, and the arrow-key alarm detector.
- **Receiver LEDs** (`LedDisplay`): digit decomposition, the 7-segment map and the
  `fill_solid` windows on the LED array.
- **Receiver buzzer** (`Buzzer`): the non-blocking beep/pause sequencer.
- **Splash screen connection quality** (`Splash`): colour and text bands and the bar
  width in 16-bit `int`.
- **Configuration constants** (`SenderConfig`, `ReceiverConfig`): encodings, the LED
  layout arithmetic, and the radio parameters both ends must share.

`millis()` is a `now: u32` parameter. Every `millis() - t` is computed modulo 2^32
(`Types.Elapsed`). Raw pin levels are parameters. The buzzer pin level is a field. The
LED strip is an `array<Color>`. The extern calls `sendCommand` and
`testReceiverConnection` are not part of this model. Their results are inputs of a
cycle: `answered` for the probe and `tx` for a send. The calls themselves show up as
`Effect`s (`ProbeReceiver`, `Send(cmd)`), listed with the hooks in the order they
happen.

Where the comments and the code disagree, the model follows the code:

- `ConfigMenu::begin` keeps the chosen time and count, although its header says all
  values go back to their defaults (`BeginKeepsSettings`).
- The alarm is LEFT or RIGHT held for 2 s, not "OK > 3 s".
- Entering PFEILE_HOLEN sets the probe timer to 0 so that the receiver is "tested at
  once". On the wrapping clock that holds only once `millis()` has reached 5000
  (`PfeileProbeSchedule`).
- `StateMachine.cpp` never calls `pfeileHolenMenu.setTournamentConfig`. The menu
  therefore always shows two buttons, and "Reihenfolge" can never be selected
  (`NoReihenfolgeWithTwoShooters`, `MenuStepKeepsSettled`).
- The `.cpp` does not define `advanceToNextGroup`. The model follows the header's
  documented cycle (`Controller.StateMachine.AdvanceToNextGroup`).
- The shown `.cpp` draws the shooting screen itself. It never uses a
  `SchiessBetriebMenu`, so that class is modelled on its own.

## Model

| member | source | states |
|---|---|---|
| Types.Elapsed | Sender/StateMachine.cpp:313 | `now - since` in uint32_t: the plain difference when `now >= since`, else the difference plus 2^32 |
| Types.ElapsedZeroAndStep | Sender/StateMachine.cpp:313 | an interval starting now is 0, and one tick later it is 1, also across the wrap |
| SenderConfig.GroupCode | Sender/Config.h:264-267 | `Groups::Type` encodes AB as 0 and CD as 1 |
| SenderConfig.PositionCode | Sender/Config.h:274-277 | `Groups::Position` encodes POS_1 as 1 and POS_2 as 2 |
| SenderConfig.ConfigValidation | Sender/Config.h:353-375 | the static_asserts: SPI pins 13/11/12, TFT_CS ≠ NRF_CSN, the three button pins are distinct, payload ≤ 32 |
| SenderConfig.QualityTestTiming | Sender/Config.h:152-154 | 10 pings × 500 ms equals the 5000 ms quality test |
| SenderConfig.BatteryLimitsOrdered | Sender/Config.h:165-167 | VOLTAGE_MIN_MV < VOLTAGE_LOW_MV < VOLTAGE_MAX_MV |
| SenderConfig.DefaultsValid | Sender/Config.h:303-316 | the default time 120 and the default count 2 are valid settings |
| SenderConfig.GroupEncodings | Sender/Config.h:264-277 | AB = 0, CD = 1, POS_1 = 1, POS_2 = 2; both encodings are injective |
| ReceiverConfig.LayoutSizes | Empfaenger/Config.h:136-151 | 42 LEDs per digit and 158 in all (fits uint8_t); the digits start at 32, 74 and 116 |
| ReceiverConfig.LayoutTiles | Empfaenger/Config.h:131-151 | the two group bars and the three digit windows tile [0, 158) without gap or overlap |
| ReceiverConfig.RadioParametersMatch | Empfaenger/Config.h:75-97 | channel, pipe address, retry delay and count, and payload size equal the sender's; only the power level differs |
| ReceiverConfig.GroupCodesMatch | Empfaenger/Config.h:166-175 | the receiver's group and position values equal the sender's encodings |
| Commands.CalculateChecksum | Sender/Commands.h:55-57 | the checksum is the command byte XOR 0xFF, i.e. 255 minus it |
| Commands.ValidateChecksum | Sender/Commands.h:64-66 | a packet is valid iff checksum == command XOR 0xFF |
| Commands.Serialize | Sender/Commands.h:41-48 | the packed packet is exactly 2 bytes: command, then checksum |
| Commands.Deserialize | Sender/Commands.h:41-48 | exactly 2 bytes read back as a packet; every other length is refused |
| Commands.MakePacket | Sender/Commands.h:41-57 | the packet built for a command carries its code and a valid checksum |
| Commands.CommandOf | Sender/Commands.h:73-88 | when a byte names a command, that command's code is the byte |
| Commands.ChecksumInvolution | Sender/Commands.h:55-57 | computing the checksum twice gives back the command byte |
| Commands.ValidateChecksumIff | Sender/Commands.h:55-66 | valid exactly when the checksum equals calculateChecksum(command) |
| Commands.PacketRoundTrip | Sender/Commands.h:55-66 | every packet built for a command validates, and survives serialising and reading back |
| Commands.WireRoundTrip | Sender/Commands.h:41-48 | serialising and reading back are mutually inverse on packets and on 2-byte strings |
| Commands.SingleBitFlipRejected | Sender/Commands.h:64-66 | flipping any one of the 8 checksum bits of a valid packet makes it invalid |
| Commands.CommandOfCode | Sender/Commands.h:23-35 | the name lookup inverts the code table |
| Commands.CodesDistinct | Sender/Commands.h:23-35 | the eleven codes are pairwise distinct, and 0x00 and 0x07 are not among them |
| Commands.CommandToStringKnown | Sender/Commands.h:73-88 | commandToString returns a name other than "UNKNOWN" exactly for the eleven codes |
| Commands.UnknownCodeStillValid | Sender/Commands.h:64-66 | the packet {0x07, 0xF8} passes validation, although 0x07 names no command |
| GroupRotation.Next | Sender/StateMachine.h:155-158 | one rotation step moves to a different state, and lands on POS_1 exactly from AB_POS2 or AB_POS1 |
| GroupRotation.MenuOrderNext | Sender/PfeileHolenMenu.cpp:473-503 | one step of the menus' display order moves to a different state, and changes the group exactly from AB_POS1 or CD_POS1 |
| GroupRotation.CycleClosure | Sender/StateMachine.h:155-156 | four steps return every state to itself, in both orders |
| GroupRotation.CycleIsMinimal | Sender/StateMachine.h:155-156 | no positive number of steps below four returns to the start |
| GroupRotation.IterateModFour | Sender/StateMachine.h:155-156 | n steps equal n mod 4 steps |
| GroupRotation.InAllStates | Sender/StateMachine.h:110-111 | every (group, position) value is one of the four combinations |
| GroupRotation.IterateAdd | Sender/StateMachine.h:155-156 | m steps followed by k steps are m + k steps |
| GroupRotation.DocumentedSequence | Sender/StateMachine.h:155-156 | from AB_POS1 the steps visit CD_POS1, CD_POS2 and AB_POS2, then AB_POS1 again |
| GroupRotation.OrdersDisagree | Sender/SchiessBetriebMenu.cpp:109-140 | the header's cycle and the menus' order differ: after AB_POS1 they go to CD_POS1 and CD_POS2 respectively, and they agree only on the step from AB_POS2 |
| Buttons.DebounceAll | Sender/ButtonManager.cpp:43-73 | each button is debounced against its own raw level at the same instant |
| Buttons.TakePressed | Sender/ButtonManager.cpp:105-115 | wasPressed returns the flag of an in-range button and clears that flag only |
| Buttons.TakeReleased | Sender/ButtonManager.cpp:117-127 | wasReleased returns the flag of an in-range button and clears that flag only |
| Buttons.TakeAlarm | Sender/ButtonManager.cpp:146-153 | isAlarmTriggered returns the flag and clears it |
| Buttons.PollKeys | Sender/ConfigMenu.cpp:55-60 | the `wasPressed(LEFT) \|\| wasPressed(RIGHT)`, else `wasPressed(OK)` poll: which key is reported for which pending flags, and that only its flag is cleared |
| Buttons.ButtonManager.constructor | Sender/ButtonManager.cpp:8-19 | three buttons not pressed and not flagged, no alarm; `lastRawState` starts `true`, which `update` reads as "pressed" (`readRawState` at lines 168-171 is `== LOW`), so the comment on line 13 ("HIGH = not pressed") is stale until `begin` samples the pins |
| Buttons.ButtonManager.Begin | Sender/ButtonManager.cpp:21-32 | the raw levels are read into lastRawState; nothing else changes |
| Buttons.ButtonManager.Update | Sender/ButtonManager.cpp:40-97 | the loop debounces every button, then the alarm detector steps on the debounced arrow keys |
| Buttons.ButtonManager.IsPressed | Sender/ButtonManager.cpp:99-103 | true iff the index is in range and that button is down |
| Buttons.ButtonManager.WasPressed | Sender/ButtonManager.cpp:105-115 | the read-once press query on the array |
| Buttons.ButtonManager.WasReleased | Sender/ButtonManager.cpp:117-127 | the read-once release query on the array |
| Buttons.ButtonManager.ReadKey | Sender/ConfigMenu.cpp:55-60 | the menus' poll of the three press events |
| Buttons.ButtonManager.IsLongPress | Sender/ButtonManager.cpp:129-137 | false out of range or when not pressed, else `now - pressTime >= duration` |
| Buttons.ButtonManager.IsAnyPressed | Sender/ButtonManager.cpp:139-144 | the loop returns true iff some button is down |
| Buttons.ButtonManager.IsAlarmTriggered | Sender/ButtonManager.cpp:146-153 | the read-once alarm query |
| Buttons.DebounceRawChange | Sender/ButtonManager.cpp:51-54 | a raw change only records the level and restarts the debounce timer |
| Buttons.DebounceGate | Sender/ButtonManager.cpp:51-72 | the debounced state changes only after DEBOUNCE_MS of a stable raw level, and then to that level |
| Buttons.DebounceEdges | Sender/ButtonManager.cpp:61-71 | a press stamps pressTime and raises the press event; a release raises the release event; update never clears an event |
| Buttons.EventsReadOnce | Sender/ButtonManager.cpp:105-127 | a second wasPressed/wasReleased reports false and changes nothing |
| Buttons.OutOfRangeQueries | Sender/ButtonManager.cpp:100-131 | an index ≥ 3 makes wasPressed, wasReleased and isLongPress false and changes nothing |
| Buttons.PollConsumesAtMostOne | Sender/ConfigMenu.cpp:55-60 | a poll changes at most the reported button; a pending RIGHT survives a consumed LEFT; OK is untouched while an arrow was pending |
| Buttons.NoLongPressWhenReleased | Sender/ButtonManager.cpp:134 | a button that is up is never a long press |
| Buttons.AlarmDetection | Sender/ButtonManager.cpp:80-96 | a fresh arrow press restarts the hold and clears the flag; the flag rises only after 2000 ms of holding; a release ends the hold |
| Buttons.AlarmReadOnce | Sender/ButtonManager.cpp:146-153 | a second isAlarmTriggered reports false |
| Buttons.AlarmRefiresAfterRead | Sender/ButtonManager.cpp:89-91 | once the flag is read during a hold past the threshold, the next update raises it again for the same hold |
| Buttons.TwoAlarmsInOneHold | Sender/ButtonManager.cpp:80-153 | a key pressed at 0 ms and held, polled at 2000 and 2001 ms, reports two alarms |
| ConfigScreen.ToggleTime | Sender/ConfigMenu.cpp:57 | the result is 120 or 240, and differs from a valid input |
| ConfigScreen.ToggleCount | Sender/ConfigMenu.cpp:70 | the result is 2 or 4, and differs from a valid input |
| ConfigScreen.ToggleButton | Sender/ConfigMenu.cpp:82 | the result is 0 or 1, the other of a valid input |
| ConfigScreen.ConfigMenu.constructor | Sender/ConfigMenu.cpp:8-23 | defaults 120 s and 2 shooters, cursor on line 0, "Start" selected, not complete |
| ConfigScreen.ConfigMenu.Begin | Sender/ConfigMenu.cpp:25-39 | resets the navigation and keeps the settings |
| ConfigScreen.ConfigMenu.SetConfig | Sender/ConfigMenu.cpp:41-45 | stores both values and requests a redraw |
| ConfigScreen.ConfigMenu.Update | Sender/ConfigMenu.cpp:47-99 | the menu and the button array after one update |
| ConfigScreen.ConfigMenu.Draw | Sender/ConfigMenu.cpp:101-147 | draw ends with the first draw done and no redraw pending, and changes nothing else |
| ConfigScreen.CompleteIsFinal | Sender/ConfigMenu.cpp:49 | once complete, update changes neither the menu nor the pending events |
| ConfigScreen.UpdateKeepsValid | Sender/ConfigMenu.cpp:53-98 | starting from valid settings and cursor, update keeps them valid |
| ConfigScreen.OthersKeepValid | Sender/ConfigMenu.cpp:25-45 | begin and draw keep the menu valid, and so does setConfig with valid values |
| ConfigScreen.CursorMoves | Sender/ConfigMenu.cpp:53-92 | the cursor moves only on OK: one line forward, or from line 2 back to 0 with "Ändern" selected, which sets changeRequested |
| ConfigScreen.ArrowToggles | Sender/ConfigMenu.cpp:55-83 | an arrow toggles the time on line 0, the count on line 1 and the button on line 2, and nothing else |
| ConfigScreen.CompletesOnlyOnStart | Sender/ConfigMenu.cpp:85-96 | complete becomes true iff OK confirms "Start" on line 2 with no arrow pending |
| ConfigScreen.BeginKeepsSettings | Sender/ConfigMenu.cpp:25-39 | begin resets cursor, button, complete and changeRequested, and keeps time and count |
| ConfigScreen.PendingRightSurvives | Sender/ConfigMenu.cpp:55 | with LEFT and RIGHT both pending, RIGHT is still pending after update |
| ConfigScreen.OkOnlyWithoutArrow | Sender/ConfigMenu.cpp:55-60 | OK's state is untouched while an arrow event was pending |
| ConfigScreen.AtMostOneEventConsumed | Sender/ConfigMenu.cpp:53-98 | an update changes the state of at most one button |
| PfeileHolen.NumButtons | Sender/PfeileHolenMenu.cpp:62 | 3 buttons with 3-4 shooters, otherwise 2 |
| PfeileHolen.ConnectionUpdates | Sender/PfeileHolenMenu.cpp:418-429 | a series of probe results keeps the ring buffer in shape |
| PfeileHolen.BatteryPercent | Sender/PfeileHolenMenu.cpp:373-381 | the intended charge percentage is at most 100 |
| PfeileHolen.BatteryPercentAvr | Sender/PfeileHolenMenu.cpp:379-380 | the percentage as evaluated in 16-bit arithmetic is also at most 100 |
| PfeileHolen.FillWidth | Sender/PfeileHolenMenu.cpp:384 | the gauge fill is at most 12 pixels; it is 0 iff the percentage is below 9 and 12 iff it is 100 |
| PfeileHolen.Gauge | Sender/PfeileHolenMenu.cpp:367-394 | the gauge with the intended percentage: the fill never exceeds the 12-pixel area |
| PfeileHolen.PfeileHolenMenu.constructor | Sender/PfeileHolenMenu.cpp:8-31 | cursor 0, no action, empty history, 2 shooters, AB/POS_1 |
| PfeileHolen.PfeileHolenMenu.Begin | Sender/PfeileHolenMenu.cpp:33-56 | the menu after begin |
| PfeileHolen.PfeileHolenMenu.ClearHistory | Sender/PfeileHolenMenu.cpp:45-47 | the loop sets all four slots to false |
| PfeileHolen.PfeileHolenMenu.Update | Sender/PfeileHolenMenu.cpp:58-89 | the menu and the button array after one update |
| PfeileHolen.PfeileHolenMenu.Draw | Sender/PfeileHolenMenu.cpp:91-134 | the flags after draw |
| PfeileHolen.PfeileHolenMenu.ResetAction | Sender/PfeileHolenMenu.h:87 | the action becomes NONE |
| PfeileHolen.PfeileHolenMenu.UpdateConnectionStatus | Sender/PfeileHolenMenu.cpp:418-429 | one ring-buffer write |
| PfeileHolen.PfeileHolenMenu.UpdateBatteryStatus | Sender/PfeileHolenMenu.cpp:431-436 | stores voltage and power source and flags the redraw |
| PfeileHolen.PfeileHolenMenu.SetTournamentConfig | Sender/PfeileHolenMenu.cpp:438-450 | the menu after setTournamentConfig |
| PfeileHolen.PfeileHolenMenu.SuccessfulPings | Sender/PfeileHolenMenu.cpp:326-329 | the counting loop returns the number of true slots, at most 4 |
| PfeileHolen.CursorWraps | Sender/PfeileHolenMenu.cpp:62-79 | the cursor stays below the button count; LEFT at 0 wraps to the last button, RIGHT at the last wraps to 0, otherwise ±1 |
| PfeileHolen.UpdateKeepsValid | Sender/PfeileHolenMenu.cpp:58-89 | a key keeps the ring buffer and cursor in shape |
| PfeileHolen.MenuOpsKeepValid | Sender/PfeileHolenMenu.cpp:33-134 | begin, draw and resetAction keep the menu in shape |
| PfeileHolen.ConnectionUpdateKeepsValid | Sender/PfeileHolenMenu.cpp:418-429 | a probe result keeps the menu in shape |
| PfeileHolen.BatteryUpdateKeepsValid | Sender/PfeileHolenMenu.cpp:431-436 | the battery setter keeps the menu in shape |
| PfeileHolen.TournamentConfigKeepsValid | Sender/PfeileHolenMenu.cpp:438-450 | the tournament setter keeps the ring buffer and the cursor (below 3) in shape |
| PfeileHolen.OkSelectsAction | Sender/PfeileHolenMenu.cpp:81-88 | OK selects the cursor's action; with 2 shooters cursor 1 selects NEUSTART; the cursor stays |
| PfeileHolen.ArrowsKeepAction | Sender/PfeileHolenMenu.cpp:67-79 | only OK changes the selected action |
| PfeileHolen.BeginClears | Sender/PfeileHolenMenu.cpp:33-56 | begin clears all slots, index, cursor and action, and keeps the tournament values |
| PfeileHolen.ConnectionUpdateRing | Sender/PfeileHolenMenu.cpp:418-429 | a write sets slot idx, leaves the other three, advances idx mod 4, and sets connectionOk |
| PfeileHolen.CountTrueBound | Sender/PfeileHolenMenu.cpp:326-329 | the count of successful probes never exceeds the slots |
| PfeileHolen.RingWrites | Sender/PfeileHolenMenu.cpp:418-421 | the reference ring buffer: four slots written cyclically from an index |
| PfeileHolen.RingHoldsLatest | Sender/PfeileHolenMenu.cpp:418-421 | each of the last four results sits in its slot, (k + i) mod 4 |
| PfeileHolen.RingIndex | Sender/PfeileHolenMenu.cpp:421 | after n results the index has advanced by n mod 4 |
| PfeileHolen.ConnectionUpdatesAreRing | Sender/PfeileHolenMenu.cpp:418-429 | the menu's history after a series of results is the reference ring |
| PfeileHolen.LatestResultReported | Sender/PfeileHolenMenu.cpp:424 | connectionOk is the latest result |
| PfeileHolen.TournamentConfigFlags | Sender/PfeileHolenMenu.cpp:438-450 | the values are always stored; a redraw is flagged iff one of them changed |
| PfeileHolen.DrawClearsFlags | Sender/PfeileHolenMenu.cpp:91-134 | draw clears needsUpdate and firstDraw, and after a first draw also the partial-redraw flags |
| PfeileHolen.BatteryPercentShape | Sender/PfeileHolenMenu.cpp:373-381 | 100 iff ≥ 9600 mV, 0 at ≤ 6000 mV, and `(v - 6000) * 100 / 3600` in between |
| PfeileHolen.BatteryPercentMonotone | Sender/PfeileHolenMenu.cpp:373-381 | more voltage never shows less charge |
| PfeileHolen.GaugeBands | Sender/PfeileHolenMenu.cpp:387-394 | on battery, with the intended percentage: green from 7836 mV, yellow from 6756 mV, red below |
| PfeileHolen.AvrPercentStaysLow | Sender/PfeileHolenMenu.cpp:379-380 | in 16-bit arithmetic the percentage stays ≤ 18 and red between the limits |
| PfeileHolen.AvrPercentWraps | Sender/PfeileHolenMenu.cpp:379-380 | at 7000 mV the intended value is 27 % but the 16-bit one is 9 %; 6655 mV gives 18 % and 6656 mV gives 0 % |
| PfeileHolen.AvrAgreesWhileNoWrap | Sender/PfeileHolenMenu.cpp:379-380 | up to 6655 mV both evaluations agree |
| SchiessBetrieb.SchiessBetriebMenu.constructor | Sender/SchiessBetriebMenu.cpp:8-21 | 120 s, 2 shooters, AB/POS_1, preparation phase, no end request |
| SchiessBetrieb.SchiessBetriebMenu.Begin | Sender/SchiessBetriebMenu.cpp:23-28 | the screen after begin |
| SchiessBetrieb.SchiessBetriebMenu.Update | Sender/SchiessBetriebMenu.cpp:30-35 | the screen and the button array after one update |
| SchiessBetrieb.SchiessBetriebMenu.Draw | Sender/SchiessBetriebMenu.cpp:37-56 | the flags after draw |
| SchiessBetrieb.SchiessBetriebMenu.SetTournamentConfig | Sender/SchiessBetriebMenu.cpp:58-72 | the screen after setTournamentConfig |
| SchiessBetrieb.SchiessBetriebMenu.SetPreparationPhase | Sender/SchiessBetriebMenu.cpp:74-78 | the screen after setPreparationPhase |
| SchiessBetrieb.SchiessBetriebMenu.SetShootingPhase | Sender/SchiessBetriebMenu.cpp:80-84 | the screen after setShootingPhase |
| SchiessBetrieb.SchiessBetriebMenu.ResetEndRequest | Sender/SchiessBetriebMenu.h:106 | the end request is cleared |
| SchiessBetrieb.SchiessBetriebMenu.IsEndRequested | Sender/SchiessBetriebMenu.h:101 | returns the end request |
| SchiessBetrieb.CeilSecondsIsCeiling | Sender/SchiessBetriebMenu.cpp:76 | for ms up to 65535000 (the seconds fit in 16 bits): `s * 1000 >= ms > (s - 1) * 1000`, and s is 0 iff ms is 0 |
| SchiessBetrieb.CeilSecondsWrapsOutsideRange | Sender/SchiessBetriebMenu.cpp:76 | the uint32 sum wraps at 2^32 - 1 ms, and the uint16 store wraps at 65536000 ms; both give 0 s |
| SchiessBetrieb.PhaseSetters | Sender/SchiessBetriebMenu.cpp:74-84 | both setters store the rounded seconds and request a redraw; setPreparationPhase stores its flag, and setShootingPhase is it with `false` |
| SchiessBetrieb.EndRequestLatched | Sender/SchiessBetriebMenu.cpp:30-35 | after update the request is set iff it was set or OK was pending; without OK nothing changes |
| SchiessBetrieb.EndRequestClearedOnlyByResets | Sender/SchiessBetriebMenu.cpp:23-84 | begin and resetEndRequest clear the request; draw and the setters keep it |
| SchiessBetrieb.FullRedrawOnGroupChange | Sender/SchiessBetriebMenu.cpp:58-72 | all four values are stored; a full redraw is forced iff group or position changed |
| SchiessBetrieb.DrawSettles | Sender/SchiessBetriebMenu.cpp:37-56 | after draw neither a redraw nor a first draw is pending, and the timer and request are kept |
| SchiessBetrieb.BeginForcesRedraw | Sender/SchiessBetriebMenu.cpp:23-28 | begin sets firstDraw and needsUpdate, clears the request and sets lastRemainingSec to 0xFFFF |
| Splash.Int16 | Sender/SplashScreen.cpp:148 | the two's-complement int16 value of the product: in range, congruent to it modulo 2^16, and unchanged when it fits |
| Splash.CDiv | Sender/SplashScreen.cpp:148 | C division: the floor quotient for a non-negative dividend, not positive for a negative one |
| Splash.ColorBands | Sender/SplashScreen.cpp:124-131 | green from 80 %, orange from 50 % to 79 %, red below 50 % |
| Splash.TextBands | Sender/SplashScreen.cpp:156-165 | "Sehr gut" from 80, "Mittel" from 50 to 79, "Schlecht" from 1 to 49, "Keine Verbindung" exactly at 0 |
| Splash.RedMeansBadText | Sender/SplashScreen.cpp:124-165 | the red band is exactly the "Schlecht"/"Keine Verbindung" texts |
| Splash.FillWithinBar | Sender/SplashScreen.cpp:148-151 | for 0..100 % the fill is within 0..156 pixels, full iff 100 %, and drawn iff the quality is above 0 |
| Splash.FillOverflow | Sender/SplashScreen.cpp:148-151 | up to 210 % the width is `156 * p / 100`; above (outside the documented 0..100 of SplashScreen.h:31) the int16 product, taken as wrapping, goes negative and no fill is drawn |
| Splash.FillMonotone | Sender/SplashScreen.cpp:148 | more quality never gives a narrower fill in 0..100 % |
| LedDisplay.Filled | Empfaenger/DisplayManager.cpp:42 | fill_solid keeps the strip's length |
| LedDisplay.FilledAt | Empfaenger/DisplayManager.cpp:42 | fill_solid sets exactly the LEDs of its window, and keeps the rest |
| LedDisplay.DigitSegments | Empfaenger/DisplayManager.cpp:106-113 | painting segments keeps the strip's length |
| LedDisplay.Clamp | Empfaenger/DisplayManager.cpp:53-55 | the number shown is min(n, 999): at most 999 and at most n, and equal to one of them |
| LedDisplay.NumberLeds | Empfaenger/DisplayManager.cpp:51-81 | displayNumber keeps the strip's length |
| LedDisplay.DisplayManager.constructor | Empfaenger/DisplayManager.cpp:9-11 | the manager draws on the given array |
| LedDisplay.DisplayManager.FillSolid | Empfaenger/DisplayManager.cpp:42 | the array after fill_solid |
| LedDisplay.DisplayManager.SetGroupAB | Empfaenger/DisplayManager.cpp:41-44 | the A/B bar is filled |
| LedDisplay.DisplayManager.SetGroupCD | Empfaenger/DisplayManager.cpp:46-49 | the C/D bar is filled |
| LedDisplay.DisplayManager.ClearGroups | Empfaenger/DisplayManager.cpp:32-35 | both bars black |
| LedDisplay.DisplayManager.SetGroup | Empfaenger/DisplayManager.cpp:17-30 | the array after setGroup |
| LedDisplay.DisplayManager.DisplayDigit | Empfaenger/DisplayManager.cpp:83-114 | the segment loop paints the digit's window |
| LedDisplay.DisplayManager.DisplayNumber | Empfaenger/DisplayManager.cpp:51-81 | the array after displayNumber |
| LedDisplay.DisplayManager.DisplayTimer | Empfaenger/DisplayManager.cpp:13-15 | displayTimer is displayNumber |
| LedDisplay.DigitsRecompose | Empfaenger/DisplayManager.cpp:53-60 | `100 * d100 + 10 * d10 + d1 == min(n, 999)`, each digit ≤ 9 |
| LedDisplay.DigitSegmentsShape | Empfaenger/DisplayManager.cpp:106-113 | after k iterations exactly the first 6k LEDs of the window are painted, each with its segment's colour |
| LedDisplay.DigitWindow | Empfaenger/DisplayManager.cpp:105-113 | displayDigit writes only [start, start + 42); there LED start + 6·seg + j gets the colour iff bit 6 - seg of the pattern is set, else black |
| LedDisplay.EightAndOne | Empfaenger/DisplayManager.cpp:86-96 | 8 lights all seven segments; 1 lights only B and C (segments 0 and 4) |
| LedDisplay.InvalidDigitIsZero | Empfaenger/DisplayManager.cpp:99-101 | a digit above 9 is drawn as 0 |
| LedDisplay.SegmentsIdentifyDigit | Empfaenger/DisplayManager.cpp:86-97 | two digits that light the same segments are equal |
| LedDisplay.BlankDigitIsDark | Empfaenger/DisplayManager.cpp:67-74 | a blanked digit leaves all 42 of its LEDs black |
| LedDisplay.NumberLayout | Empfaenger/DisplayManager.cpp:51-81 | the group bars are untouched, the ones digit is always shown, and the hundreds digit is blank unless leading zeros or n ≥ 100 |
| LedDisplay.TensLayout | Empfaenger/DisplayManager.cpp:70-75 | the tens digit is shown iff leading zeros or n ≥ 10, else blank |
| LedDisplay.GroupLayout | Empfaenger/DisplayManager.cpp:17-49 | setGroup(0) lights 0..15 and darkens 16..31, setGroup(1) the reverse, anything else darkens both; LEDs ≥ 32 are untouched |
| Buzzer.BuzzerManager.constructor | Empfaenger/BuzzerManager.cpp:8-16 | pin and frequency stored, silent, all counters 0 |
| Buzzer.BuzzerManager.Begin | Empfaenger/BuzzerManager.cpp:18-21 | the pin is driven low |
| Buzzer.BuzzerManager.Beep | Empfaenger/BuzzerManager.cpp:23-34 | the sequencer after beep |
| Buzzer.BuzzerManager.Update | Empfaenger/BuzzerManager.cpp:36-68 | the sequencer after update |
| Buzzer.BuzzerManager.Stop | Empfaenger/BuzzerManager.cpp:70-79 | the sequencer after stop |
| Buzzer.BuzzerManager.IsActive | Empfaenger/BuzzerManager.h:70-71 | returns whether a sequence runs |
| Buzzer.BeepStarts | Empfaenger/BuzzerManager.cpp:23-33 | beep(0) changes nothing; beep(n > 0) starts tone 1 of n at once, pin high |
| Buzzer.UpdateWaits | Empfaenger/BuzzerManager.cpp:37-67 | update while silent, or before 500 ms, changes nothing |
| Buzzer.ToneEnds | Empfaenger/BuzzerManager.cpp:42-58 | after 500 ms of tone the pin goes low and the tone is counted; silent iff that was the last, else a pause starts |
| Buzzer.PauseEnds | Empfaenger/BuzzerManager.cpp:59-66 | after 500 ms of pause the pin goes high and the next tone starts |
| Buzzer.OperationsKeepInv | Empfaenger/BuzzerManager.cpp:23-79 | beep, update and stop keep: while active fewer tones finished than requested and pin high iff tone; when silent the pin is low |
| Buzzer.StopSilences | Empfaenger/BuzzerManager.cpp:70-79 | stop silences an active sequencer and zeroes its counters, and is a no-op when silent |
| Buzzer.RunCountsFalls | Empfaenger/BuzzerManager.cpp:36-58 | without stop, the tone count grows by the number of high-to-low pin edges and never exceeds the request |
| Buzzer.BeepProducesExactlyN | Empfaenger/BuzzerManager.cpp:23-58 | after beep(n) at most n falling edges occur, and exactly n by the time the sequencer is silent |
| Buzzer.PacedProgress | Empfaenger/BuzzerManager.cpp:36-67 | with updates every 500 ms the sequencer goes silent exactly after the updates it still needs |
| Buzzer.SilentRunStays | Empfaenger/BuzzerManager.cpp:37 | a silent sequencer is unchanged by any updates |
| Buzzer.PacedBeepFinishes | Empfaenger/BuzzerManager.cpp:23-67 | beep(n) with updates every 500 ms is silent after 2n - 1 updates, all n tones played, and still running before |
| Controller.PfeileProbe | Sender/StateMachine.cpp:199-204 | the probe keeps the shapes the handlers need |
| Controller.Visited | Sender/StateMachine.cpp:35-54 | one screen per loop-cycle boundary, starting with the current one; each cycle first takes the button states of its input |
| Controller.StateMachine.constructor | Sender/StateMachine.cpp:13-26 | SPLASH, default settings, no receiver test, the three components wired |
| Controller.StateMachine.Begin | Sender/StateMachine.cpp:28-33 | begin runs the splash screen's enter hook |
| Controller.StateMachine.TimeInState | Sender/StateMachine.cpp:312-314 | true iff the state has lasted `ms` on the wrapping clock |
| Controller.StateMachine.SetState | Sender/StateMachine.cpp:56-84 | the machine and the hooks run by setState |
| Controller.StateMachine.EnterSplash | Sender/StateMachine.cpp:90-99 | the receiver test is reset |
| Controller.StateMachine.EnterConfigMenu | Sender/StateMachine.cpp:139-145 | the configuration menu is begun and drawn |
| Controller.StateMachine.EnterPfeileHolen | Sender/StateMachine.cpp:187-196 | the arrow menu is begun and drawn, and the probe timer is 0 |
| Controller.StateMachine.Update | Sender/StateMachine.cpp:35-54 | the machine and the effects of one cycle |
| Controller.StateMachine.HandleSplash | Sender/StateMachine.cpp:101-129 | the machine and the effects of a splash cycle |
| Controller.StateMachine.HandleConfigMenu | Sender/StateMachine.cpp:147-177 | the machine and the effects of a configuration cycle |
| Controller.StateMachine.HandlePfeileHolen | Sender/StateMachine.cpp:198-251 | the machine and the effects of an arrow-menu cycle |
| Controller.StateMachine.CheckConnection | Sender/StateMachine.cpp:199-204 | the probe step of the arrow-menu cycle |
| Controller.StateMachine.RunPfeileMenu | Sender/StateMachine.cpp:206-212 | the menu step of the arrow-menu cycle |
| Controller.StateMachine.HandleAction | Sender/StateMachine.cpp:214-250 | the action step of the arrow-menu cycle |
| Controller.StateMachine.HandleSchiessBetrieb | Sender/StateMachine.cpp:266-280 | the machine and the effects of a shooting cycle |
| Controller.StateMachine.AdvanceToNextGroup | Sender/StateMachine.h:155-158 | one rotation step of group and position |
| Controller.SetStateSameIsNoop | Sender/StateMachine.cpp:57 | setState to the current state runs no hook and changes nothing |
| Controller.SetStateSwitches | Sender/StateMachine.cpp:65-83 | otherwise previousState is the old state, stateStartTime is now, and exactly the old exit hook then the new enter hook run |
| Controller.EnterHooks | Sender/StateMachine.cpp:90-196 | SPLASH resets the test; CONFIG begins and draws the menu; PFEILE_HOLEN clears the action and zeroes the probe timer; shooting changes nothing |
| Controller.TimeInStateAcrossWrap | Sender/StateMachine.cpp:312-314 | entered 256 ms before the wrap, 256 ms after it the state has lasted 512 ms and not 513 |
| Controller.SplashProbesOnce | Sender/StateMachine.cpp:94-106 | the receiver is tested iff not yet tested and 500 ms passed; the answer is kept; a finished test is not repeated |
| Controller.SplashExit | Sender/StateMachine.cpp:119-128 | SPLASH goes only to CONFIG_MENU, iff the splash time is over (the test has run by then) or a button is down |
| Controller.ConfigCompletion | Sender/StateMachine.cpp:157-176 | on "Start" the settings are copied, INIT is sent iff the splash test succeeded, and PFEILE_HOLEN follows whatever the send returned; before that nothing is sent |
| Controller.NextEndStarts | Sender/StateMachine.cpp:220-235 | START_120 for 120 s, else START_240; shooting iff TX_SUCCESS, otherwise the menu is begun anew |
| Controller.RestartReturnsToConfig | Sender/StateMachine.cpp:242-245 | "Neustart" goes to CONFIG_MENU without a radio call |
| Controller.OrderActionDoesNothing | Sender/StateMachine.cpp:237-240 | "Reihenfolge" only resets the action |
| Controller.ActionIsReset | Sender/StateMachine.cpp:215-217 | while the arrow menu stays, no action is left pending |
| Controller.PfeileProbeSchedule | Sender/StateMachine.cpp:195-204 | the receiver is probed iff 5 s passed since the last probe; after entry that is once the clock reads 5000 |
| Controller.StopEndsShooting | Sender/StateMachine.cpp:266-280 | OK sends STOP; PFEILE_HOLEN iff OK and TX_SUCCESS, otherwise the state stays |
| Controller.NoReihenfolgeWithTwoShooters | Sender/PfeileHolenMenu.cpp:81-88 | with 2 shooters the menu never selects "Reihenfolge" and the cursor stays on two buttons |
| Controller.AdvanceOnlyRotates | Sender/StateMachine.h:110-111 | advanceToNextGroup changes only group and position, and four calls return to the start |
| Controller.CycleFollowsGraph | Sender/StateMachine.h:28-31 | a cycle stays or follows a documented edge, recording the state left |
| Controller.PfeileFollowsGraph | Sender/StateMachine.cpp:198-251 | an arrow-menu cycle stays, starts shooting or returns to configuration |
| Controller.CycleKeepsInv | Sender/StateMachine.cpp:35-54 | every cycle keeps the invariant (shapes, valid settings, no pending action) |
| Controller.LoopCycleKeepsInv | Sender/ButtonManager.h:43-46 | refreshing the button states (`update()` in `loop()`) and then running a cycle keeps the invariant, whatever the new states are |
| Controller.EnterKeepsInv | Sender/StateMachine.cpp:78-83 | every enter hook keeps the invariant |
| Controller.ConfigKeepsInv | Sender/StateMachine.cpp:147-177 | a configuration cycle keeps the invariant |
| Controller.PfeileKeepsInv | Sender/StateMachine.cpp:198-251 | an arrow-menu cycle keeps the invariant |
| Controller.ProbeKeepsInv | Sender/StateMachine.cpp:199-204 | the probe keeps the invariant |
| Controller.MenuStepKeepsSettled | Sender/StateMachine.cpp:206-212 | the menu step may select an action, but never "Reihenfolge" |
| Controller.ActionRestoresInv | Sender/StateMachine.cpp:214-250 | carrying out the action leaves none pending |
| Controller.StepsCons | Sender/StateMachine.h:28-31 | a permitted first step in front of a permitted trace (`Steps`: every step stays or follows a documented edge) gives a permitted trace |
| Controller.RunFollowsGraph | Sender/StateMachine.h:28-31 | along any series of main-loop cycles, with any button states, clock and radio results per cycle, every step of the screen trace stays or follows a documented edge (`Steps`) |
| Controller.InitialInv | Sender/StateMachine.cpp:13-26 | the constructed machine satisfies the invariant |

## Left out

- Drawing is not modelled: every `draw*` helper, `SplashScreen::draw` and
  `updateConnectionStatus`, `AlarmScreen`, and text centring. The `draw` members model
  only the flags they clear.
- The selective-redraw bookkeeping (`lastShootingTime`, `lastCursorPosition`,
  `lastConnectionOk`, …) is not modelled. It only decides what is repainted.
  SchiessBetrieb keeps `lastRemainingSec`, because `begin` sets it.
- Hardware I/O is reduced to parameters and fields: `digitalRead` becomes the raw
  levels, `pinMode`/`digitalWrite` the buzzer's `pinHigh`, `FastLED.show` is dropped,
  and `tone` (the click sound) is not modelled.
- `DEBUG_PRINT*` output and the names returned by `commandToString` are not modelled,
  apart from "UNKNOWN".
- The radio transport (`sendCommand`, `testReceiverConnection`, nRF24 retries) is not
  part of this model. Its results are the per-cycle inputs `answered` and `tx`.
- `millis()` is read once per cycle as `now`. The source reads the clock again after a
  blocking probe, for example when it stores `lastConnectionCheck`.
- Floating-point constants, ADC conversion and how the battery voltage is measured are
  not modelled. The voltage is a parameter of `UpdateBatteryStatus`.
- `radioInitialized` and `setRadioInitialized` are declared but never defined, and
  `shootingStartTime` and `shootingDurationMs` are never used. None is modelled.
- Getters such as `getShootingTime`, `needsRedraw`, `isComplete` and
  `getSelectedAction` are read directly as fields.
- The `StateMachine` constructor leaves `lastConnectionCheck`, `currentGroup` and
  `currentPosition` uninitialised. They are constructor parameters, so every lemma
  holds whatever memory held.
- The buzzer pin level before `begin()` is taken as low.
- The link-quality ping burst, alarm broadcasts with retries, `GROUP_*` broadcasts,
  EEPROM checksums and the phase timer appear only in prose. No shown code implements
  them, so there is nothing to model.
- Controller.PfeileProbe: its own contract states only that the shapes survive. The
  probe schedule is stated by `PfeileProbeSchedule`.
- Controller.Visited: its contract gives only the trace's length and first screen. The
  property of the trace is `RunFollowsGraph`.
- Splash.Int16 and Splash.FillOverflow: the product `(barWidth - 4) * qualityPercent`
  overflows the target's 16-bit `int` only above 210 %, outside the documented 0..100.
  C++ leaves signed overflow undefined; the model assumes the two's-complement wrap.
- Splash.CDiv: for a negative dividend it states only that the quotient is not
  positive. That is all `FillOverflow` needs.
- Buttons.ButtonManager.IsLongPress: `millis()` is the parameter `now`.
- LedDisplay.Filled, LedDisplay.DigitSegments and LedDisplay.NumberLeds: their own
  contracts give only the strip's length. What they write is stated by `FilledAt`,
  `DigitSegmentsShape`, `DigitWindow`, `NumberLayout` and `TensLayout`.
- PfeileHolen.ConnectionUpdates: its own contract states only the ring buffer's shape.
  Its contents are stated by `ConnectionUpdatesAreRing` and `LatestResultReported`.
- PfeileHolen.BatteryPercent and PfeileHolen.BatteryPercentAvr: their own contracts
  give only the bound 100. The values are stated by `BatteryPercentShape`,
  `AvrPercentWraps`, `AvrPercentStaysLow` and `AvrAgreesWhileNoWrap`.
- PfeileHolen.Gauge: its own contract gives only the fill bound. The colour bands are
  stated by `GaugeBands`. Both use the intended percentage; on the AVR target the drawn
  gauge follows the 16-bit value instead (`AvrPercentStaysLow`).
- GroupRotation.Next and GroupRotation.MenuOrderNext: their own contracts describe one
  step only. The cycles are stated by `DocumentedSequence`, `CycleClosure`,
  `CycleIsMinimal` and `OrdersDisagree`.

## Findings

| source | as written | input that shows it | evidently intended | confidence | as-written member | corrected member |
|---|---|---|---|---|---|---|
| Sender/PfeileHolenMenu.cpp:379-380 | `(batteryVoltage - VOLTAGE_MIN_MV) * 100` is evaluated in 16-bit `unsigned int` on the AVR target and wraps above 6655 mV | 7000 mV: intended 27 %, as written 9 %; between 6000 and 9600 mV the gauge never shows more than 18 % and is always red | the linear percentage `(v - 6000) * 100 / 3600`, computed in 32 bits | not executed | PfeileHolen.AvrPercentWraps | PfeileHolen.BatteryPercentShape |
