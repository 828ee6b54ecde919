# RustyRover firmware core in Dafny

RustyRover is nRF52832 firmware, written with RTIC, for a two-motor rover
that a phone drives over Bluetooth Low Energy. Nordic's S112 SoftDevice
supplies the BLE stack. This project models three pieces:

- the SoftDevice adapter (`src/soft_device.rs`). It holds the advertising
  buffers and brings the SoftDevice up with a seven-call sequence in which
  four calls are fatal. It also drains the SoftDevice event queue and
  dispatches each event by its id range and sub-event id.
- the rover application (`src/main.rs`). Its RTIC tasks are the LED blink,
  the deferred SoftDevice bring-up, the SWI2 interrupt handler with the
  task it spawns, and the speed-to-motor actuation. The model also covers
  the interrupt-priority rules the SoftDevice imposes on those tasks.
- the stand-alone bring-up binary (`src/bin/soft-device-rtic.rs`), which
  runs the same sequence inline in RTIC's idle task.

How SoftDevice calls are modelled:

- The SoftDevice is an oracle. A bring-up takes `reply: Step -> u32`, the
  status each call returns, and the advertising handle it writes back.
- The method returns the list of SoftDevice calls it made, arguments
  included. The proofs tie that list to a reference plan cut off after the
  first fatal failure.
- The event drain takes the sequence of answers to `sd_ble_evt_get`. The
  numeric event-id ranges and sub-event ids of the SoftDevice headers are
  a parameter (`BleEvents.EventIds`). Their `Valid()` says the ranges are
  ordered and disjoint, and each id lies in its own range.

Files and modules:

- `machine.dfy` (`Machine`): fixed-width integer types and `Option`.
- `nrf.dfy` (`Nrf`): SoftDevice status codes, constants, call argument
  records and the fixed bring-up parameters.
- `bring_up.dfy` (`BringUp`): the bring-up step machine and its reference
  plan.
- `advertising.dfy` (`Advertising`): the AD-structure format of Bluetooth
  Core Specification Vol 3 Part C section 11, with encode/parse round trips.
- `ble_events.dfy` (`BleEvents`): event categories, match-on-constant
  dispatch and log levels.
- `soft_device.dfy` (`SoftDeviceAdapter`): the adapter class and the
  drain loop.
- `indicator.dfy` (`Indicator`): the LED pair and the blink delay.
- `actuation.dfy` (`Actuation`): the duty computation and the motor
  outputs.
- `priorities.dfy` (`Priorities`): RTIC/NVIC priority numbering and the
  SoftDevice's reserved levels.
- `rover_app.dfy` (`RoverApp`): the rover's task table and its tasks as
  the methods of `Rover`.
- `rtic_bring_up.dfy` (`RticBringUp`): the stand-alone bring-up binary.

Behaviour of the firmware that the model keeps as written:

- The duty is `max_duty * |speed| / 128` in u32 arithmetic (`src/main.rs:169-170`).
  So speed 127 gives slightly less than full duty. Speed 0 drives the
  direction pin low, as any non-positive speed does.
- A speed of -128 panics in the `abs`/`try_into().unwrap()` pair, after
  both direction pins have been written. The model returns that panic as
  an outcome.
- The drain loop keeps fetching after an invalid-address, buffer-too-small
  or unexpected status. Only "queue empty" ends it. `buf_len` is not reset
  between calls, so each call gets the length the previous one wrote back.
- `SoftDevice::new` takes no argument (`src/soft_device.rs:23`), though
  `src/main.rs:100-102` passes it a closure that spawns the actuation task.
  The adapter never calls such a closure. So the model has no path from a
  BLE write to `value_update_handler`, and `Rover.ValueUpdateHandlerTask`
  is modelled as a task of its own.
- `blink_freq` is initialised to 0 and never written anywhere. In the
  rover app every blink therefore re-arms after 1000 ms.

## Model

| member | source | states |
|---|---|---|
| BringUp.Issued | src/soft_device.rs:52-207 | The number of SoftDevice calls made is at most the number of steps. It is zero only when there are no steps. When it stops early, the last step issued is a fatal step that failed. |
| BringUp.IssuedWhenAllPass | src/soft_device.rs:52-207 | When every fatal step succeeds, all steps are issued. |
| BringUp.IssuedStopsAt | src/soft_device.rs:52-207 | If step k is the first whose fatal status fails, exactly k+1 calls are made: the failing call itself is issued and nothing after it. |
| BringUp.IssuedIgnoresNonFatal | src/soft_device.rs:82-99 | The statuses of the address and appearance reads never change how many calls are made. Those failures are only logged. |
| BringUp.Plan | src/soft_device.rs:52-207 | The full plan has one call per step. The calls use the clock configuration, the RAM base 0x20001AE0, the name with its u16-truncated length, the handle NOT_SET for configure, the handle written back for start, and connection tag 0. |
| BringUp.EnableFailureIssuesNothingElse | src/soft_device.rs:53-66 | If sd_softdevice_enable fails, no other SoftDevice call is made. |
| BringUp.BleEnableFailureIssuesNoGapCall | src/soft_device.rs:68-75 | If sd_ble_enable fails, no GAP call is made. |
| BringUp.NameSetFailureStopsBeforeAdvertising | src/soft_device.rs:101-113 | If setting the device name fails, advertising is neither configured nor started. |
| BringUp.CompletesIffSucceeds | src/soft_device.rs:52-207 | All seven calls are made exactly when the four fatal steps succeed. Exactly six are made exactly when only the advertising configuration fails. |
| Advertising.Parse | src/soft_device.rs:26-41 | A payload that parses yields AD structures whose length octets fit one byte. |
| Advertising.ParseEncode | src/soft_device.rs:26-41 | Parsing the encoding of AD structures gives those structures back. |
| Advertising.EncodeParse | src/soft_device.rs:26-41 | A payload that parses is exactly the encoding of its structures, with no bytes left over or lost. |
| Advertising.Field | src/soft_device.rs:26-41 | What a scanner reads for an AD type: found exactly when some structure has that type, and then it is the data of the first structure of that type. |
| SoftDeviceAdapter.AdvDataIsFlagsAndShortenedName | src/soft_device.rs:26-32 | The advertising buffer is a Flags structure (LE General Discoverable, BR/EDR not supported) followed by a Shortened Local Name. That name is a prefix of the device name, and the payload fits the 31-octet legacy limit. A scanner reads flags 0x06 and the shortened name "Rusty", and finds no complete name. |
| SoftDeviceAdapter.ScanRespIsCompleteName | src/soft_device.rs:35-41 | The scan response is one Complete Local Name structure carrying the device name, within the 31-octet limit. A scanner reads "RustyRover" as the complete name. |
| SoftDeviceAdapter.SoftDevice.constructor | src/soft_device.rs:23-50 | The adapter owns fresh buffers holding the advertising data, the scan response and the name "RustyRover", with security mode 1 level 1 (open link). |
| SoftDeviceAdapter.SoftDevice.Init | src/soft_device.rs:52-207 | The calls made are the reference plan over the adapter's own buffers, cut after the first fatal failure. The result is true exactly when all four fatal steps succeed. |
| SoftDeviceAdapter.StepFor | src/soft_device.rs:228-240 | An answer is dispatched exactly when its status is NRF_SUCCESS, and then as the fetched id. Invalid-address and data-size statuses are reported as such, exactly for those codes. Any other status is reported as unexpected and keeps its code. |
| SoftDeviceAdapter.Pending | src/soft_device.rs:227-241 | The number of answers fetched before the first "queue empty", which is the answer that ends the loop. |
| SoftDeviceAdapter.DispatchAll | src/soft_device.rs:229-232 | Dispatches each id in order, one result per id. |
| SoftDeviceAdapter.DispatchesExactlySuccesses | src/soft_device.rs:227-241 | The events handed to dispatch are exactly the NRF_SUCCESS answers, in order and each once. Error answers dispatch nothing. |
| SoftDeviceAdapter.SoftDevice.HandleEvtNotify | src/soft_device.rs:209-242 | One step per answer before "queue empty": success dispatches the fetched id; invalid-address, buffer-too-small and any other status are reported and the loop goes on. The first buffer length is the buffer size; every later one is the length the previous call wrote back. The events dispatched are exactly the successful answers before "queue empty", in order. |
| SoftDeviceAdapter.DrainThreeEvents | src/soft_device.rs:227-241 | Three pending events followed by "queue empty" give three dispatches in fetch order and four sd_ble_evt_get calls. |
| BleEvents.FirstMatch | src/soft_device.rs:267-351 | A match over named constants picks an arm whose id equals the event id. It finds none exactly when no arm has that id. |
| BleEvents.FirstMatchOwnId | src/soft_device.rs:267-351 | With injective ids, every named event is recognised as itself. |
| BleEvents.ArmsAreComplete | src/soft_device.rs:267-351 | Every constructor of the common, GAP and GATTS event enumerations appears in its arm list. |
| BleEvents.HandleCommonEvt | src/soft_device.rs:267-276 | The common handler names an event whose id is the given one, and takes its catch-all arm exactly when no common event has that id. |
| BleEvents.HandleGapEvt | src/soft_device.rs:278-322 | The GAP handler names an event whose id is the given one, and takes its catch-all arm exactly when no GAP event has that id. |
| BleEvents.HandleGattsEvt | src/soft_device.rs:324-351 | The GATTS handler names an event whose id is the given one, and takes its catch-all arm exactly when no GATTS event has that id. |
| BleEvents.Dispatch | src/soft_device.rs:244-265 | An event reaches a category's handler only when its id lies in that category's range, and is invalid only when its id lies in none. The id is passed through unchanged. The converse, for valid ranges, is DispatchFollowsRanges. |
| BleEvents.DispatchFollowsRanges | src/soft_device.rs:244-265 | For ordered, disjoint ranges, an event goes to the common, GAP, GATTC or GATTS handler exactly when its id is in that range, and is reported invalid exactly when it is in none. The id is passed through unchanged. |
| BleEvents.DispatchRecognisesNamedEvents | src/soft_device.rs:244-351 | Every named common, GAP and GATTS event id is dispatched to its category and recognised as that event. |
| BleEvents.LogLevel | src/soft_device.rs:263-358 | A handled event is silent exactly when it is a GAP scan-request report. |
| BleEvents.UnknownIdsLogErrors | src/soft_device.rs:244-358 | For an event as dispatch routes it: an id outside every range, any id in the common or GATTC range, and an id in the GAP or GATTS range that no event of that category has are all logged at error level. |
| BleEvents.HandlerLogLevels | src/soft_device.rs:263-358 | Error level for: an id outside every range, an id no arm of its category names, every GATTC event, both common events (user memory request and release), and the GATTS timeout. Info for GAP Connected and Disconnected. No log for the scan-request report. Debug for every other named GAP or GATTS event. |
| Indicator.Toggle | src/main.rs:118-124 | A blink flips led1 and leaves led2 opposite to it. |
| Indicator.BlinksAlternate | src/main.rs:62-63 | After any number of blinks from both-low, the LEDs differ, and led1 is high exactly after an odd number. |
| Indicator.Leds.constructor | src/main.rs:62-63 | Both LEDs start low. |
| Indicator.Leds.Blink | src/main.rs:118-124 | The LED pins take the toggled state of their old state. |
| Indicator.BlinkDelay | src/main.rs:125-127 | The delay is the floor of 1000 / (rate + 1) ms and lies between 3 and 1000 ms. |
| Indicator.BlinkDelayExamples | src/main.rs:125-127 | Rate 0 gives 1000 ms, rate 3 gives 250 ms and rate 255 gives 3 ms. |
| Indicator.BlinkDelayAntitone | src/main.rs:125-127 | A higher rate never gives a longer delay. |
| Actuation.CheckedAbs | src/main.rs:166-167 | The magnitude of a speed. It panics exactly for -128; otherwise it is at most 127 and equals the speed or its negation. |
| Actuation.ProductFits | src/main.rs:169-170 | The u32 product of max_duty and a magnitude of at most 127 cannot wrap. |
| Actuation.Duty | src/main.rs:169-170 | The duty is the floor of max_duty * magnitude / 128. It stays below max_duty when max_duty is positive, so converting it to u16 cannot fail. |
| Actuation.DutyMonotone | src/main.rs:169-170 | A larger speed magnitude never gives a smaller duty. |
| Actuation.Motors.constructor | src/main.rs:75-96 | Both direction pins start high and both PWM duties start at 0. |
| Actuation.Motors.ValueUpdate | src/main.rs:147-174 | Each direction pin is high exactly when its speed is positive. A speed of -128 panics with the duties unchanged. Otherwise each channel's duty comes from its own speed only. |
| Priorities.NvicOf | src/main.rs:22-26 | Logical priorities below 8 map to NVIC levels other than 0. |
| Priorities.RticOf | src/main.rs:22-26 | NVIC levels other than 0 map to logical priorities below 8. |
| Priorities.NumberingsAreInverse | src/main.rs:22-26 | The two numberings invert each other and reverse the urgency order. |
| Priorities.ReservedAndUsableLevels | src/main.rs:24-26 | The reserved NVIC levels 0, 1 and 4 are RTIC priorities 8, 7 and 4. The priorities left usable are exactly 1, 2, 3, 5 and 6. |
| Priorities.SvcRuleInRticTerms | src/main.rs:30-32 | A task may call the SoftDevice exactly when its RTIC priority is below 4, and every such priority is usable. |
| RoverApp.Priority | src/main.rs:34-194 | Every task that runs with interrupts enabled, other than idle, has a valid RTIC priority. |
| RoverApp.NoTaskUsesReservedPriority | src/main.rs:22-35 | No task of the app runs at a level the SoftDevice reserves. |
| RoverApp.SoftDeviceCallsObeySvcRule | src/main.rs:67-71 | The tasks that call the SoftDevice run with interrupts enabled and below the SVC handler. Neither `init` nor the SWI2 handler is among them. |
| RoverApp.Rover.Init | src/main.rs:51-114 | Init leaves LEDs low, both direction pins high with zero duty, and the blink rate at 0. It makes no SoftDevice call (in the model only `SoftDevice.Init` returns calls). It queues the bring-up at once and the first blink after 500 ms. |
| RoverApp.Rover.BlinkTask | src/main.rs:116-129 | The blink task toggles the LEDs, keeps the shared rate, and re-arms itself after the delay that rate gives. |
| RoverApp.Rover.InitSoftDeviceTask | src/main.rs:138-144 | The bring-up makes the reference plan's calls over the adapter's buffers, cut at the first fatal failure, and succeeds exactly when the fatal steps do. |
| RoverApp.Rover.SoftdevEventNotifyInterrupt | src/main.rs:191-194 | The SWI2 handler only queues the draining task. |
| RoverApp.Rover.SoftdevEventNotifyTask | src/main.rs:186-189 | The drain task takes one step per answer before "queue empty". |
| RoverApp.Rover.ValueUpdateHandlerTask | src/main.rs:146-174 | The actuation task applies the speed pair to the motor outputs as `Motors.ValueUpdate` states. |
| RoverApp.StartUp | src/main.rs:51-144 | After init, the bring-up and two blinks, the LEDs are low/high and each blink re-armed after 1000 ms. The bring-up made all seven calls exactly when it succeeded. |
| RticBringUp.LocalBuffersMatchAdapter | src/bin/soft-device-rtic.rs:162-224 | The binary's local name, advertising data and scan response equal the adapter's, and both payloads are well-formed. |
| RticBringUp.Priority | src/bin/soft-device-rtic.rs:34-306 | Every task other than init and idle runs at priority 1 or 6. |
| RticBringUp.BringUpRunsBelowSvc | src/bin/soft-device-rtic.rs:100-306 | Idle, the one task `CallsSoftDevice` names, runs below the SVC handler's RTIC level 4; every task other than `init` and idle runs at a usable priority. |
| RticBringUp.IdleBringUp | src/bin/soft-device-rtic.rs:100-301 | The calls made are the reference plan over the binary's local buffers, cut at the first fatal failure. Idle parks with no failing step exactly when the fatal steps all succeed; otherwise it parks at the last, failed, fatal call. |
| RticBringUp.BlinkTask | src/bin/soft-device-rtic.rs:88-98 | The blink task toggles the LEDs and re-arms itself after a fixed 500 ms. |

## Left out

- Logging (defmt messages and their text) is not modelled. Only the level the event handlers log at is.
- The RTIC runtime is not modelled: scheduling, preemption, resource locks and the monotonic timer. Spawns are recorded in `Rover.spawned` in call order.
- The `unwrap` on spawns is not modelled: it fails only when RTIC's spawn queue is full, which is scheduler resource exhaustion.
- The `unwrap` on GPIO writes is not modelled: GPIO writes on the nRF52 cannot fail.
- The hardware set-up is not modelled: clocks, the DWT/SysTick monotonic, the PWM period and pin routing. Only the motor pin levels and duties are.
- The fault handler `nrf_fault_handler` only logs, so it is not modelled.
- The RAM base that sd_ble_enable writes back is only logged. The model keeps the value passed in.
- The names of the advertising-configuration error codes only select log text. Every non-success status is treated alike.
- The SoftDevice reads the buffers through pointers, so the model passes their contents by value. Aliasing between the adapter and the SoftDevice is not captured.
- The event record's payload is not modelled. Handlers receive only the event id; the event length is kept as the written-back buffer length.
- The numeric event-id constants of the SoftDevice headers are not part of this model. They are a parameter, constrained by `EventIds.Valid`.
- Advertising.Parse: rejects a zero Length octet instead of treating it as the standard's early terminator. The firmware's payloads contain none.
- SoftDeviceAdapter.SoftDevice.HandleEvtNotify: requires that the SoftDevice eventually reports an empty queue. If it never does, the firmware loops forever.
- RoverApp.Rover.SoftdevEventNotifyTask: states the drain steps but not the buffer lengths, which `HandleEvtNotify` states.
- The LED-only blinky binaries, the bring-up program without RTIC, the hello binary and the crate's panic and logger glue are not part of this model.
