# DebrisTape tape-transport controller in Dafny

This project models the controller of a two-spool debris-shielding tape. The tape is wound from one spool onto the other across a beam path, and a limit switch on each side reports when its spool is full. The repository holds two revisions of the controller, and each is modelled as its own sequential state machine.

- **Current revision** (`tangods_debristape/DebrisTape.py`, module `DebrisTape`). It uses two remote stepper axes and keeps an estimate of the loops left on the spool being wound onto. The estimate:
  - is clamped to `[0, FULL_TAPE_LOOPS]`;
  - is inverted when the direction changes;
  - drops with the motors' position deltas;
  - is persisted after every write.

  At the advancing limit the tape stops in ALARM. Both limits active at once gives FAULT.
- **Older revision** (`DebrisTape.py`, module `LegacyDebrisTape`). It has three throttled DC motors (left, driver, right), a boolean direction and an integer loop counter. At the advancing limit it counts a loop. Then it either reverses by itself or stops in ALARM.

Each Tango command, attribute write and poll is a pure function. It maps a device record to a `Step`: the new record plus the commands issued, in order.
- The current revision's commands are `Stop`, `JogPlus`, `JogMinus`, `SetPosition` and `PersistLoopsLeft`. The last one is the write of the `LoopsLeft` device property.
- The older revision's command is `Throttle(motor, value)`.

Motor positions and limit-switch readings are inputs. Shared modules:
- `TapeLoops`: the full-roll size, the clamp, the inversion and the progress percentage.
- `Tango`: the device states.
- `Wrappers`: `Option` and `Result`.

Runs of events (`DebrisTape.Run`, `LegacyDebrisTape.Run`) apply transitions one at a time. Lemmas over them state what holds after any sequence of events.

Behaviour worth noting:
- Changing the direction does not forget the previous motor positions. It inverts the loops left whatever the state, not only while moving. From FAULT or ALARM it ends in ON, because it stops both motors first.
- `new_tape_inserted` does not reset the loops left to a full roll. It writes the direction, and that inverts the loops left only if the direction actually changes.
- `clear_state` sets ON without looking at the switches. A FAULT with both switches still active comes back at the next switch poll (`ClearedFaultReturns`).
- The current revision has no automatic reversal. The older revision reverses by flipping the direction and restarting.
- Stopping twice issues the stop commands again. Only the device record is idempotent.
- The older revision's loop counter is zeroed by `init_device` as well as by `reset_loops`, so it counts loops since the last reset or restart (`LoopsSinceLastReset`).
- The poll reads both motor positions a second time (lines 247-248) to store as the previous positions. The model takes that second reading as a separate input. `RereadDropsMotion` shows, for the left motor moving forward from a full roll, that motion between the two readings of one poll is not subtracted from the loops left.

## Model

| member | source | states |
|---|---|---|
| TapeLoops.FullTapeLoops | tangods_debristape/DebrisTape.py:119-121 | a full roll times the layer thickness in mm fills the radial room exactly; zero thickness is the division error; the result is non-negative iff outer radius ≥ inner for positive thickness |
| TapeLoops.DefaultRollIs900Loops | tangods_debristape/DebrisTape.py:22-24 | the default properties 50 µm, 15 mm, 60 mm give 900 loops |
| TapeLoops.Clamp | tangods_debristape/DebrisTape.py:189-191 | stored loops lie in [0, full] when full ≥ 0, equal the input when it is in range, are 0 below and full above; a negative full is returned as is |
| TapeLoops.ClampIsNearest | tangods_debristape/DebrisTape.py:189-191 | the clamped value is the nearest point of [0, full] to the input |
| TapeLoops.ClampIdempotent | tangods_debristape/DebrisTape.py:189-191 | clamping twice equals clamping once |
| TapeLoops.Invert | tangods_debristape/DebrisTape.py:208 | the inverted value stays in range and adds up with the old one to a full roll |
| TapeLoops.InvertInvolution | tangods_debristape/DebrisTape.py:203-208 | inverting twice restores any in-range value |
| TapeLoops.Progress | tangods_debristape/DebrisTape.py:221-223 | progress is undefined exactly when full is 0; it is in [0, 100] for in-range loops, 100 iff no loops are left, 0 iff the roll is full |
| TapeLoops.ProgressRoundTrip | tangods_debristape/DebrisTape.py:257-259 | converting progress back to loops recovers the loops left |
| TapeLoops.LoopsAtProgressRoundTrip | tangods_debristape/DebrisTape.py:257-259 | every percentage is shown for exactly one loops value |
| DebrisTape.DirectionFromValue | tangods_debristape/DebrisTape.py:11-13 | only 0 and 1 name a direction, and the named direction has that value |
| DebrisTape.DirectionValueRoundTrip | tangods_debristape/DebrisTape.py:11-13 | the enum value of a direction converts back to it |
| DebrisTape.InitDevice | tangods_debristape/DebrisTape.py:88-135 | zero thickness fails first and a missing persisted value fails next; otherwise ON, no direction, no previous positions, switches clear, loops left = persisted value clamped to [0, full] (so 0 below and full above), commands: stop both motors and persist |
| DebrisTape.DefaultBoot | tangods_debristape/DebrisTape.py:18-34 | with the default properties and a persisted full roll the device boots with 900 loops left, and started right to left it stops the right motor and jogs the left one plus |
| DebrisTape.ResetPreviousMotorPositions | tangods_debristape/DebrisTape.py:309-311 | both previous positions become unset and nothing else changes |
| DebrisTape.StartAll | tangods_debristape/DebrisTape.py:141-168 | always MOVING with nothing else changed; for a set direction the far motor is stopped, then the pulling motor jogs plus iff its polarity property says so; no direction, no commands |
| DebrisTape.StopAll | tangods_debristape/DebrisTape.py:170-174 | ON, both motors stopped, nothing else changed |
| DebrisTape.StopAllIdempotent | tangods_debristape/DebrisTape.py:170-174 | stopping twice gives the same record and commands as stopping once |
| DebrisTape.StopAfterStart | tangods_debristape/DebrisTape.py:156-174 | starting then stopping leaves what stopping alone leaves |
| DebrisTape.JoggingMotorOwnsAdvancingLimit | tangods_debristape/DebrisTape.py:157-168 | the motor start_all jogs is the one whose limit switch ends the move |
| DebrisTape.WriteLoopsLeft | tangods_debristape/DebrisTape.py:189-192 | the stored value is in range, equals the input when in range, 0 below, full above; only loops left changes; the stored value is persisted |
| DebrisTape.WriteLoopsLeftIdempotent | tangods_debristape/DebrisTape.py:189-192 | writing a value twice equals writing it once |
| DebrisTape.WriteDirection | tangods_debristape/DebrisTape.py:197-210 | first write only records; same direction is a no-op; a change stops both motors, inverts loops left, persists, restarts iff it was MOVING (MOVING iff MOVING before, else ON), keeps the rest; keeps loops in range |
| DebrisTape.DirectionFlipTwiceRestoresLoops | tangods_debristape/DebrisTape.py:203-208 | two direction changes restore loops left, direction and whether the tape moves |
| DebrisTape.WriteDirectionValue | tangods_debristape/DebrisTape.py:197-210 | a value other than 0 or 1 is refused; otherwise the whole direction write runs for that direction |
| DebrisTape.ReadTapeProgress | tangods_debristape/DebrisTape.py:221-223 | undefined iff full is 0; in [0, 100] for valid loops; 100 iff no loops are left; determines the loops left |
| DebrisTape.Turned | tangods_debristape/DebrisTape.py:235-246 | a motor's turn since the last reading is the absolute difference of the two readings, and 0 when there was no reading |
| DebrisTape.UpdateTapeProgress | tangods_debristape/DebrisTape.py:228-256 | nothing happens unless MOVING; then previous positions become the second reading, loops left drop by the larger turn / 360 down to 0, never rise, stay in range, are unchanged on the first poll, and are persisted |
| DebrisTape.MonitorSwitches | tangods_debristape/DebrisTape.py:261-286 | switches recorded; both active: stop, FAULT from any state; MOVING at the advancing limit: stop, ALARM; otherwise state kept, no commands; a tape left MOVING is never at its advancing limit |
| DebrisTape.ClearState | tangods_debristape/DebrisTape.py:288-290 | ON from any state, nothing else changed |
| DebrisTape.ClearedFaultReturns | tangods_debristape/DebrisTape.py:273-279 | with both switches still active, the next switch poll after a clear is FAULT again |
| DebrisTape.NewTapeInserted | tangods_debristape/DebrisTape.py:292-307 | left switch first, else right: both positions zeroed (right then left, or left then right), previous positions unset, then exactly the direction write, with its record and commands, so the full spool unwinds and loops are inverted only on a real direction change; neither switch: ALARM, nothing else |
| DebrisTape.NewTapeFirstPollSeeds | tangods_debristape/DebrisTape.py:235-239 | the first poll after a new tape leaves loops left unchanged |
| DebrisTape.ApplyKeepsValid | tangods_debristape/DebrisTape.py:189-191 | every command and poll keeps loops left in [0, full] |
| DebrisTape.RunKeepsValid | tangods_debristape/DebrisTape.py:189-191 | any run of events keeps loops left in [0, full] |
| DebrisTape.WriteDirectionPersistsLoops | tangods_debristape/DebrisTape.py:206-208 | a direction write persists the new loops left, or leaves it unchanged |
| DebrisTape.NewTapePersistsLoops | tangods_debristape/DebrisTape.py:293-303 | a new-tape command persists the new loops left, or leaves it unchanged |
| DebrisTape.ApplyPersistsLoops | tangods_debristape/DebrisTape.py:190-192 | each event either leaves loops left alone or last persists its new value |
| DebrisTape.RunPersistsLoops | tangods_debristape/DebrisTape.py:190-192 | after any run the last persisted value is the current loops left; a run that persists nothing leaves it unchanged |
| DebrisTape.PollAllTracksTotalTurned | tangods_debristape/DebrisTape.py:241-256 | over any number of polls while moving whose second reading equals the first, loops left drop by the total turned / 360, stopping at 0 |
| DebrisTape.LeftMotorTravel | tangods_debristape/DebrisTape.py:249-256 | if only the left motor advances, by D degrees in all, loops left drop by D/360, stopping at 0 |
| DebrisTape.RereadDropsMotion | tangods_debristape/DebrisTape.py:247-248 | for the left motor moving forward from a full roll, motion between a poll's first and second position reading is not counted |
| LegacyDebrisTape.StopAll | DebrisTape.py:150-155 | ON, one throttle command each for left, driver and right, all 0, nothing else changed |
| LegacyDebrisTape.StopAllIdempotent | DebrisTape.py:150-155 | stopping twice equals stopping once |
| LegacyDebrisTape.InitDevice | DebrisTape.py:85-101 | ON, motors stopped, loop counter 0, default speeds; direction, auto-reverse and switches survive a repeated init |
| LegacyDebrisTape.BootDefaults | DebrisTape.py:75-101 | a new device starts left to right, auto-reverse on, 0 loops, pull 1, brake 0, tension 1 |
| LegacyDebrisTape.StartAll | DebrisTape.py:129-148 | MOVING, nothing else changed; throttles (L, D, R) are (−tension, +pull, −brake) right to left and (+brake, −pull, +tension) left to right |
| LegacyDebrisTape.StartAllMirror | DebrisTape.py:140-148 | the two directions mirror each other: spool motors swapped, every throttle negated |
| LegacyDebrisTape.ResetLoops | DebrisTape.py:157-159 | the counter becomes 0 and nothing else changes |
| LegacyDebrisTape.WriteDirection | DebrisTape.py:183-189 | stores the direction; restarts with the new throttles only when MOVING; state and counter unchanged |
| LegacyDebrisTape.WriteAutoReverse | DebrisTape.py:194-195 | stores the flag and nothing else |
| LegacyDebrisTape.MonitorSwitches | DebrisTape.py:197-227 | both active: FAULT, stopped, counter and direction kept; MOVING at the advancing limit: counter + 1, then reverse and keep MOVING with the new throttles, or stop in ALARM with the direction kept; otherwise only switches recorded |
| LegacyDebrisTape.ReversalCountsOnce | DebrisTape.py:213-224 | after an automatic reversal the same switch reading does not count a second loop |
| LegacyDebrisTape.ApplyCounter | DebrisTape.py:214-216 | apart from reset and init, an event raises the counter by 1 exactly when it is a switch poll that finds the moving tape's advancing spool full, with not both switches active, and otherwise leaves it |
| LegacyDebrisTape.RunCountsHits | DebrisTape.py:214-216 | without reset or init, a run raises the counter by exactly its number of limit hits, so it never decreases |
| LegacyDebrisTape.LoopsSinceLastReset | DebrisTape.py:54-59 | the counter is 0 right after a reset or init and afterwards equals the limit hits since the last one |

## Left out

- The Tango framework: attribute and command declarations, memorised and polled settings, logging, status strings and `run_server`.
- Remote motor I/O. Positions and switch readings are inputs, and motor calls are emitted commands. The check `"limit" in Status()` becomes a boolean input.
- Motor connection failure in `init_device`. It sets FAULT, and a later call on the missing motor would raise. Connection is assumed to succeed.
- DebrisTape.InitDevice: the error result does not record the stop commands issued before the missing `LoopsLeft` raises.
- The current revision's `velocity` attribute passthrough.
- The cached `tape_progress` value and its write. Every read overwrites it, so only the returned value is observable.
- The trivial `read_*` getters, `delete_device` (defined twice in the current revision), the older revision's `open()` (board, I2C, MCP23017 and GPIO setup) and its temperature polling with the 40-degree ALARM rule. These are hardware I/O.
- Concurrency between the polled commands and client calls. Each call is one atomic step.
- Python floats. Loops, positions and throttles are `real`, so rounding is idealised.
- The Adafruit throttle range. No bound on throttle values is checked.
- Before the older revision's first `init_device`, its loop counter and speeds do not exist. `Constructed` fills them with 0 and the defaults.
- DebrisTape.UpdateTapeProgress: the exact loops formula is stated only when loops left start in `[0, full]`. That holds after any run from a valid state (`RunKeepsValid`).
- Spiral length↔turns geometry and a current-reducing reversal handoff. Neither revision contains them.
