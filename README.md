# Plate-placing gantry: firmware core and camera link

This project models the control core of a two-axis H-bot gantry that carries
plates on an electromagnet. The firmware runs on a Pico (`EmbeddedMS3.c`). A
camera script (`Camera/aruco_wifi_tracker.py`) watches an ArUco marker on the
carriage and reports its grid cell over a serial line as `id,row,col\n`.

What is modelled:

- the motor layer: `motor_set_l298` and `hbot_drive`, with its 10-second
  motor lock;
- the joystick pots (`read_pot_with_deadzone`) and the diagnostic direction
  label (`get_direction_str`);
- the serial line reader (`poll_serial`) and the report parser
  (`handle_serial_line`, which is `sscanf("%d,%d,%d")`);
- the debounced start button (`button_check`);
- the placement state machine (`state_machine_update`) with its targets,
  target check and magnet;
- on the camera side, `pixel_to_grid` and the selection and formatting done
  by `send_marker_data`.

Module layout:

| module | file | contents |
|---|---|---|
| `Wrappers` | `wrappers.dfy` | `Option` |
| `Ints` | `ints.dfy` | C's truncating division, clamping, `uint32_t` wrap-around |
| `Motor` | `motor.dfy` | `motor_set_l298`, `hbot_drive` |
| `Pots` | `pots.dfy` | `read_pot_with_deadzone`: an 8-sample loop as a method, proved against a specification function |
| `Direction` | `direction.dfy` | `get_direction_str` as written and corrected |
| `Scan` | `scan.dfy` | `%d` conversions and `"%d,%d,%d"` |
| `SerialReader` | `serial_reader.dfy` | line assembly of `poll_serial` as a function of the received characters |
| `Workflow` | `workflow.dfy` | the globals as a value; `state_machine_update` as `Step`; invariants and runs from power-up |
| `Controller` | `controller.dfy` | class `Firmware`: the globals and the 128-byte `serial_buffer` as fields, each method proved against `Workflow`/`SerialReader` |
| `Button` | `button.dfy` | `button_check` as class `DebouncedButton` (its two statics are the fields) proved against `ButtonStep` |
| `Tracker` | `tracker.dfy` | `pixel_to_grid`, marker selection, `str` of integers, the line written |
| `Link` | `link.dfy` | the camera's line read back by the firmware |

Time is a `uint32_t` millisecond count, modelled as `U32`. Its subtractions
(`now - last_press`, `current_time - placement_start_time`) and the unlock
deadline `now + 10000` wrap modulo 2^32 as in C.

Where the code and its written description differ, the model follows the code:

- pot scaling is linear, with no smoothing and no response curve;
- `hbot_drive` has no limit-switch veto;
- the serial grammar has no PICKUP/RELEASE lines;
- HOMING goes straight to COMPLETE (EmbeddedMS3.c:748), so WAIT_PLATE_1 and
  everything after it cannot be reached from power-up (proved:
  `Workflow.PlateWorkflowUnreachable`);
- a serial line longer than 127 characters is not discarded whole. The
  overflow resets the index, and the characters after that are handed on at
  the next `'\n'` as a line of their own (EmbeddedMS3.c:630-633; proved:
  `SerialReader.OverlongLineTailDispatched`).

## Model

| member | source | states |
|---|---|---|
| Motor.MotorSetL298 | EmbeddedMS3.c:293-309 | for speed in [-255,255]: braked (both inputs low, duty 0) iff speed is 0; IN1 high iff speed > 0, IN2 high iff speed < 0, so exactly one is high when moving; duty never above 65535 |
| Motor.SourceDutyExact | EmbeddedMS3.c:304 | the source's duty \|speed\|*65535/255, stored in a `uint16_t`, is exactly \|speed\|*257 and fits in 16 bits |
| Motor.MotorSetL298Duty | EmbeddedMS3.c:304 | the duty the model writes is the one the source computes, for every speed in range |
| Motor.BridgeSpeedInverts | EmbeddedMS3.c:293-309 | the bridge outputs determine the speed: reading direction and duty back gives the commanded speed |
| Motor.HbotDrive | EmbeddedMS3.c:453-483 | motor A = clamp(x+y) and motor B = clamp(x-y) to [-255,255], signs preserved; both bridges braked when the motors are locked or display-only is set, otherwise each bridge gets `motor_set_l298` of its command |
| Motor.HbotInvertible | EmbeddedMS3.c:457-458 | without clamping, A+B = 2x and A-B = 2y, so x and y are recovered from the two motor commands |
| Pots.Average | EmbeddedMS3.c:368-374 | the mean of the eight 12-bit samples is itself a 12-bit reading |
| Pots.PotCommand | EmbeddedMS3.c:376-389 | 0 iff \|raw-2047\| < 600; otherwise the sign of raw-2047, magnitude at least 74, within [-255,255], and equal to (raw-2047)*255/2047 truncated toward zero |
| Pots.PotCommandOdd | EmbeddedMS3.c:376-389 | readings mirrored about the mid-point give opposite commands |
| Pots.PotCommandMonotone | EmbeddedMS3.c:376-389 | turning the pot further never lowers the command |
| Pots.ReadPotWithDeadzone | EmbeddedMS3.c:366-390 | the sampling loop sums the eight readings and returns the command of their mean |
| Direction.DirectionOf | EmbeddedMS3.c:322-358 | STOP iff both commands are within ±20; a right label only when A+B > 0 and a left label only when A+B < 0 |
| Direction.GetDirectionStr | EmbeddedMS3.c:322-358 | the returned string has 1 to 8 characters, is "STOP" iff both commands are within ±20, and names the label `DirectionOf` gives |
| Direction.TextInjective | EmbeddedMS3.c:322-358 | different labels are shown as different strings |
| Direction.BothReverseLabelInverted | EmbeddedMS3.c:335-339 | commands (-50,-150), a motion to the left and up, are labelled LEFT-DN |
| Direction.DirectionOfCorrected | EmbeddedMS3.c:335-339 | with the both-negative branch fixed, every up label means A > B and every down label A < B, and the facts above still hold |
| SerialReader.ReadChar | EmbeddedMS3.c:622-633 | one received character: '\r' changes nothing; '\n' hands on exactly the buffered line and empties the buffer; any other character is appended iff fewer than 127 are buffered, and otherwise empties the buffer; a line is handed on iff the character is '\n'; the buffer stays within 127 characters |
| SerialReader.Feed | EmbeddedMS3.c:616-635 | from a buffer of at most 127 characters, the buffer and every line handed on stay within 127 characters and contain no '\r' or '\n' |
| SerialReader.FeedAppend | EmbeddedMS3.c:616-635 | receiving input in two reads is the same as receiving it in one |
| SerialReader.CarriageReturnIgnored | EmbeddedMS3.c:623-625 | a '\r' anywhere in the input changes nothing |
| SerialReader.FeedFitting | EmbeddedMS3.c:630-631 | characters that fit are appended to the buffer and nothing is handed on |
| SerialReader.LineDispatched | EmbeddedMS3.c:626-629 | a line of at most 127 characters and its '\n' hand on exactly that line and leave the buffer empty |
| SerialReader.OverflowResets | EmbeddedMS3.c:632-633 | a character arriving at a full buffer empties it and hands on nothing |
| SerialReader.OverlongLineTailDispatched | EmbeddedMS3.c:630-633 | of a 128-or-more-character line only the tail after the overflow reaches the handler |
| Workflow.InitTargetsFromQr | EmbeddedMS3.c:641-656 | plate targets are the 1-based QR pairs made 0-based, not yet placed; in-range QR digits give in-grid targets |
| Workflow.ApplyLine | EmbeddedMS3.c:600-614 | a line that scans as three integers sets marker id, row, col and valid, marks it detected, sets x = col, y = row and the update time; any other line changes nothing |
| Workflow.ReportDecidesTarget | EmbeddedMS3.c:722-725 | after any received line that scans as `id,row,col` (which sets x = col, y = row at lines 609-610), `check_target_reached(tx,ty)` holds iff col = tx and row = ty; after any other line its answer is unchanged |
| Workflow.ApplyLineIdempotent | EmbeddedMS3.c:600-614 | handling the same report twice gives the same state as once |
| Workflow.Boot | EmbeddedMS3.c:167-182 | the power-up values of the globals; no contract of its own, `BootSatisfiesInv` and `FromBootEveryRun` state its properties |
| Workflow.DriveFromPots | EmbeddedMS3.c:410-414 | with the motors locked both bridges brake; unlocked, bridge A gets `motor_set_l298` of x+y and bridge B of x-y, each clamped to [-255,255]; no other global changes |
| Workflow.Step | EmbeddedMS3.c:727-866 | one `state_machine_update` tick; no contract of its own, the lemmas below from `StepPreservesInv` to `PlateWorkflowUnreachable` state its properties |
| Workflow.BootSatisfiesInv | EmbeddedMS3.c:167-182 | the power-up globals satisfy the controller invariant |
| Workflow.StepPreservesInv | EmbeddedMS3.c:727-866 | every tick keeps the invariant: the timer is disarmed in MOVE states, locked motors are braked, plate 2 is handled only after plate 1 is placed |
| Workflow.ReportsPreserveInv | EmbeddedMS3.c:600-614 | position reports keep the invariant |
| Workflow.VerifyOnlyAtTarget | EmbeddedMS3.c:781-852 | after a tick, a VERIFY state always means the plate is on its target |
| Workflow.MoveArmsTimer | EmbeddedMS3.c:763-779 | on target in MOVE_PLATE_1 the timer is armed with the current time and VERIFY_PLATE_1 entered |
| Workflow.MoveOffTargetWaits | EmbeddedMS3.c:763-779 | off target, MOVE_PLATE_1 stays with the timer disarmed |
| Workflow.VerifyDeviationDisarms | EmbeddedMS3.c:781-788 | leaving the target in VERIFY_PLATE_1 disarms the timer and returns to MOVE_PLATE_1 |
| Workflow.MovePlate2ArmsTimer | EmbeddedMS3.c:818-832 | on target in MOVE_PLATE_2 the timer is armed with the current time and VERIFY_PLATE_2 entered |
| Workflow.VerifyPlate2DeviationDisarms | EmbeddedMS3.c:834-840 | leaving the target in VERIFY_PLATE_2 disarms the timer and returns to MOVE_PLATE_2 |
| Workflow.VerifyHoldKeepsTimer | EmbeddedMS3.c:781-800 | on target for less than 5000 ms (wrapping time) VERIFY_PLATE_1 and its timer are kept |
| Workflow.VerifyDwellPlacesPlate1 | EmbeddedMS3.c:789-799 | on target for 5000 ms: magnet off, motors braked, plate 1 placed, plate 2 untouched, marker forgotten, WAIT_PLATE_2 |
| Workflow.VerifyDwellPlacesPlate2 | EmbeddedMS3.c:841-851 | on target for 5000 ms: magnet off, motors braked, plate 2 placed, UV LED on, COMPLETE |
| Workflow.WaitPlate2PicksOnDetection | EmbeddedMS3.c:802-809 | WAIT_PLATE_2 engages the magnet and moves to PICK_PLATE_2 iff a marker was detected; otherwise nothing changes |
| Workflow.FromBootEveryRun | EmbeddedMS3.c:727-866 | on every run from power-up (any interleaving of serial input and ticks): the invariant holds, the state is INIT, HOMING or COMPLETE, the motors stay locked before COMPLETE, and the line buffer holds at most 127 characters |
| Workflow.PlateWorkflowUnreachable | EmbeddedMS3.c:738-750 | no run from power-up reaches WAIT_PLATE_1 or any plate state |
| Workflow.HomingNeverDrives | EmbeddedMS3.c:499-526 | whenever HOMING runs, the homing loops' `hbot_drive(-100,0)` and `hbot_drive(0,-100)` only brake both motors |
| Workflow.HomingDriveCorrected | EmbeddedMS3.c:504-515 | with the lock bypassed during homing, the bridges receive `motor_set_l298` of x+y and x-y |
| Workflow.HomingCorrectedMoves | EmbeddedMS3.c:504-515 | corrected homing drives both motors in reverse for -x, and in opposite directions for -y, at duty 25700 |
| Controller.Firmware.constructor | EmbeddedMS3.c:167-182 | the object starts with the power-up globals and an empty line buffer |
| Controller.Firmware.HandleSerialLine | EmbeddedMS3.c:600-614 | updates the camera record exactly as `ApplyLine` |
| Controller.Firmware.PollSerial | EmbeddedMS3.c:616-635 | the 128-byte array afterwards holds `Feed`'s pending line, the index stays at most 127, and every line handed on is applied in order; nothing else changes |
| Controller.Firmware.MagnetSet | EmbeddedMS3.c:538-541 | sets the magnet flag to the requested value and changes nothing else |
| Controller.Firmware.Drive | EmbeddedMS3.c:453-483 | the bridges get `hbot_drive` of the two commands under the current lock; nothing else changes |
| Controller.Firmware.MovePlate1Tick | EmbeddedMS3.c:763-779 | the MOVE_PLATE_1 tick leaves the globals as `Step` says |
| Controller.Firmware.VerifyPlate1Tick | EmbeddedMS3.c:781-800 | the VERIFY_PLATE_1 tick leaves the globals as `Step` says |
| Controller.Firmware.MovePlate2Tick | EmbeddedMS3.c:818-832 | the MOVE_PLATE_2 tick leaves the globals as `Step` says |
| Controller.Firmware.VerifyPlate2Tick | EmbeddedMS3.c:834-852 | the VERIFY_PLATE_2 tick leaves the globals as `Step` says |
| Controller.Firmware.CompleteTick | EmbeddedMS3.c:854-864 | the COMPLETE tick unlocks the motors once the deadline has passed, then drives, as `Step` says |
| Controller.Firmware.StateMachineUpdate | EmbeddedMS3.c:727-866 | the pots are read (`read_pot_with_deadzone` on the eight samples each) in the states that drive; the new globals are `Step` of the old with those commands, so every Workflow property holds of the object; the serial index is untouched |
| Button.ButtonStep | EmbeddedMS3.c:574-590 | a press is reported iff the pin is low, the previous sample was released and more than 50 ms (wrapping) have passed since the last accepted press; the remembered state is the current sample; the press time advances only on a report |
| Button.LastStateIsPreviousReading | EmbeddedMS3.c:587-588 | after any sequence of calls the remembered state is the last sample |
| Button.Presses | EmbeddedMS3.c:574-590 | repeated `button_check()` calls, one report per call; the lemmas below state what the reports mean |
| Button.ConsecutivePressesApart | EmbeddedMS3.c:580-586 | two consecutive reports are more than 50 ms apart on the wrapping millisecond clock |
| Button.ReportsOnlyRisingEdges | EmbeddedMS3.c:580-586 | a report happens only on a pressed sample whose predecessor was released |
| Button.HeldButtonReportsNothing | EmbeddedMS3.c:574-590 | holding the button down produces no further reports |
| Button.DebouncedButton.constructor | EmbeddedMS3.c:575-576 | last press time 0, last state released |
| Button.DebouncedButton.Check | EmbeddedMS3.c:574-590 | the new fields and the result are `ButtonStep` of the old fields |
| Tracker.PixelToGrid | Camera/aruco_wifi_tracker.py:185-197 | row and column always lie in [0, grid_size-1], for any pixel |
| Tracker.StripOfPixel | Camera/aruco_wifi_tracker.py:190-191 | for a pixel inside the frame the unclamped cell is in range and its strip contains the pixel |
| Tracker.PixelInsideFrame | Camera/aruco_wifi_tracker.py:190-197 | a pixel inside the frame lands in the cell whose strips contain it |
| Tracker.StripUnique | Camera/aruco_wifi_tracker.py:190-191 | a pixel lies in only one strip, so that cell is the only right answer |
| Tracker.PixelToGridMonotone | Camera/aruco_wifi_tracker.py:190-195 | the column never decreases as cx grows, nor the row as cy grows |
| Tracker.PrimaryIndex | Camera/aruco_wifi_tracker.py:230 | the marker chosen has the largest area (a missing area counts as 0), and every earlier marker has a strictly smaller one, as the stable descending sort picks |
| Tracker.PrimaryUnique | Camera/aruco_wifi_tracker.py:230 | only one marker satisfies that description |
| Tracker.NatToString | Camera/aruco_wifi_tracker.py:231 | decimal digits without leading zeros whose value is the number |
| Tracker.IntToString | Camera/aruco_wifi_tracker.py:231 | a minus sign before the digits of \|v\| for negative v, the digits of v otherwise |
| Tracker.SendMarkerData | Camera/aruco_wifi_tracker.py:222-238 | nothing is written iff the port is closed or the list is empty; otherwise the line written is `id,row,col\n` of the primary marker |
| Scan.ScanInt | EmbeddedMS3.c:603 | one `%d` conversion; what it leaves unread is a proper suffix of the input, and `Link.IntRoundTrip` states the value it reads |
| Scan.ScanReport | EmbeddedMS3.c:603 | `sscanf(line, "%d,%d,%d") == 3`; no contract of its own, `Link.RecordRoundTrip` states that it reads back the sent fields |
| Link.DigitRunOfDigits | EmbeddedMS3.c:603 | the digit scan reads a run of digits followed by a non-digit whole |
| Link.IntRoundTrip | Camera/aruco_wifi_tracker.py:231 | the firmware's `%d` reads back the integer that `str` wrote, stopping at the comma |
| Link.RecordRoundTrip | Camera/aruco_wifi_tracker.py:231 | `sscanf("%d,%d,%d")` of the sent fields recovers id, row and column |
| Link.RecordHasNoTerminators | Camera/aruco_wifi_tracker.py:231 | the sent fields contain no '\r' or '\n' |
| Link.SentLineUpdatesCamera | Camera/aruco_wifi_tracker.py:222-238 | a sent line that fits the 128-byte buffer reaches the handler as one line; the firmware then has x = column and y = row of the primary marker with its id, and reaches a target iff it is that cell |

## Left out

- Hardware I/O is left out: GPIO, PWM, ADC and I²C registers, the LCD (including
  `update_lcd_for_state` and the display part of `update_motors_from_pots_hbot`,
  whose extra debug ADC reads are dropped too),
  the buzzer, `sleep_ms`/`sleep_us` and `main`. The magnet, UV LED and bridge
  outputs are kept as fields; ADC samples, received characters, pin levels and
  clock readings are parameters.
- `debug_motor_a`/`debug_motor_b` and the other debug globals are left out: only
  the display reads them.
- The blocking loops of `homing_sequence` (EmbeddedMS3.c:504-515) wait for a
  limit-switch pin with no bound. Only their effect is modelled: motors
  stopped and position (0,0). `Workflow.HomingDrive` gives what one pass sends
  to the bridges.
- Controller.Firmware.StateMachineUpdate: homing takes no time in the model. The
  unlock deadline is computed from the tick's `now`, not from the clock after
  the 1.5 s of homing sleeps.
- Controller.Firmware.PollSerial: one clock reading `now` stands for every report
  handled in one call.
- Workflow.ApplyLine: the marker's `center_x`, `center_y` and `area` fields are
  never written by the firmware, so they are not modelled. `%d` overflow on
  numbers outside `int` range is undefined behaviour in C and is not modelled.
- The duplicate `handle_serial_line` at EmbeddedMS3.c:28-50 is left out. It adds
  only an LCD refresh.
- Pots.PotCommand: the float arithmetic is modelled as truncating integer
  division of (raw-2047)*255 by 2047. The exact quotient is either an integer
  or at least 1/2047 away from one, which is far above single-precision
  rounding error at these magnitudes, so the truncation agrees.
- Tracker.PixelToGrid: `int(cx / (frame_width / grid_size))` in floating point is
  modelled as the exact truncated quotient cx*grid_size/frame_width. The two
  can differ when floating-point rounding lands just below an integer.
- Tracker.SendMarkerData: the write itself, its exception path (returning False
  after a failed write) and the sort of the whole list are left out. The model
  returns the line written and characterises the element the sort puts first.
- OpenCV detection, drawing and camera capture are left out, and so is the
  serial port selection.

## Findings

| source | as written | input that shows it | evidently intended | confidence | as-written member | corrected member |
|---|---|---|---|---|---|---|
| EmbeddedMS3.c:499-526 | `homing_sequence` drives through `hbot_drive`, which brakes while `motors_unlocked` is false; that flag is false from power-up (line 182) until COMPLETE unlocks it | any run from power-up reaching HOMING: every `hbot_drive` call in the homing loops, such as `hbot_drive(-100,0)`, gives both bridges `Bridge(false,false,0)`; what the loops then do depends on limit-switch wiring the source does not state | homing drives the gantry onto the limit switches, bypassing the post-homing lock | not executed; high | Workflow.HomingNeverDrives | Workflow.HomingDriveCorrected |
| EmbeddedMS3.c:335-339 | in the both-below-(-20) branch of `get_direction_str`, a < b is labelled UP and a > b DN, the reverse of every other branch (a > b means up, since y = (a-b)/2) | motor commands (-50,-150), from x = -100, y = 50, are labelled "LEFT-DN" | "LEFT-UP" when a > b, "LEFT-DN" when a < b | not executed; medium | Direction.BothReverseLabelInverted | Direction.DirectionOfCorrected |
