/// The firmware's control state and `state_machine_update`, as functions of
/// the state before a tick and the tick's inputs.
///
/// The globals the control layer keeps (`current_state`, `camera_data`,
/// `plate_1`, `plate_2`, `placement_start_time`, `magnet_active`,
/// `motors_unlocked`, `motors_unlock_time`, the UV indicator and the two
/// bridges' outputs) are one `Globals` value here; the `Firmware` class of
/// module Controller keeps them as fields and is proved to follow `Step`.
module Workflow {
  import opened Ints
  import opened Wrappers
  import opened Scan
  import opened Motor
  import opened SerialReader

  datatype State =
    | Init | Homing
    | WaitPlate1 | PickPlate1 | MovePlate1 | VerifyPlate1
    | WaitPlate2 | PickPlate2 | MovePlate2 | VerifyPlate2
    | Complete

  /// The fields of the last detected marker that the firmware writes.
  datatype Marker = Marker(id: int, gridRow: int, gridCol: int, valid: bool)

  /// `camera_data`: the logical position (x is the column, y the row) and
  /// the last position report.
  datatype CameraData = CameraData(
    currentX: int,
    currentY: int,
    detectedMarker: Marker,
    markerDetected: bool,
    lastUpdateTime: U32)

  datatype Plate = Plate(targetX: int, targetY: int, placed: bool)

  datatype Globals = Globals(
    state: State,
    camera: CameraData,
    plate1: Plate,
    plate2: Plate,
    placementStart: U32,
    magnetActive: bool,
    motorsUnlocked: bool,
    motorsUnlockTime: U32,
    uvLedOn: bool,
    motorA: Bridge,
    motorB: Bridge)

  const GridSize: int := 5
  /// The target sequence read from the QR code: 1-based (x, y) of plate 1,
  /// then of plate 2.
  const QrSequence: seq<int> := [5, 4, 3, 2]
  /// Dwell, in ms, a plate must be held on its target.
  const PlacementTime: int := 5000
  /// Wait, in ms, after homing before the motors are unlocked.
  const UnlockDelay: U32 := 10000
  /// `TEST_DISPLAY_ONLY` is 0.
  const TestDisplayOnly: bool := false

  /// The globals at power-up: everything zero, false or off.
  function Boot(): Globals
  {
    Globals(Init, CameraData(0, 0, Marker(0, 0, 0, false), false, 0),
            Plate(0, 0, false), Plate(0, 0, false), 0, false, false, 0, false, Brake, Brake)
  }

  predicate InGrid(p: Plate)
  {
    0 <= p.targetX < GridSize && 0 <= p.targetY < GridSize
  }

  /// `init_targets_from_qr`: each 1-based QR pair becomes a 0-based target,
  /// and neither plate is placed.
  function InitTargetsFromQr(qr: seq<int>): (plates: (Plate, Plate))
    requires |qr| == 4
    ensures plates.0.targetX + 1 == qr[0] && plates.0.targetY + 1 == qr[1]
    ensures plates.1.targetX + 1 == qr[2] && plates.1.targetY + 1 == qr[3]
    ensures !plates.0.placed && !plates.1.placed
    ensures (forall i :: 0 <= i < 4 ==> 1 <= qr[i] <= GridSize) ==> InGrid(plates.0) && InGrid(plates.1)
  {
    (Plate(qr[0] - 1, qr[1] - 1, false), Plate(qr[2] - 1, qr[3] - 1, false))
  }

  /// `check_target_reached`: the current cell is the target cell.
  function CheckTargetReached(camera: CameraData, targetX: int, targetY: int): bool
  {
    camera.currentX == targetX && camera.currentY == targetY
  }

  predicate AtTarget(g: Globals, p: Plate)
  {
    CheckTargetReached(g.camera, p.targetX, p.targetY)
  }

  /// The effect of `handle_serial_line(line)` received at time `now`: a line
  /// that scans as three integers id,row,col overwrites the marker and the
  /// position (x := col, y := row); any other line changes nothing.
  function ApplyLine(camera: CameraData, line: seq<char>, now: U32): (c: CameraData)
    ensures ScanReport(line).None? ==> c == camera
    ensures ScanReport(line).Some? ==>
              var r := ScanReport(line).value;
              && c.detectedMarker == Marker(r.id, r.row, r.col, true)
              && c.markerDetected
              && c.currentX == r.col && c.currentY == r.row
              && c.lastUpdateTime == now
  {
    match ScanReport(line)
    case None => camera
    case Some(r) =>
      camera.(detectedMarker := Marker(r.id, r.row, r.col, true), markerDetected := true,
              currentX := r.col, currentY := r.row, lastUpdateTime := now)
  }

  /// The lines handed on by one `poll_serial` call, handled in order.
  function ApplyLines(camera: CameraData, lines: seq<seq<char>>, now: U32): CameraData
  {
    if lines == [] then camera
    else ApplyLine(ApplyLines(camera, lines[..|lines| - 1], now), lines[|lines| - 1], now)
  }

  /// After any line, the target check answers for the reported cell: a
  /// report `id,row,col` makes exactly the target (col, row) reached, and a
  /// line that does not scan leaves the answer as it was.
  lemma ReportDecidesTarget(camera: CameraData, line: seq<char>, now: U32, targetX: int, targetY: int)
    ensures ScanReport(line).Some? ==>
              (CheckTargetReached(ApplyLine(camera, line, now), targetX, targetY) <==>
                 ScanReport(line).value.col == targetX && ScanReport(line).value.row == targetY)
    ensures ScanReport(line).None? ==>
              CheckTargetReached(ApplyLine(camera, line, now), targetX, targetY)
                == CheckTargetReached(camera, targetX, targetY)
  {
  }

  /// A repeated report changes nothing the first one did not.
  lemma ApplyLineIdempotent(camera: CameraData, line: seq<char>, now: U32)
    ensures ApplyLine(ApplyLine(camera, line, now), line, now) == ApplyLine(camera, line, now)
  {
  }

  /// `update_motors_from_pots_hbot` with the pots' commands `xCmd`, `yCmd`.
  function DriveFromPots(g: Globals, xCmd: int, yCmd: int): (d: Globals)
    ensures d == g.(motorA := d.motorA, motorB := d.motorB)
    ensures !g.motorsUnlocked ==> d.motorA == Brake && d.motorB == Brake
    ensures g.motorsUnlocked ==>
              && d.motorA == MotorSetL298(Clamp(xCmd + yCmd, -SpeedMax, SpeedMax))
              && d.motorB == MotorSetL298(Clamp(xCmd - yCmd, -SpeedMax, SpeedMax))
  {
    var d := HbotDrive(xCmd, yCmd, g.motorsUnlocked, TestDisplayOnly);
    g.(motorA := d.outA, motorB := d.outB)
  }

  /// `state_machine_update` at time `now`, with `xCmd` and `yCmd` the
  /// commands the two pots give if the state reads them.
  function Step(g: Globals, now: U32, xCmd: int, yCmd: int): Globals
  {
    match g.state
    case Init =>
      var plates := InitTargetsFromQr(QrSequence);
      g.(plate1 := plates.0, plate2 := plates.1, state := Homing)
    case Homing =>
      // the end effect of homing_sequence: motors stopped at the origin
      g.(motorA := Brake, motorB := Brake, camera := g.camera.(currentX := 0, currentY := 0),
         motorsUnlocked := false, motorsUnlockTime := Add32(now, UnlockDelay), state := Complete)
    case WaitPlate1 => g
    case PickPlate1 => g.(state := MovePlate1, placementStart := 0)
    case MovePlate1 =>
      var d := DriveFromPots(g, xCmd, yCmd);
      if AtTarget(d, d.plate1) then
        d.(placementStart := if d.placementStart == 0 then now else d.placementStart,
           state := VerifyPlate1)
      else d
    case VerifyPlate1 =>
      var d := DriveFromPots(g, xCmd, yCmd);
      if !AtTarget(d, d.plate1) then d.(placementStart := 0, state := MovePlate1)
      else if Sub32(now, d.placementStart) >= PlacementTime then
        d.(magnetActive := false, motorA := Brake, motorB := Brake,
           plate1 := d.plate1.(placed := true), state := WaitPlate2,
           camera := d.camera.(markerDetected := false))
      else d
    case WaitPlate2 =>
      if g.camera.markerDetected then g.(state := PickPlate2, magnetActive := true) else g
    case PickPlate2 => g.(state := MovePlate2, placementStart := 0)
    case MovePlate2 =>
      var d := DriveFromPots(g, xCmd, yCmd);
      if AtTarget(d, d.plate2) then
        d.(placementStart := if d.placementStart == 0 then now else d.placementStart,
           state := VerifyPlate2)
      else d
    case VerifyPlate2 =>
      var d := DriveFromPots(g, xCmd, yCmd);
      if !AtTarget(d, d.plate2) then d.(placementStart := 0, state := MovePlate2)
      else if Sub32(now, d.placementStart) >= PlacementTime then
        d.(magnetActive := false, motorA := Brake, motorB := Brake,
           plate2 := d.plate2.(placed := true), state := Complete, uvLedOn := true)
      else d
    case Complete =>
      var u := if !g.motorsUnlocked && now >= g.motorsUnlockTime then g.(motorsUnlocked := true) else g;
      DriveFromPots(u, xCmd, yCmd)
  }

  predicate InPlate2Phase(s: State)
  {
    s == WaitPlate2 || s == PickPlate2 || s == MovePlate2 || s == VerifyPlate2
  }

  /// What every tick keeps:
  /// - in a MOVE state the placement timer is disarmed (0);
  /// - while the motors are locked both bridges are braked;
  /// - plate 2 is handled only after plate 1 is placed.
  predicate Inv(g: Globals)
  {
    && (g.state == MovePlate1 || g.state == MovePlate2 ==> g.placementStart == 0)
    && (!g.motorsUnlocked ==> g.motorA == Brake && g.motorB == Brake)
    && (InPlate2Phase(g.state) ==> g.plate1.placed)
    && (g.plate2.placed ==> g.plate1.placed)
  }

  lemma BootSatisfiesInv()
    ensures Inv(Boot())
  {
  }

  lemma StepPreservesInv(g: Globals, now: U32, xCmd: int, yCmd: int)
    requires Inv(g)
    ensures Inv(Step(g, now, xCmd, yCmd))
  {
    match g.state
    case Init =>
    case Homing =>
    case WaitPlate1 =>
    case PickPlate1 =>
    case MovePlate1 =>
    case VerifyPlate1 =>
    case WaitPlate2 =>
    case PickPlate2 =>
    case MovePlate2 =>
    case VerifyPlate2 =>
    case Complete =>
  }

  /// Position reports touch only the camera record, so they keep the
  /// invariant and never change the state or the placement timer.
  lemma ReportsPreserveInv(g: Globals, lines: seq<seq<char>>, now: U32)
    requires Inv(g)
    ensures Inv(g.(camera := ApplyLines(g.camera, lines, now)))
  {
  }

  /// A VERIFY state is left at the end of any tick in which the plate is
  /// off its target, so after a tick a VERIFY state means "on target".
  lemma VerifyOnlyAtTarget(g: Globals, now: U32, xCmd: int, yCmd: int)
    ensures var h := Step(g, now, xCmd, yCmd);
            && (h.state == VerifyPlate1 ==> AtTarget(h, h.plate1))
            && (h.state == VerifyPlate2 ==> AtTarget(h, h.plate2))
  {
    match g.state
    case Init =>
    case Homing =>
    case WaitPlate1 =>
    case PickPlate1 =>
    case MovePlate1 =>
    case VerifyPlate1 =>
    case WaitPlate2 =>
    case PickPlate2 =>
    case MovePlate2 =>
    case VerifyPlate2 =>
    case Complete =>
  }

  /// Reaching the target in MOVE_PLATE_1 arms the timer with the current
  /// time (it is always disarmed there) and enters VERIFY_PLATE_1.
  lemma MoveArmsTimer(g: Globals, now: U32, xCmd: int, yCmd: int)
    requires Inv(g) && g.state == MovePlate1 && AtTarget(g, g.plate1)
    ensures Step(g, now, xCmd, yCmd).state == VerifyPlate1
    ensures Step(g, now, xCmd, yCmd).placementStart == now
  {
  }

  /// Off target, MOVE_PLATE_1 stays where it is with the timer disarmed.
  lemma MoveOffTargetWaits(g: Globals, now: U32, xCmd: int, yCmd: int)
    requires Inv(g) && g.state == MovePlate1 && !AtTarget(g, g.plate1)
    ensures Step(g, now, xCmd, yCmd).state == MovePlate1
    ensures Step(g, now, xCmd, yCmd).placementStart == 0
  {
  }

  /// Any deviation in VERIFY_PLATE_1 disarms the timer and returns to
  /// MOVE_PLATE_1.
  lemma VerifyDeviationDisarms(g: Globals, now: U32, xCmd: int, yCmd: int)
    requires g.state == VerifyPlate1 && !AtTarget(g, g.plate1)
    ensures Step(g, now, xCmd, yCmd).state == MovePlate1
    ensures Step(g, now, xCmd, yCmd).placementStart == 0
  {
  }

  /// Reaching the target in MOVE_PLATE_2 arms the timer with the current
  /// time and enters VERIFY_PLATE_2.
  lemma MovePlate2ArmsTimer(g: Globals, now: U32, xCmd: int, yCmd: int)
    requires Inv(g) && g.state == MovePlate2 && AtTarget(g, g.plate2)
    ensures Step(g, now, xCmd, yCmd).state == VerifyPlate2
    ensures Step(g, now, xCmd, yCmd).placementStart == now
  {
  }

  /// Any deviation in VERIFY_PLATE_2 disarms the timer and returns to
  /// MOVE_PLATE_2.
  lemma VerifyPlate2DeviationDisarms(g: Globals, now: U32, xCmd: int, yCmd: int)
    requires g.state == VerifyPlate2 && !AtTarget(g, g.plate2)
    ensures Step(g, now, xCmd, yCmd).state == MovePlate2
    ensures Step(g, now, xCmd, yCmd).placementStart == 0
  {
  }

  /// Holding the target for less than the dwell keeps VERIFY_PLATE_1 and the
  /// armed timer as they are.
  lemma VerifyHoldKeepsTimer(g: Globals, now: U32, xCmd: int, yCmd: int)
    requires g.state == VerifyPlate1 && AtTarget(g, g.plate1)
    requires Sub32(now, g.placementStart) < PlacementTime
    ensures Step(g, now, xCmd, yCmd).state == VerifyPlate1
    ensures Step(g, now, xCmd, yCmd).placementStart == g.placementStart
  {
  }

  /// Holding plate 1 on target for the dwell releases the magnet, stops the
  /// motors, marks the plate placed, forgets the marker and waits for plate 2.
  lemma VerifyDwellPlacesPlate1(g: Globals, now: U32, xCmd: int, yCmd: int)
    requires g.state == VerifyPlate1 && AtTarget(g, g.plate1)
    requires Sub32(now, g.placementStart) >= PlacementTime
    ensures var h := Step(g, now, xCmd, yCmd);
            && h.state == WaitPlate2 && !h.magnetActive && h.plate1.placed
            && h.plate2 == g.plate2 && !h.camera.markerDetected
            && h.motorA == Brake && h.motorB == Brake
  {
  }

  /// Holding plate 2 on target for the dwell completes the task: magnet
  /// off, motors stopped, plate 2 placed, success indicator on.
  lemma VerifyDwellPlacesPlate2(g: Globals, now: U32, xCmd: int, yCmd: int)
    requires g.state == VerifyPlate2 && AtTarget(g, g.plate2)
    requires Sub32(now, g.placementStart) >= PlacementTime
    ensures var h := Step(g, now, xCmd, yCmd);
            && h.state == Complete && !h.magnetActive && h.plate2.placed && h.uvLedOn
            && h.motorA == Brake && h.motorB == Brake
  {
  }

  /// WAIT_PLATE_2 engages the magnet and moves to PICK_PLATE_2 exactly when
  /// a marker report has arrived since plate 1 was placed.
  lemma WaitPlate2PicksOnDetection(g: Globals, now: U32, xCmd: int, yCmd: int)
    requires g.state == WaitPlate2
    ensures var h := Step(g, now, xCmd, yCmd);
            && (h.state == PickPlate2 <==> g.camera.markerDetected)
            && (g.camera.markerDetected ==> h.magnetActive)
            && (!g.camera.markerDetected ==> h == g)
  {
  }

  /// What the control loop can see: a `poll_serial` call that receives
  /// `input` at time `now`, or a `state_machine_update` tick.
  datatype Event = Serial(input: seq<char>, now: U32) | Tick(now: U32, xCmd: int, yCmd: int)

  /// The globals together with the characters buffered by the serial reader.
  datatype System = System(g: Globals, pending: seq<char>)

  function Apply(s: System, e: Event): System
  {
    match e
    case Serial(input, now) =>
      var f := Feed(s.pending, input);
      System(s.g.(camera := ApplyLines(s.g.camera, f.lines, now)), f.pending)
    case Tick(now, xCmd, yCmd) => System(Step(s.g, now, xCmd, yCmd), s.pending)
  }

  function Run(s: System, events: seq<Event>): System
  {
    if events == [] then s else Apply(Run(s, events[..|events| - 1]), events[|events| - 1])
  }

  /// What holds of every run that starts at power-up.
  predicate FromBoot(g: Globals)
  {
    && Inv(g)
    && (g.state == Init || g.state == Homing || g.state == Complete)
    && (g.state != Complete ==> !g.motorsUnlocked)
  }

  lemma {:induction false} FromBootEveryRun(events: seq<Event>)
    ensures FromBoot(Run(System(Boot(), []), events).g)
    ensures |Run(System(Boot(), []), events).pending| <= MaxLine
  {
    if events != [] {
      FromBootEveryRun(events[..|events| - 1]);
      var s := Run(System(Boot(), []), events[..|events| - 1]);
      match events[|events| - 1]
      case Serial(input, now) =>
        ReportsPreserveInv(s.g, Feed(s.pending, input).lines, now);
      case Tick(now, xCmd, yCmd) =>
        StepPreservesInv(s.g, now, xCmd, yCmd);
    }
  }

  /// As written, HOMING hands over straight to COMPLETE: no run from
  /// power-up ever enters a plate state.
  lemma PlateWorkflowUnreachable(events: seq<Event>)
    ensures var g := Run(System(Boot(), []), events).g;
            g.state != WaitPlate1 && g.state != PickPlate1 && g.state != MovePlate1 &&
            g.state != VerifyPlate1 && !InPlate2Phase(g.state)
  {
    FromBootEveryRun(events);
  }

  /// What one pass of `homing_sequence`'s loops sends to the bridges: it
  /// calls `hbot_drive`, which honours the motor lock.
  function HomingDrive(g: Globals, xCmd: int, yCmd: int): Drive
  {
    HbotDrive(xCmd, yCmd, g.motorsUnlocked, TestDisplayOnly)
  }

  /// The motors are still locked (as at power-up) whenever HOMING runs, so
  /// the homing loops' commands (-100, 0) and (0, -100) only ever brake:
  /// the gantry cannot drive itself onto the limit switches.
  lemma HomingNeverDrives(events: seq<Event>)
    requires Run(System(Boot(), []), events).g.state == Homing
    ensures var g := Run(System(Boot(), []), events).g;
            && HomingDrive(g, -100, 0).outA == Brake && HomingDrive(g, -100, 0).outB == Brake
            && HomingDrive(g, 0, -100).outA == Brake && HomingDrive(g, 0, -100).outB == Brake
  {
    FromBootEveryRun(events);
  }

  /// Homing with the lock bypassed, as the homing loops evidently intend:
  /// the commanded speeds reach the bridges.
  function HomingDriveCorrected(xCmd: int, yCmd: int): (d: Drive)
    ensures Abs(xCmd) + Abs(yCmd) <= SpeedMax ==>
              d.outA == MotorSetL298(xCmd + yCmd) && d.outB == MotorSetL298(xCmd - yCmd)
  {
    HbotDrive(xCmd, yCmd, true, TestDisplayOnly)
  }

  /// Corrected homing moves: negative x turns both motors in reverse,
  /// negative y turns them in opposite directions, each at duty 25700.
  lemma HomingCorrectedMoves()
    ensures HomingDriveCorrected(-100, 0).outA == Bridge(false, true, 25700)
    ensures HomingDriveCorrected(-100, 0).outB == Bridge(false, true, 25700)
    ensures HomingDriveCorrected(0, -100).outA == Bridge(false, true, 25700)
    ensures HomingDriveCorrected(0, -100).outB == Bridge(true, false, 25700)
  {
  }
}
