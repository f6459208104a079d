/// The firmware's control layer as it runs: the globals are fields of one
/// `Firmware` object that `poll_serial`, `handle_serial_line`, `magnet_set`
/// and `state_machine_update` update in place. Each method is proved to have
/// exactly the effect the functions of modules SerialReader and Workflow
/// describe, so every property proved there holds of the object.
module Controller {
  import opened Ints
  import opened Wrappers
  import opened Scan
  import opened Motor
  import opened Pots
  import opened SerialReader
  import opened Workflow

  class Firmware {
    var state: State
    var camera: CameraData
    var plate1: Plate
    var plate2: Plate
    var placementStart: U32
    var magnetActive: bool
    var motorsUnlocked: bool
    var motorsUnlockTime: U32
    var uvLedOn: bool
    var motorA: Bridge
    var motorB: Bridge
    /// `serial_buffer` and `serial_idx`.
    const serialBuffer: array<char>
    var serialIdx: nat

    ghost predicate Valid()
      reads this
    {
      serialBuffer.Length == BufferSize && serialIdx <= MaxLine
    }

    function Snapshot(): Globals
      reads this
    {
      Globals(state, camera, plate1, plate2, placementStart, magnetActive,
              motorsUnlocked, motorsUnlockTime, uvLedOn, motorA, motorB)
    }

    /// The characters of the line being received.
    function Pending(): seq<char>
      reads this, serialBuffer
      requires Valid()
    {
      serialBuffer[..serialIdx]
    }

    /// Power-up: the globals' static initialisers and an empty line buffer.
    constructor ()
      ensures Valid() && fresh(serialBuffer)
      ensures Snapshot() == Boot() && Pending() == []
    {
      state := Init;
      camera := CameraData(0, 0, Marker(0, 0, 0, false), false, 0);
      plate1, plate2 := Plate(0, 0, false), Plate(0, 0, false);
      placementStart := 0;
      magnetActive, motorsUnlocked := false, false;
      motorsUnlockTime := 0;
      uvLedOn := false;
      motorA, motorB := Brake, Brake;
      serialBuffer := new char[BufferSize](_ => '\0');
      serialIdx := 0;
    }

    /// `handle_serial_line(line)` at time `now`.
    method HandleSerialLine(line: seq<char>, now: U32)
      modifies this`camera
      ensures camera == ApplyLine(old(camera), line, now)
    {
      var report := ScanReport(line);
      if report.Some? {
        var r := report.value;
        camera := camera.(detectedMarker := camera.detectedMarker.(id := r.id, gridRow := r.row,
                                                                    gridCol := r.col, valid := true));
        camera := camera.(markerDetected := true);
        camera := camera.(currentX := r.col, currentY := r.row);
        camera := camera.(lastUpdateTime := now);
      }
    }

    /// `poll_serial()`, where `input` is what `getchar_timeout_us(0)` returns
    /// before it first times out and `now` is the clock while it runs.
    method PollSerial(input: seq<char>, now: U32)
      requires Valid()
      modifies this`serialIdx, this`camera, serialBuffer
      ensures Valid()
      ensures Pending() == Feed(old(Pending()), input).pending
      ensures Snapshot() == old(Snapshot()).(camera := ApplyLines(old(camera), Feed(old(Pending()), input).lines, now))
    {
      ghost var p0 := Pending();
      ghost var c0 := camera;
      var i := 0;
      while i < |input|
        invariant 0 <= i <= |input|
        invariant Valid()
        invariant Pending() == Feed(p0, input[..i]).pending
        invariant camera == ApplyLines(c0, Feed(p0, input[..i]).lines, now)
      {
        var ch := input[i];
        ghost var before := Pending();
        ghost var fed := Feed(p0, input[..i]);
        assert input[..i + 1][..i] == input[..i];
        assert Feed(p0, input[..i + 1]) ==
               Fed(ReadChar(before, ch).pending, fed.lines + ReadChar(before, ch).lines);
        if ch == '\r' {
          assert fed.lines + [] == fed.lines;
        } else if ch == '\n' {
          serialBuffer[serialIdx] := '\0';
          assert serialBuffer[..serialIdx] == before;
          HandleSerialLine(serialBuffer[..serialIdx], now);
          serialIdx := 0;
          assert (fed.lines + [before])[..|fed.lines|] == fed.lines;
        } else if serialIdx < serialBuffer.Length - 1 {
          serialBuffer[serialIdx] := ch;
          serialIdx := serialIdx + 1;
          assert Pending() == before + [ch];
          assert fed.lines + [] == fed.lines;
        } else {
          serialIdx := 0;
          assert fed.lines + [] == fed.lines;
        }
        i := i + 1;
      }
      assert input[..|input|] == input;
    }

    /// `magnet_set(active)`.
    method MagnetSet(active: bool)
      modifies this`magnetActive
      ensures magnetActive == active
    {
      magnetActive := active;
    }

    /// `hbot_drive(x_cmd, y_cmd)`: the bridges are set as the H-bot
    /// mapping and the motor lock say.
    method Drive(xCmd: int, yCmd: int)
      modifies this`motorA, this`motorB
      ensures Snapshot() == DriveFromPots(old(Snapshot()), xCmd, yCmd)
    {
      var d := HbotDrive(xCmd, yCmd, motorsUnlocked, TestDisplayOnly);
      motorA, motorB := d.outA, d.outB;
    }

    /// The MOVE_PLATE_1 case of `state_machine_update`, the pots giving
    /// `xCmd` and `yCmd`.
    method MovePlate1Tick(now: U32, xCmd: int, yCmd: int)
      requires state == MovePlate1
      modifies this
      ensures Snapshot() == Step(old(Snapshot()), now, xCmd, yCmd)
      ensures serialIdx == old(serialIdx)
    {
      Drive(xCmd, yCmd);
      if CheckTargetReached(camera, plate1.targetX, plate1.targetY) {
        if placementStart == 0 {
          placementStart := now;
        }
        state := VerifyPlate1;
      }
    }

    /// The VERIFY_PLATE_1 case of `state_machine_update`, the pots giving
    /// `xCmd` and `yCmd`.
    method VerifyPlate1Tick(now: U32, xCmd: int, yCmd: int)
      requires state == VerifyPlate1
      modifies this
      ensures Snapshot() == Step(old(Snapshot()), now, xCmd, yCmd)
      ensures serialIdx == old(serialIdx)
    {
      Drive(xCmd, yCmd);
      if !CheckTargetReached(camera, plate1.targetX, plate1.targetY) {
        placementStart := 0;
        state := MovePlate1;
      } else if Sub32(now, placementStart) >= PlacementTime {
        MagnetSet(false);
        motorA, motorB := Brake, Brake;
        plate1 := plate1.(placed := true);
        state := WaitPlate2;
        camera := camera.(markerDetected := false);
      }
    }

    /// The MOVE_PLATE_2 case of `state_machine_update`, the pots giving
    /// `xCmd` and `yCmd`.
    method MovePlate2Tick(now: U32, xCmd: int, yCmd: int)
      requires state == MovePlate2
      modifies this
      ensures Snapshot() == Step(old(Snapshot()), now, xCmd, yCmd)
      ensures serialIdx == old(serialIdx)
    {
      Drive(xCmd, yCmd);
      if CheckTargetReached(camera, plate2.targetX, plate2.targetY) {
        if placementStart == 0 {
          placementStart := now;
        }
        state := VerifyPlate2;
      }
    }

    /// The VERIFY_PLATE_2 case of `state_machine_update`, the pots giving
    /// `xCmd` and `yCmd`.
    method VerifyPlate2Tick(now: U32, xCmd: int, yCmd: int)
      requires state == VerifyPlate2
      modifies this
      ensures Snapshot() == Step(old(Snapshot()), now, xCmd, yCmd)
      ensures serialIdx == old(serialIdx)
    {
      Drive(xCmd, yCmd);
      if !CheckTargetReached(camera, plate2.targetX, plate2.targetY) {
        placementStart := 0;
        state := MovePlate2;
      } else if Sub32(now, placementStart) >= PlacementTime {
        MagnetSet(false);
        motorA, motorB := Brake, Brake;
        plate2 := plate2.(placed := true);
        state := Complete;
        uvLedOn := true;
      }
    }

    /// The COMPLETE case of `state_machine_update`, the pots giving
    /// `xCmd` and `yCmd`: the motor lock is released once its deadline has
    /// passed, then the pots drive.
    method CompleteTick(now: U32, xCmd: int, yCmd: int)
      requires state == Complete
      modifies this
      ensures Snapshot() == Step(old(Snapshot()), now, xCmd, yCmd)
      ensures serialIdx == old(serialIdx)
    {
      if !motorsUnlocked {
        if now >= motorsUnlockTime {
          motorsUnlocked := true;
        }
      }
      Drive(xCmd, yCmd);
    }

    /// `state_machine_update()` at time `now`; the pots give the eight
    /// readings `xSamples` and `ySamples` if the state reads them.
    method StateMachineUpdate(now: U32, xSamples: seq<int>, ySamples: seq<int>)
      requires IsReadings(xSamples) && IsReadings(ySamples)
      modifies this
      ensures Snapshot() == Step(old(Snapshot()), now, PotCommand(Average(xSamples)), PotCommand(Average(ySamples)))
      ensures serialIdx == old(serialIdx)
    {
      match state {
        case Init =>
          var plates := InitTargetsFromQr(QrSequence);
          plate1, plate2 := plates.0, plates.1;
          state := Homing;
        case Homing =>
          // homing_sequence(): its blocking loops end with the motors
          // stopped and the position set to the origin
          motorA, motorB := Brake, Brake;
          camera := camera.(currentX := 0, currentY := 0);
          motorsUnlocked := false;
          motorsUnlockTime := Add32(now, UnlockDelay);
          state := Complete;
        case WaitPlate1 =>
        case PickPlate1 =>
          state := MovePlate1;
          placementStart := 0;
        case MovePlate1 =>
          var xCmd := ReadPotWithDeadzone(xSamples);
          var yCmd := ReadPotWithDeadzone(ySamples);
          MovePlate1Tick(now, xCmd, yCmd);
        case VerifyPlate1 =>
          var xCmd := ReadPotWithDeadzone(xSamples);
          var yCmd := ReadPotWithDeadzone(ySamples);
          VerifyPlate1Tick(now, xCmd, yCmd);
        case WaitPlate2 =>
          if camera.markerDetected {
            state := PickPlate2;
            MagnetSet(true);
          }
        case PickPlate2 =>
          state := MovePlate2;
          placementStart := 0;
        case MovePlate2 =>
          var xCmd := ReadPotWithDeadzone(xSamples);
          var yCmd := ReadPotWithDeadzone(ySamples);
          MovePlate2Tick(now, xCmd, yCmd);
        case VerifyPlate2 =>
          var xCmd := ReadPotWithDeadzone(xSamples);
          var yCmd := ReadPotWithDeadzone(ySamples);
          VerifyPlate2Tick(now, xCmd, yCmd);
        case Complete =>
          var xCmd := ReadPotWithDeadzone(xSamples);
          var yCmd := ReadPotWithDeadzone(ySamples);
          CompleteTick(now, xCmd, yCmd);
      }
    }
  }
}
