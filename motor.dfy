/// The motor layer of the firmware: one L298 bridge channel driven from a
/// signed speed (`motor_set_l298`) and the H-bot mapping that turns the two
/// axis commands into the two coupled motors' commands (`hbot_drive`).
module Motor {
  import opened Ints

  /// PWM wrap value of the 16-bit PWM slices (`PWM_MAX`).
  const PwmMax: int := 65535
  /// Largest magnitude of a motor command.
  const SpeedMax: int := 255

  /// The three outputs of one bridge channel: the two direction inputs and
  /// the PWM level of the enable pin.
  datatype Bridge = Bridge(in1: bool, in2: bool, level: int)

  /// Hard stop: both direction inputs low, PWM level 0.
  const Brake := Bridge(false, false, 0)

  /// The duty `motor_set_l298` computes for a speed of magnitude `m`:
  /// `m * PWM_MAX / 255`, stored in a `uint16_t`.
  function SourceDuty(m: nat): nat
  {
    (m * PwmMax / SpeedMax) % 0x1_0000
  }

  /// PWM_MAX is 257 * 255, so the division is exact and the quotient fits
  /// in 16 bits: the duty is `m * 257`.
  lemma SourceDutyExact(m: nat)
    requires m <= SpeedMax
    ensures SourceDuty(m) == m * 257 <= PwmMax
  {
    assert m * PwmMax == (m * 257) * 255;
  }

  /// `motor_set_l298(pwm, in1, in2, speed)` for a speed in the range its
  /// callers pass (-255..255): brake at 0, otherwise exactly one direction
  /// input high and a duty proportional to |speed|. The duty is written as
  /// `|speed| * 257`, which `MotorSetL298Duty` proves equal to the source's
  /// truncated `|speed| * PWM_MAX / 255`.
  function MotorSetL298(speed: int): (out: Bridge)
    requires -SpeedMax <= speed <= SpeedMax
    ensures out == Brake <==> speed == 0
    ensures out.in1 <==> speed > 0
    ensures out.in2 <==> speed < 0
    ensures out.level <= PwmMax
  {
    if speed == 0 then Brake
    else
      var forward := speed > 0;
      Bridge(forward, !forward, Abs(speed) * 257)
  }

  /// The duty written is the one the source computes.
  lemma MotorSetL298Duty(speed: int)
    requires -SpeedMax <= speed <= SpeedMax
    ensures MotorSetL298(speed).level == SourceDuty(Abs(speed))
  {
    SourceDutyExact(Abs(speed));
  }

  /// The signed speed a bridge's outputs stand for: direction from the two
  /// inputs, magnitude from the duty.
  function BridgeSpeed(out: Bridge): int
  {
    if out.in1 && !out.in2 then out.level / 257
    else if out.in2 && !out.in1 then -(out.level / 257)
    else 0
  }

  /// Nothing of the speed is lost: the outputs determine it.
  lemma BridgeSpeedInverts(speed: int)
    requires -SpeedMax <= speed <= SpeedMax
    ensures BridgeSpeed(MotorSetL298(speed)) == speed
  {
  }

  /// What one call of `hbot_drive` computes: the two clamped motor commands
  /// and what each bridge is then set to.
  datatype Drive = Drive(commandA: int, commandB: int, outA: Bridge, outB: Bridge)

  /// `hbot_drive(x_cmd, y_cmd)`: motor A takes x + y, motor B takes x - y,
  /// each clamped to -255..255; the bridges brake unless the motors are
  /// unlocked and the display-only test switch is off.
  function HbotDrive(x: int, y: int, unlocked: bool, displayOnly: bool): (d: Drive)
    ensures d.commandA == Clamp(x + y, -SpeedMax, SpeedMax)
    ensures d.commandB == Clamp(x - y, -SpeedMax, SpeedMax)
    ensures (d.commandA > 0 <==> x + y > 0) && (d.commandA < 0 <==> x + y < 0)
    ensures (d.commandB > 0 <==> x - y > 0) && (d.commandB < 0 <==> x - y < 0)
    ensures !unlocked || displayOnly ==> d.outA == Brake && d.outB == Brake
    ensures unlocked && !displayOnly ==>
              d.outA == MotorSetL298(d.commandA) && d.outB == MotorSetL298(d.commandB)
  {
    var a := Clamp(x + y, -SpeedMax, SpeedMax);
    var b := Clamp(x - y, -SpeedMax, SpeedMax);
    if displayOnly || !unlocked then Drive(a, b, Brake, Brake)
    else Drive(a, b, MotorSetL298(a), MotorSetL298(b))
  }

  /// Inside the diamond |x| + |y| <= 255 no clamp binds and the H-bot
  /// mapping is invertible: the sum of the motor commands is twice the x
  /// command and their difference twice the y command.
  lemma HbotInvertible(x: int, y: int, unlocked: bool, displayOnly: bool)
    requires Abs(x) + Abs(y) <= SpeedMax
    ensures var d := HbotDrive(x, y, unlocked, displayOnly);
            d.commandA + d.commandB == 2 * x && d.commandA - d.commandB == 2 * y
  {
  }
}
