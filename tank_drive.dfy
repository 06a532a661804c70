/** The actuator mappings of BlynkTank/CTank.cpp: `moveTank`,
    `moveTurretDegree` and `moveTurret_us` only compute, on local
    variables, the values they then write to the motor pins and to the
    turret servo. Each is a function returning the written values. */
module TankDrive {
  import opened CStrings

  /** PWM_DEADBAND: joystick values up to this magnitude stop the motor axis. */
  const PwmDeadband: nat := 300
  /** The largest PWM duty cycle (100 %). */
  const PwmMax: nat := 1023
  /** SERVO_RANGE, and the microsecond bounds `1000 - SERVO_RANGE` and
      `2000 + SERVO_RANGE` of `moveTurret_us`. */
  const ServoRange: nat := 500
  const ServoLowest: int := 1000 - ServoRange
  const ServoHighest: int := 2000 + ServoRange

  /** A digital output level. */
  datatype Level = Low | High

  /** What `moveTank` writes: the PWM duty cycle of each motor and the level
      of each direction pin. */
  datatype MotorCommand = MotorCommand(leftPwm: nat, rightPwm: nat, leftDir: Level, rightDir: Level)

  function Abs(x: int): nat
  {
    if x < 0 then -x else x
  }

  /** The deadband filter applied to each joystick axis. */
  function Deadband(v: int): int
  {
    if Abs(v) <= PwmDeadband then 0 else v
  }

  /** The signed speed a command gives the left motor: its direction pin is
      LOW when the motor turns forward. */
  function LeftSpeed(m: MotorCommand): int
  {
    if m.leftDir == Low then m.leftPwm else 0 - m.leftPwm
  }

  /** The signed speed a command gives the right motor, which is mounted
      the other way round: its direction pin is HIGH when it turns forward. */
  function RightSpeed(m: MotorCommand): int
  {
    if m.rightDir == High then m.rightPwm else 0 - m.rightPwm
  }

  /** A value limited to the PWM range in either direction. */
  function Saturate(v: int): (r: int)
    ensures -(PwmMax as int) <= r <= PwmMax
  {
    if v > PwmMax then PwmMax else if v < -(PwmMax as int) then -(PwmMax as int) else v
  }

  /** `moveTank(joystickX, joystickY)`: both axes pass the deadband, the
      differential mix gives `-x + y` to the left motor and `x + y` to the
      right one, each becomes a magnitude and a direction level, and the
      magnitude is capped at 1023. The duty cycles written are always in
      range, a stick inside the deadband on both axes stops both motors,
      and the signed speed each motor gets is its mix value saturated to
      the PWM range. */
  function MoveTank(joystickX: int, joystickY: int): (m: MotorCommand)
    ensures m.leftPwm <= PwmMax && m.rightPwm <= PwmMax
    ensures Abs(joystickX) <= PwmDeadband && Abs(joystickY) <= PwmDeadband ==>
              m.leftPwm == 0 && m.rightPwm == 0
    ensures m.leftDir == High <==> -Deadband(joystickX) + Deadband(joystickY) < 0
    ensures m.rightDir == Low <==> Deadband(joystickX) + Deadband(joystickY) < 0
    ensures LeftSpeed(m) == Saturate(-Deadband(joystickX) + Deadband(joystickY))
    ensures RightSpeed(m) == Saturate(Deadband(joystickX) + Deadband(joystickY))
  {
    var x := Deadband(joystickX);
    var y := Deadband(joystickY);
    var lMix := -x + y;
    var rMix := x + y;
    var lPwm: nat := if lMix < 0 then -lMix else lMix;
    var lDir := if lMix < 0 then High else Low;
    var rPwm: nat := if rMix < 0 then -rMix else rMix;
    var rDir := if rMix < 0 then Low else High;
    MotorCommand(if lPwm > PwmMax then PwmMax else lPwm,
                 if rPwm > PwmMax then PwmMax else rPwm,
                 lDir, rDir)
  }

  /** Mirroring the stick left to right swaps the speeds of the two motors. */
  lemma MoveTankMirror(joystickX: int, joystickY: int)
    ensures LeftSpeed(MoveTank(-joystickX, joystickY)) == RightSpeed(MoveTank(joystickX, joystickY))
    ensures RightSpeed(MoveTank(-joystickX, joystickY)) == LeftSpeed(MoveTank(joystickX, joystickY))
  {
    assert Deadband(-joystickX) == -Deadband(joystickX);
  }

  /** A stick with X inside the deadband drives straight: both motors get
      the same speed. A stick with Y inside the deadband turns on the spot:
      the motors get opposite speeds. */
  lemma MoveTankStraightAndSpin(joystickX: int, joystickY: int)
    ensures Abs(joystickX) <= PwmDeadband ==>
              LeftSpeed(MoveTank(joystickX, joystickY)) == RightSpeed(MoveTank(joystickX, joystickY))
    ensures Abs(joystickY) <= PwmDeadband ==>
              LeftSpeed(MoveTank(joystickX, joystickY)) == -RightSpeed(MoveTank(joystickX, joystickY))
  {
  }

  /** `moveTurretDegree(angle)`: the angle is clamped to [0, 180] and
      reversed, because the servo is mounted upside down. */
  function MoveTurretDegree(angle: int): (w: int)
    ensures 0 <= w <= 180
    ensures 0 <= angle <= 180 ==> w == 180 - angle
    ensures angle <= 0 ==> w == 180
    ensures angle >= 180 ==> w == 0
  {
    var a := if angle < 0 then 0 else angle;
    var b := if a > 180 then 180 else a;
    180 - b
  }

  /** A larger angle never turns the servo further the other way, and
      angles mirrored about 90 give servo positions mirrored about 90. */
  lemma MoveTurretDegreeMirror(a: int, b: int, d: int)
    ensures a <= b ==> MoveTurretDegree(a) >= MoveTurretDegree(b)
    ensures MoveTurretDegree(90 + d) + MoveTurretDegree(90 - d) == 180
  {
  }

  /** `moveTurret_us(us, absolute)` with the configured m_servoMin_us and
      m_servoMax_us: a relative position is first mirrored within
      [servoMin, servoMax], and the pulse width written is that position
      clamped to [1000 - SERVO_RANGE, 2000 + SERVO_RANGE]. */
  function MoveTurretUs(us: int, absolute: bool, servoMin: U16, servoMax: U16): (w: int)
    ensures ServoLowest <= w <= ServoHighest
    ensures var target := if absolute then us else servoMin + servoMax - us;
            && (ServoLowest <= target <= ServoHighest ==> w == target)
            && (target < ServoLowest ==> w == ServoLowest)
            && (target > ServoHighest ==> w == ServoHighest)
  {
    var v := if absolute then us else servoMax - (us - servoMin);
    var low := if v < ServoLowest then ServoLowest else v;
    if low > ServoHighest then ServoHighest else low
  }

  /** With servo limits inside the writable range, a relative position
      within the limits is written mirrored within the limits: the lower
      limit goes to the upper one and back, and the order is reversed. */
  lemma MoveTurretUsRelative(us: int, vs: int, servoMin: U16, servoMax: U16)
    requires ServoLowest <= servoMin <= servoMax <= ServoHighest
    requires servoMin <= us <= servoMax && servoMin <= vs <= servoMax
    ensures servoMin <= MoveTurretUs(us, false, servoMin, servoMax) <= servoMax
    ensures MoveTurretUs(servoMin, false, servoMin, servoMax) == servoMax
    ensures MoveTurretUs(servoMax, false, servoMin, servoMax) == servoMin
    ensures us <= vs ==> MoveTurretUs(us, false, servoMin, servoMax) >= MoveTurretUs(vs, false, servoMin, servoMax)
    ensures MoveTurretUs(MoveTurretUs(us, false, servoMin, servoMax), false, servoMin, servoMax) == us
  {
  }
}
