/** The wheel-speed arithmetic of the robot front ends. The simulated, the
    real and the generic e-puck classes carry identical copies of `setMotors`
    and `setDifferentialMotors`; they are defined once here. Doubles are
    modelled as reals, and the command that the position proxy would receive
    is returned as a value. */
module Drive {

  /** Each wheel is limited to +/- 0.041 metres per second. */
  const MAX_WHEEL_SPEED: real := 0.041

  /** The distance between the wheels, `52*0.001` metres. */
  const WHEEL_SEPARATION: real := 0.052

  /** What the robot is told to do: forward speed (m/s) and turn rate
      (rad/s, positive anticlockwise). */
  datatype SpeedCommand = SpeedCommand(forward: real, turnrate: real)

  /** A wheel speed limited to the robot's maximum, first from above and then
      from below, as the two `if` statements of the source do. */
  function ClampWheel(speed: real): (c: real)
    ensures -MAX_WHEEL_SPEED <= c <= MAX_WHEEL_SPEED
    ensures -MAX_WHEEL_SPEED <= speed <= MAX_WHEEL_SPEED ==> c == speed
    ensures speed > MAX_WHEEL_SPEED ==> c == MAX_WHEEL_SPEED
    ensures speed < -MAX_WHEEL_SPEED ==> c == -MAX_WHEEL_SPEED
  {
    var capped := if speed > MAX_WHEEL_SPEED then MAX_WHEEL_SPEED else speed;
    if capped < -MAX_WHEEL_SPEED then -MAX_WHEEL_SPEED else capped
  }

  /** Clamping never reorders two speeds. */
  lemma ClampWheelMonotone(a: real, b: real)
    requires a <= b
    ensures ClampWheel(a) <= ClampWheel(b)
  {
  }

  /** setMotors: the forward speed is clamped into the wheel limit; the turn
      rate is passed through untouched. */
  function SetMotors(forward: real, turnrate: real): (cmd: SpeedCommand)
    ensures -MAX_WHEEL_SPEED <= cmd.forward <= MAX_WHEEL_SPEED
    ensures -MAX_WHEEL_SPEED <= forward <= MAX_WHEEL_SPEED ==> cmd.forward == forward
    ensures forward > MAX_WHEEL_SPEED ==> cmd.forward == MAX_WHEEL_SPEED
    ensures forward < -MAX_WHEEL_SPEED ==> cmd.forward == -MAX_WHEEL_SPEED
    ensures cmd.turnrate == turnrate
  {
    SpeedCommand(ClampWheel(forward), turnrate)
  }

  /** Sending a command that setMotors produced through setMotors again
      changes nothing. */
  lemma SetMotorsIdempotent(forward: real, turnrate: real)
    ensures var cmd := SetMotors(forward, turnrate);
            SetMotors(cmd.forward, cmd.turnrate) == cmd
  {
  }

  function Min(a: real, b: real): real
  {
    if a <= b then a else b
  }

  /** setDifferentialMotors: both wheels are clamped; the slower (inner) wheel
      gives the forward speed and the difference of the wheels, over the
      wheel separation, the turn rate; the result goes through setMotors.
      Whichever of the three branches of the source is taken, the command is
      forward = min(left, right) and turnrate * separation = right - left. */
  function SetDifferentialMotors(left: real, right: real): (cmd: SpeedCommand)
    ensures cmd.forward == Min(ClampWheel(left), ClampWheel(right))
    ensures cmd.turnrate * WHEEL_SEPARATION == ClampWheel(right) - ClampWheel(left)
    ensures cmd.turnrate == 0.0 <==> ClampWheel(left) == ClampWheel(right)
    ensures cmd.turnrate > 0.0 <==> ClampWheel(right) > ClampWheel(left)
  {
    var l := ClampWheel(left);
    var r := ClampWheel(right);
    if l > r then
      var newspeed := r;
      var newturnrate := (l - newspeed) / WHEEL_SEPARATION;
      SetMotors(newspeed, newturnrate * -1.0)
    else if r > l then
      var newspeed := l;
      SetMotors(newspeed, (r - newspeed) / WHEEL_SEPARATION)
    else
      SetMotors(l, 0.0)
  }

  /** The wheel speeds that a command asks for: the inner wheel runs at the
      forward speed and the outer one faster by turn rate times separation. */
  function WheelSpeeds(cmd: SpeedCommand): (wheels: (real, real))
  {
    if cmd.turnrate < 0.0 then (cmd.forward - cmd.turnrate * WHEEL_SEPARATION, cmd.forward)
    else (cmd.forward, cmd.forward + cmd.turnrate * WHEEL_SEPARATION)
  }

  /** Within the wheel limit the conversion loses nothing: the wheel speeds
      are recovered from the command. */
  lemma DifferentialRoundTrip(left: real, right: real)
    requires -MAX_WHEEL_SPEED <= left <= MAX_WHEEL_SPEED
    requires -MAX_WHEEL_SPEED <= right <= MAX_WHEEL_SPEED
    ensures WheelSpeeds(SetDifferentialMotors(left, right)) == (left, right)
  {
  }

  /** Conversely, every command whose wheel speeds lie within the limit is
      what setDifferentialMotors makes of those wheel speeds. */
  lemma DifferentialFromWheels(cmd: SpeedCommand)
    requires -MAX_WHEEL_SPEED <= WheelSpeeds(cmd).0 <= MAX_WHEEL_SPEED
    requires -MAX_WHEEL_SPEED <= WheelSpeeds(cmd).1 <= MAX_WHEEL_SPEED
    ensures SetDifferentialMotors(WheelSpeeds(cmd).0, WheelSpeeds(cmd).1) == cmd
  {
  }
}
