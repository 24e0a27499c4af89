/** The self-contained pieces of the e-puck Player driver: the camera's
    packed YUV 4:2:2 (UYVY) to RGB conversion, the translation of a velocity
    command into wheel commands, the stored LED states, the per-interface
    subscription counters and the fields of the command buffer sent to the
    robot's microcontroller. */
module LPuckDriver {
  import opened CArith

  type byte = b: int | 0 <= b < 256

  /** clip: an int squeezed into an unsigned byte. */
  function Clip(value: int): byte
  {
    if value < 0 then 0
    else if value > 255 then 255
    else value as byte
  }

  /** A value already in [0, 255] is kept, anything below becomes 0 and
      anything above 255. */
  lemma ClipSaturates(value: int)
    ensures 0 <= value <= 255 ==> Clip(value) as int == value
    ensures value < 0 ==> Clip(value) == 0
    ensures value > 255 ==> Clip(value) == 255
  {
  }

  /** Clipping keeps the order of its inputs. */
  lemma ClipMonotone(a: int, b: int)
    requires a <= b
    ensures Clip(a) <= Clip(b)
  {
  }

  /* The integer approximation of the studio-range YCbCr to RGB equations of
     ITU-R BT.601. Arguments are offset already: y = Y - 16, u = Cb - 128,
     v = Cr - 128. A right shift by 8 of an int is floor division by 256. */

  /** A fixed-point sum scaled back by 8 bits and clipped to a byte. */
  function Channel(scaled: int): byte
  {
    Clip(scaled / 256)
  }

  function Red(y: int, v: int): byte
  {
    Channel(298 * y + 409 * v + 128)
  }

  function Green(y: int, u: int, v: int): byte
  {
    Channel(298 * y - 100 * u - 208 * v + 128)
  }

  function Blue(y: int, u: int): byte
  {
    Channel(298 * y + 516 * u + 128)
  }

  /** One pixel, red green blue, from its luma and the chroma it shares. */
  function PixelToRgb(y: int, u: int, v: int): seq<byte>
  {
    [Red(y, v), Green(y, u, v), Blue(y, u)]
  }

  /** One four-byte group Cb Y Cr Y: two pixels sharing their chroma. */
  function PairToRgb(u: byte, y1: byte, v: byte, y2: byte): (rgb: seq<byte>)
    ensures |rgb| == 6
  {
    PixelToRgb(y1 as int - 16, u as int - 128, v as int - 128)
      + PixelToRgb(y2 as int - 16, u as int - 128, v as int - 128)
  }

  /** The group of four input bytes starting at offset `s`, converted. */
  function GroupAt(src: seq<byte>, s: nat): (rgb: seq<byte>)
    requires s + 4 <= |src|
    ensures |rgb| == 6
  {
    PairToRgb(src[s], src[s + 1], src[s + 2], src[s + 3])
  }

  /** The first `groups` four-byte groups of `src` converted, group by
      group: every four input bytes become six output bytes. */
  function Yuv422ToRgb(src: seq<byte>, groups: nat): (rgb: seq<byte>)
    requires 4 * groups <= |src|
    ensures |rgb| == 6 * groups
  {
    if groups == 0 then [] else Yuv422ToRgb(src, groups - 1) + GroupAt(src, 4 * (groups - 1))
  }

  /** One more group appends its six bytes. */
  lemma Yuv422ToRgbStep(src: seq<byte>, groups: nat)
    requires 4 * (groups + 1) <= |src|
    ensures Yuv422ToRgb(src, groups + 1) == Yuv422ToRgb(src, groups) + GroupAt(src, 4 * groups)
  {
  }

  /** Output byte 6p + c comes from input group p and from nothing else. */
  lemma {:induction false} Yuv422ToRgbAt(src: seq<byte>, groups: nat, p: nat, c: nat)
    requires 4 * groups <= |src| && p < groups && c < 6
    ensures Yuv422ToRgb(src, groups)[6 * p + c] == GroupAt(src, 4 * p)[c]
  {
    if p < groups - 1 {
      Yuv422ToRgbAt(src, groups - 1, p, c);
    }
  }

  /** Converting more groups only extends the output: the conversion of a
      longer run starts with the conversion of a shorter one. */
  lemma {:induction false} Yuv422ToRgbPrefix(src: seq<byte>, shorter: nat, longer: nat)
    requires shorter <= longer && 4 * longer <= |src|
    ensures Yuv422ToRgb(src, longer)[..6 * shorter] == Yuv422ToRgb(src, shorter)
    decreases longer
  {
    if shorter < longer {
      Yuv422ToRgbPrefix(src, shorter, longer - 1);
      var front := Yuv422ToRgb(src, longer - 1);
      assert Yuv422ToRgb(src, longer)[..6 * (longer - 1)] == front;
    }
  }

  /** The two pixels of a group share its chroma and nothing else: each
      pixel's colour depends on its own luma only, and equal lumas give
      equal pixels. */
  lemma PairSharesChroma(u: byte, v: byte, y1: byte, y2: byte, y3: byte)
    ensures PairToRgb(u, y1, v, y2)[..3] == PairToRgb(u, y1, v, y3)[..3]
    ensures PairToRgb(u, y1, v, y2)[3..] == PairToRgb(u, y3, v, y2)[3..]
    ensures PairToRgb(u, y1, v, y1)[..3] == PairToRgb(u, y1, v, y1)[3..]
  {
    var first := PixelToRgb(y1 as int - 16, u as int - 128, v as int - 128);
    assert PairToRgb(u, y1, v, y2)[..3] == first;
    assert PairToRgb(u, y1, v, y3)[..3] == first;
    var second := PixelToRgb(y2 as int - 16, u as int - 128, v as int - 128);
    assert PairToRgb(u, y1, v, y2)[3..] == second;
    assert PairToRgb(u, y3, v, y2)[3..] == second;
    assert PairToRgb(u, y1, v, y1)[3..] == first;
  }

  /** A grey input (no chroma) gives equal red, green and blue. */
  lemma NeutralChromaIsGrey(y: byte)
    ensures var rgb := PixelToRgb(y as int - 16, 0, 0); rgb[0] == rgb[1] == rgb[2]
  {
  }

  /** The ends of the studio range: Y = 16 is black and Y = 235 is white. */
  lemma StudioRangeEnds()
    ensures PairToRgb(128, 16, 128, 235) == [0, 0, 0, 255, 255, 255]
  {
  }

  /** The number of four-byte groups the conversion loop handles: it steps
      two pixels at a time, so an odd pixel count is rounded up. */
  function Groups(nrPixels: nat): (g: nat)
    ensures 2 * g == nrPixels || 2 * g == nrPixels + 1
  {
    (nrPixels + 1) / 2
  }

  /** yuv422_to_rgb: converts Groups(nrPixels) groups, reading 4 bytes of
      `src` and writing 6 bytes at the front of `dst` per group, which for an
      even pixel count is 2 bytes read and 3 written per pixel; the rest of
      `dst` is untouched. */
  method Yuv422ToRgbInto(src: seq<byte>, dst: array<byte>, nrPixels: nat)
    requires |src| >= 4 * Groups(nrPixels) && dst.Length >= 6 * Groups(nrPixels)
    modifies dst
    ensures dst[..6 * Groups(nrPixels)] == Yuv422ToRgb(src, Groups(nrPixels))
    ensures dst[6 * Groups(nrPixels)..] == old(dst[6 * Groups(nrPixels)..])
  {
    ghost var p := 0;
    var i := 0;
    while i < nrPixels
      invariant i == 2 * p && p <= Groups(nrPixels)
      invariant dst[..6 * p] == Yuv422ToRgb(src, p)
      invariant dst[6 * p..] == old(dst[6 * p..])
    {
      var s, d := 2 * i, 3 * i;
      assert p < Groups(nrPixels) && s == 4 * p && d == 6 * p;
      Yuv422ToRgbStep(src, p);
      ConvertGroup(src, s, dst, d);
      i := i + 2;
      p := p + 1;
    }
    assert p == Groups(nrPixels);
  }

  /** The body of the conversion loop: the four bytes Cb Y Cr Y at `s`
      become the six bytes R G B R G B at `d`. */
  method ConvertGroup(src: seq<byte>, s: nat, dst: array<byte>, d: nat)
    requires s + 4 <= |src| && d + 6 <= dst.Length
    modifies dst
    ensures dst[..d + 6] == old(dst[..d]) + GroupAt(src, s)
    ensures dst[d + 6..] == old(dst[d + 6..])
  {
    var rgb := PairToRgb(src[s], src[s + 1], src[s + 2], src[s + 3]);
    dst[d] := rgb[0];
    dst[d + 1] := rgb[1];
    dst[d + 2] := rgb[2];
    dst[d + 3] := rgb[3];
    dst[d + 4] := rgb[4];
    dst[d + 5] := rgb[5];
    assert dst[d..d + 6] == rgb;
    assert dst[..d + 6] == dst[..d] + dst[d..d + 6];
  }

  /** The wheel separation used by the velocity conversion, in metres. */
  const WHEEL_SEP: real := 0.052

  /** The largest wheel command the microcontroller is sent. */
  const MAX_MOTOR_COMMAND: int := 800

  function ClampCommand(speed: int): (c: int)
    ensures -MAX_MOTOR_COMMAND <= c <= MAX_MOTOR_COMMAND
    ensures -MAX_MOTOR_COMMAND <= speed <= MAX_MOTOR_COMMAND ==> c == speed
    ensures speed > MAX_MOTOR_COMMAND ==> c == MAX_MOTOR_COMMAND
    ensures speed < -MAX_MOTOR_COMMAND ==> c == -MAX_MOTOR_COMMAND
  {
    var capped := if speed > MAX_MOTOR_COMMAND then MAX_MOTOR_COMMAND else speed;
    if capped < -MAX_MOTOR_COMMAND then -MAX_MOTOR_COMMAND else capped
  }

  /** The translational part of a velocity command in motor units: the
      forward speed in metres per second over 0.125 mm per step, truncated. */
  function TransVel(px: real): int
  {
    Trunc(px * 1000.0 / 0.125)
  }

  /** The rotational part: half the wheel separation times the turn rate,
      in the same units, truncated. */
  function RotVel(pa: real): int
  {
    Trunc(pa * WHEEL_SEP / 2.0 * (1000.0 / 0.125))
  }

  /** The (left, right) wheel commands for a velocity command: translation
      minus and plus rotation, each clamped to +/- 800. */
  function WheelCommands(px: real, pa: real): (wheels: (int, int))
    ensures -MAX_MOTOR_COMMAND <= wheels.0 <= MAX_MOTOR_COMMAND
    ensures -MAX_MOTOR_COMMAND <= wheels.1 <= MAX_MOTOR_COMMAND
  {
    var transvel := TransVel(px);
    var rotvel := RotVel(pa);
    (ClampCommand(transvel - rotvel), ClampCommand(transvel + rotvel))
  }

  /** Turning the other way at the same rate swaps the two wheels. */
  lemma WheelCommandsMirror(px: real, pa: real)
    ensures WheelCommands(px, -pa) == (WheelCommands(px, pa).1, WheelCommands(px, pa).0)
  {
    assert -pa * WHEEL_SEP / 2.0 * (1000.0 / 0.125) == -(pa * WHEEL_SEP / 2.0 * (1000.0 / 0.125));
    TruncNegate(pa * WHEEL_SEP / 2.0 * (1000.0 / 0.125));
  }

  /** Without clamping, the two wheels average to the translation and differ
      by twice the rotation; with no turn rate they are equal. */
  lemma WheelCommandsUnclamped(px: real, pa: real)
    requires -MAX_MOTOR_COMMAND <= TransVel(px) - RotVel(pa) <= MAX_MOTOR_COMMAND
    requires -MAX_MOTOR_COMMAND <= TransVel(px) + RotVel(pa) <= MAX_MOTOR_COMMAND
    ensures WheelCommands(px, pa).0 + WheelCommands(px, pa).1 == 2 * TransVel(px)
    ensures WheelCommands(px, pa).1 - WheelCommands(px, pa).0 == 2 * RotVel(pa)
    ensures pa == 0.0 ==> WheelCommands(px, pa).0 == WheelCommands(px, pa).1
  {
  }

  /** Ten LED slots: the eight ring LEDs, the body LED and the front LED. */
  const LED_COUNT: int := 10
  const RING_LEDS: int := 8
  const RING_SLOTS: set<int> := {0, 1, 2, 3, 4, 5, 6, 7}

  /** The slots of `led_status` that an LED power command writes, as the
      guard of the source selects them: all ring LEDs for an id above 10,
      otherwise slot `id` itself, which for id 10 is past the array. */
  function LedSlotsAsWritten(id: nat): set<int>
  {
    if id > 10 then RING_SLOTS else {id}
  }

  /** The command for LED id 10 writes one slot past the ten-slot array. */
  lemma LedTenOverruns()
    ensures LedSlotsAsWritten(10) == {10}
    ensures forall k :: k in LedSlotsAsWritten(10) ==> k >= LED_COUNT
  {
  }

  /** The slots an LED power command writes with the guard corrected to
      cover every id past the last slot. */
  function LedSlots(id: nat): (slots: set<int>)
    ensures forall k :: k in slots ==> 0 <= k < LED_COUNT
    ensures id < LED_COUNT ==> slots == {id}
    ensures id >= LED_COUNT ==> slots == RING_SLOTS
  {
    if id >= LED_COUNT then RING_SLOTS else {id}
  }

  /** Only the id 10 is treated differently by the corrected guard. */
  lemma LedSlotsAgreeExceptTen(id: nat)
    requires id != 10
    ensures LedSlots(id) == LedSlotsAsWritten(id)
  {
  }

  /** The player interfaces the driver keeps a subscription count for;
      `Unhandled` stands for every other interface code. */
  datatype Interface = Position2D | IR | Power | Blinkenlight | AIO | Unhandled
  {
    predicate Counted() { !Unhandled? }
  }

  /** The command flags of the transmit buffer, one-bit fields. */
  datatype CommandBits = CommandBits(setMotor: bool, setLed: bool, reset: bool, calIr: bool,
                                     calAcc: bool, readIr: bool, readLight: bool, readMic: bool,
                                     readAcc: bool)

  /** The transmit buffer: command flags, the two motor speeds, the ten LED
      bits (led0 .. led7, body, front) and the LED cycle. */
  datatype TxBuf = TxBuf(cmd: CommandBits, leftMotor: int, rightMotor: int, leds: seq<bool>, ledCycle: int)

  /** What a one-bit field keeps of an int stored into it: its lowest bit. */
  function LowBit(value: int): (bit: bool)
  {
    value % 2 == 1
  }

  predicate IsInt16(v: int)
  {
    -0x8000 <= v < 0x8000
  }

  class LPuck {
    var positionSubscriptions: int
    var irSubscriptions: int
    var powerSubscriptions: int
    var aioSubscriptions: int
    var blinkenlightSubscriptions: int
    /** `int led_status[10]`: the state last requested for each LED. */
    const ledStatus: array<int>
    /** The buffer sent to the microcontroller on every cycle. */
    var msgTX: TxBuf

    /** The LED array has its ten slots and no count drops below zero. */
    ghost predicate Valid()
      reads this
    {
      ledStatus.Length == LED_COUNT
      && positionSubscriptions >= 0 && irSubscriptions >= 0 && powerSubscriptions >= 0
      && aioSubscriptions >= 0 && blinkenlightSubscriptions >= 0
    }

    /** The subscription count kept for an interface. */
    function Subscriptions(i: Interface): int
      requires i.Counted()
      reads this
    {
      match i
      case Position2D => positionSubscriptions
      case IR => irSubscriptions
      case Power => powerSubscriptions
      case Blinkenlight => blinkenlightSubscriptions
      case AIO => aioSubscriptions
    }

    /** The driver starts with no subscriber on any interface; the LED
        states and the transmit buffer are not initialised. */
    constructor ()
      ensures Valid() && fresh(ledStatus)
      ensures forall i: Interface | i.Counted() :: Subscriptions(i) == 0
    {
      positionSubscriptions := 0;
      powerSubscriptions := 0;
      irSubscriptions := 0;
      aioSubscriptions := 0;
      blinkenlightSubscriptions := 0;
      ledStatus := new int[LED_COUNT];
    }

    /** Subscribe: when the base driver accepts the subscription (0), exactly
        the counter of that interface goes up by one; the base driver's
        answer is returned either way. */
    method Subscribe(addr: Interface, setupResult: int) returns (result: int)
      requires Valid()
      modifies this
      ensures Valid()
      ensures result == setupResult
      ensures forall i: Interface | i.Counted() ::
                Subscriptions(i) == old(Subscriptions(i)) + (if setupResult == 0 && i == addr then 1 else 0)
      ensures msgTX == old(msgTX)
    {
      if setupResult == 0 {
        match addr
        case Position2D => positionSubscriptions := positionSubscriptions + 1;
        case IR => irSubscriptions := irSubscriptions + 1;
        case Power => powerSubscriptions := powerSubscriptions + 1;
        case Blinkenlight => blinkenlightSubscriptions := blinkenlightSubscriptions + 1;
        case AIO => aioSubscriptions := aioSubscriptions + 1;
        case Unhandled =>
      }
      return setupResult;
    }

    /** Unsubscribe: when the base driver accepts (0), exactly the counter of
        that interface goes down by one; the assertion around the decrement
        demands the counter was positive. */
    method Unsubscribe(addr: Interface, shutdownResult: int) returns (result: int)
      requires Valid()
      requires shutdownResult == 0 && addr.Counted() ==> Subscriptions(addr) >= 1
      modifies this
      ensures Valid()
      ensures result == shutdownResult
      ensures forall i: Interface | i.Counted() ::
                Subscriptions(i) == old(Subscriptions(i)) - (if shutdownResult == 0 && i == addr then 1 else 0)
      ensures msgTX == old(msgTX)
    {
      if shutdownResult == 0 {
        match addr
        case Position2D => positionSubscriptions := positionSubscriptions - 1;
        case IR => irSubscriptions := irSubscriptions - 1;
        case Power => powerSubscriptions := powerSubscriptions - 1;
        case Blinkenlight => blinkenlightSubscriptions := blinkenlightSubscriptions - 1;
        case AIO => aioSubscriptions := aioSubscriptions - 1;
        case Unhandled =>
      }
      return shutdownResult;
    }

    /** setSpeedCMD: raises the set-motor flag and stores both speeds;
        nothing else in the buffer changes. */
    method SetSpeedCMD(leftSpeed: int, rightSpeed: int)
      requires IsInt16(leftSpeed) && IsInt16(rightSpeed)
      modifies this
      ensures msgTX == old(msgTX).(cmd := old(msgTX).cmd.(setMotor := true),
                                   leftMotor := leftSpeed, rightMotor := rightSpeed)
      ensures forall i: Interface | i.Counted() :: Subscriptions(i) == old(Subscriptions(i))
    {
      msgTX := msgTX.(cmd := msgTX.cmd.(setMotor := true));
      msgTX := msgTX.(leftMotor := leftSpeed);
      msgTX := msgTX.(rightMotor := rightSpeed);
    }

    /** A velocity command: the clamped wheel commands go to the motors. */
    method ProcessVelocityCommand(px: real, pa: real) returns (result: int)
      modifies this
      ensures result == 0
      ensures msgTX.cmd.setMotor && msgTX.cmd == old(msgTX).cmd.(setMotor := true)
      ensures (msgTX.leftMotor, msgTX.rightMotor) == WheelCommands(px, pa)
      ensures msgTX.leds == old(msgTX).leds && msgTX.ledCycle == old(msgTX).ledCycle
      ensures forall i: Interface | i.Counted() :: Subscriptions(i) == old(Subscriptions(i))
    {
      var (leftvel, rightvel) := WheelCommands(px, pa);
      SetSpeedCMD(leftvel, rightvel);
      return 0;
    }

    /** An LED power command: the slots LedSlots names take the requested
        state, every other slot keeps its state. */
    method ProcessLedPower(id: nat, enable: byte)
      requires Valid()
      modifies ledStatus
      ensures forall k :: 0 <= k < LED_COUNT ==>
                ledStatus[k] == if k in LedSlots(id) then enable as int else old(ledStatus[k])
    {
      var newstate := enable as int;
      if id >= LED_COUNT {
        var count := 0;
        while count < RING_LEDS
          invariant 0 <= count <= RING_LEDS
          invariant forall k :: 0 <= k < LED_COUNT ==>
                      ledStatus[k] == if k < count then newstate else old(ledStatus[k])
        {
          ledStatus[count] := newstate;
          count := count + 1;
        }
      } else {
        ledStatus[id] := newstate;
      }
    }

    /** refreshLEDData: LED bit k of the buffer takes the low bit of slot k,
        in order; nothing else in the buffer changes. */
    method RefreshLEDData()
      requires Valid()
      modifies this
      ensures |msgTX.leds| == LED_COUNT
      ensures forall k :: 0 <= k < LED_COUNT ==> msgTX.leds[k] == LowBit(ledStatus[k])
      ensures msgTX == old(msgTX).(leds := msgTX.leds)
      ensures forall i: Interface | i.Counted() :: Subscriptions(i) == old(Subscriptions(i))
    {
      var bits := seq(LED_COUNT, k requires 0 <= k < LED_COUNT reads ledStatus => LowBit(ledStatus[k]));
      msgTX := msgTX.(leds := bits);
    }

    /** One pass of the main loop's subscription check: the motors are told
        to stop exactly when the position subscription count has moved
        between zero and non-zero since the last pass; the count is
        remembered for the next pass. */
    method PositionSubscriptionEdge(last: int) returns (current: int)
      modifies this
      ensures current == positionSubscriptions == old(positionSubscriptions)
      ensures (last == 0) != (positionSubscriptions == 0) ==>
                msgTX == old(msgTX).(cmd := old(msgTX).cmd.(setMotor := true), leftMotor := 0, rightMotor := 0)
      ensures (last == 0) == (positionSubscriptions == 0) ==> msgTX == old(msgTX)
      ensures forall i: Interface | i.Counted() :: Subscriptions(i) == old(Subscriptions(i))
    {
      if last == 0 && positionSubscriptions != 0 {
        SetSpeedCMD(0, 0);
      } else if last != 0 && positionSubscriptions == 0 {
        SetSpeedCMD(0, 0);
      }
      assert Subscriptions(Position2D) == old(Subscriptions(Position2D));
      current := positionSubscriptions;
    }
  }
}
