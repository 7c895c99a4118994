/** The actuator layer of the PiCar controller (tools.py): the key decoder
    `readkey`, the four timed motor pulses and their tool declarations.
    The motor library and the clock are outside the model; what the
    actuators do to them is recorded as a trace of effects on a `Robot`. */
module Tools {
  import opened Wrappers

  // ---------------------------------------------------------------------------
  // readkey: a decoder over an injected character source
  // ---------------------------------------------------------------------------

  /** ESC, 0x1b: the first byte of a 7-bit CSI introducer (ECMA-48, section 5.4). */
  const ESC: char := '\U{1b}'
  /** `[`, 0x5b: the second byte of the 7-bit CSI introducer. */
  const BRACKET: char := '['

  /** Why decoding a key raised: the source ran dry before the decision was
      made, or `chr` was given a negative code point. */
  datatype KeyError = EndOfInput | ChrOutOfRange(code: int)

  /** A decoded key, as a code point, and how many characters were pulled. */
  datatype KeyRead = KeyRead(code: int, consumed: nat)

  /** The key `readkey` returns for the final byte of `ESC [ X`: chr(0x10 + ord(X) - 65). */
  function CsiKey(final: char): int {
    0x10 + final as int - 65
  }

  /** `readkey` (tools.py:21-30), with the character source given as the
      sequence of characters it would yield. */
  function ReadKey(src: seq<char>): (r: Result<KeyRead, KeyError>)
    ensures r.Ok? ==> 1 <= r.value.consumed <= 3 && r.value.consumed <= |src|
    ensures r.Ok? ==> r.value.code >= 0
    ensures r.Err? ==> (r.error == EndOfInput <==> |src| < 3)
  {
    if |src| == 0 then Err(EndOfInput)
    else if src[0] != ESC then Ok(KeyRead(src[0] as int, 1))
    else if |src| == 1 then Err(EndOfInput)
    else if src[1] != BRACKET then Ok(KeyRead(ESC as int, 2))
    else if |src| == 2 then Err(EndOfInput)
    else if CsiKey(src[2]) < 0 then Err(ChrOutOfRange(CsiKey(src[2])))
    else Ok(KeyRead(CsiKey(src[2]), 3))
  }

  /** Any character but ESC is read alone and returned as it is. */
  lemma ReadKeyPlain(c: char, rest: seq<char>)
    requires c != ESC
    ensures ReadKey([c] + rest) == Ok(KeyRead(c as int, 1))
  {
  }

  /** ESC followed by anything but `[` costs two reads and yields ESC. */
  lemma ReadKeyLoneEscape(c: char, rest: seq<char>)
    requires c != BRACKET
    ensures ReadKey([ESC, c] + rest) == Ok(KeyRead(ESC as int, 2))
  {
  }

  /** `ESC [ X` costs three reads; it yields chr(0x10 + ord(X) - 65) when
      ord(X) >= 49 and raises otherwise. */
  lemma ReadKeyCsi(x: char, rest: seq<char>)
    ensures x as int >= 49 ==> ReadKey([ESC, BRACKET, x] + rest) == Ok(KeyRead(x as int - 49, 3))
    ensures x as int < 49 ==> ReadKey([ESC, BRACKET, x] + rest) == Err(ChrOutOfRange(x as int - 49))
  {
  }

  /** The cursor keys a terminal sends as `ESC [ A` .. `ESC [ D` come out as 0x10 .. 0x13. */
  lemma ReadKeyArrows(rest: seq<char>)
    ensures ReadKey([ESC, BRACKET, 'A'] + rest) == Ok(KeyRead(0x10, 3))
    ensures ReadKey([ESC, BRACKET, 'B'] + rest) == Ok(KeyRead(0x11, 3))
    ensures ReadKey([ESC, BRACKET, 'C'] + rest) == Ok(KeyRead(0x12, 3))
    ensures ReadKey([ESC, BRACKET, 'D'] + rest) == Ok(KeyRead(0x13, 3))
  {
  }

  /** The decoder pulls exactly `consumed` characters: whatever follows them
      does not change the result. */
  lemma ReadKeyReadsOnlyPrefix(src: seq<char>, rest: seq<char>)
    requires ReadKey(src).Ok?
    ensures ReadKey(src[..ReadKey(src).value.consumed] + rest) == ReadKey(src)
  {
    var n := ReadKey(src).value.consumed;
    var t := src[..n] + rest;
    assert t[..n] == src[..n];
  }

  // ---------------------------------------------------------------------------
  // Timed pulses
  // ---------------------------------------------------------------------------

  /** The power every actuator engages the motors at. */
  const POWER: int := 100

  /** The four motor directions, one per tool. */
  datatype Direction = Forward | Backward | TurnLeft | TurnRight {
    predicate IsDrive() { this == Forward || this == Backward }
  }

  /** What an actuator does to the world, in order. */
  datatype Effect = Engage(direction: Direction, power: int) | Sleep(seconds: real) | Stop

  /** Seconds to drive `cm` centimetres: 0.5 s per 22 cm. */
  function DriveDuration(cm: real): real {
    (cm / 22.0) * 0.5
  }

  /** Seconds to turn `degrees`: 0.1 s per 18 degrees. */
  function TurnDuration(degrees: real): real {
    (degrees / 18.0) * 0.1
  }

  /** The hold duration of a tool call in `direction` with the given magnitude. */
  function Duration(direction: Direction, magnitude: real): real {
    if direction.IsDrive() then DriveDuration(magnitude) else TurnDuration(magnitude)
  }

  /** Durations are linear in the magnitude; they are zero, negative or
      positive exactly when the magnitude is; and the calibration can be
      read back from a duration (44 cm or 180 degrees per second). */
  lemma DurationLaws(direction: Direction, m: real, k: real)
    ensures Duration(direction, 0.0) == 0.0
    ensures Duration(direction, k * m) == k * Duration(direction, m)
    ensures Duration(direction, 2.0 * m) == 2.0 * Duration(direction, m)
    ensures Duration(direction, m) < 0.0 <==> m < 0.0
    ensures direction.IsDrive() ==> Duration(direction, m) * 44.0 == m
    ensures !direction.IsDrive() ==> Duration(direction, m) * 180.0 == m
  {
  }

  /** The effects of one actuator call: engage, sleep, stop. A negative
      duration makes the sleep raise after the motor is engaged, so the
      stop is never issued. */
  function Pulse(direction: Direction, duration: real): seq<Effect> {
    if duration < 0.0 then [Engage(direction, POWER)]
    else [Engage(direction, POWER), Sleep(duration), Stop]
  }

  /** A pulse always engages first at power 100; it sleeps once and ends
      with `Stop` exactly when the duration is not negative; otherwise the
      motor is left running. */
  lemma PulseShape(direction: Direction, duration: real)
    ensures |Pulse(direction, duration)| > 0
    ensures Pulse(direction, duration)[0] == Engage(direction, POWER)
    ensures duration >= 0.0 <==> Pulse(direction, duration)[|Pulse(direction, duration)| - 1] == Stop
    ensures duration >= 0.0 ==> Pulse(direction, duration)[1] == Sleep(duration)
    ensures duration < 0.0 <==> Stop !in Pulse(direction, duration)
  {
  }

  // ---------------------------------------------------------------------------
  // The four actuators
  // ---------------------------------------------------------------------------

  /** The one-key record an actuator returns, echoing its argument. */
  datatype Echo = Echo(key: string, value: real)

  /** Why a tool call raised: `time.sleep` of a negative length, or keyword
      arguments that do not bind to the tool's one parameter. */
  datatype ToolError = NegativeSleep(seconds: real) | BadArguments(tool: string)

  /** The tool name the model calls for each direction. */
  function ToolName(direction: Direction): string {
    match direction
    case Forward => "move_forward"
    case Backward => "move_backward"
    case TurnLeft => "rotate_left"
    case TurnRight => "rotate_right"
  }

  /** The key of the record each tool returns. */
  function EchoKey(direction: Direction): string {
    match direction
    case Forward => "moved_forward"
    case Backward => "moved_backward"
    case TurnLeft => "rotated_left"
    case TurnRight => "rotated_right"
  }

  /** The name of each tool's one parameter. */
  function ParamName(direction: Direction): string {
    if direction.IsDrive() then "cm" else "degrees"
  }

  /** The tool a name dispatches to, if any. */
  function ToolNamed(name: string): (d: Option<Direction>)
    ensures d.Some? ==> ToolName(d.value) == name
  {
    if name == "move_forward" then Some(Forward)
    else if name == "move_backward" then Some(Backward)
    else if name == "rotate_left" then Some(TurnLeft)
    else if name == "rotate_right" then Some(TurnRight)
    else None
  }

  /** Dispatch by name is the inverse of naming: every tool is found under its
      own name and under no other. */
  lemma ToolNamedInverse(name: string, direction: Direction)
    ensures ToolNamed(name) == Some(direction) <==> name == ToolName(direction)
  {
  }

  /** What an actuator call returns or raises. */
  function ToolOutcome(direction: Direction, magnitude: real): Result<Echo, ToolError> {
    var d := Duration(direction, magnitude);
    if d < 0.0 then Err(NegativeSleep(d)) else Ok(Echo(EchoKey(direction), magnitude))
  }

  /** An actuator returns exactly when its pulse ends with a stop, and what it
      returns echoes its argument unchanged under the tool's own key. */
  lemma ToolOutcomeEchoes(direction: Direction, magnitude: real)
    ensures ToolOutcome(direction, magnitude).Ok? <==> Stop in Pulse(direction, Duration(direction, magnitude))
    ensures ToolOutcome(direction, magnitude).Ok? <==> magnitude >= 0.0
    ensures ToolOutcome(direction, magnitude).Ok? ==>
              ToolOutcome(direction, magnitude).value == Echo(EchoKey(direction), magnitude)
  {
  }

  /** The hardware and the clock the actuators drive (picar_4wd and
      time.sleep), seen as the trace of effects issued to them. */
  class Robot {
    var trace: seq<Effect>

    constructor ()
      ensures trace == []
    {
      trace := [];
    }

    /** fc.forward / fc.backward / fc.turn_left / fc.turn_right at `power`. */
    method Engage(direction: Direction, power: int)
      modifies this
      ensures trace == old(trace) + [Effect.Engage(direction, power)]
    {
      trace := trace + [Effect.Engage(direction, power)];
    }

    /** time.sleep: raises (returns false, records nothing) on a negative length. */
    method Sleep(seconds: real) returns (ok: bool)
      modifies this
      ensures ok <==> seconds >= 0.0
      ensures trace == if ok then old(trace) + [Effect.Sleep(seconds)] else old(trace)
    {
      ok := seconds >= 0.0;
      if ok {
        trace := trace + [Effect.Sleep(seconds)];
      }
    }

    /** fc.stop. */
    method Stop()
      modifies this
      ensures trace == old(trace) + [Effect.Stop]
    {
      trace := trace + [Effect.Stop];
    }
  }

  /** The body all four actuators share: engage, hold, stop, echo. */
  method Actuate(robot: Robot, direction: Direction, magnitude: real) returns (r: Result<Echo, ToolError>)
    modifies robot
    ensures robot.trace == old(robot.trace) + Pulse(direction, Duration(direction, magnitude))
    ensures r == ToolOutcome(direction, magnitude)
  {
    var duration := if direction.IsDrive() then (magnitude / 22.0) * 0.5 else (magnitude / 18.0) * 0.1;
    robot.Engage(direction, POWER);
    var slept := robot.Sleep(duration);
    if !slept {
      return Err(NegativeSleep(duration));
    }
    robot.Stop();
    r := Ok(Echo(EchoKey(direction), magnitude));
  }

  /** move_forward(cm). */
  method MoveForward(robot: Robot, cm: real) returns (r: Result<Echo, ToolError>)
    modifies robot
    ensures robot.trace == old(robot.trace) + Pulse(Forward, (cm / 22.0) * 0.5)
    ensures r == if cm < 0.0 then Err(NegativeSleep((cm / 22.0) * 0.5)) else Ok(Echo("moved_forward", cm))
  {
    r := Actuate(robot, Forward, cm);
  }

  /** move_backward(cm). */
  method MoveBackward(robot: Robot, cm: real) returns (r: Result<Echo, ToolError>)
    modifies robot
    ensures robot.trace == old(robot.trace) + Pulse(Backward, (cm / 22.0) * 0.5)
    ensures r == if cm < 0.0 then Err(NegativeSleep((cm / 22.0) * 0.5)) else Ok(Echo("moved_backward", cm))
  {
    r := Actuate(robot, Backward, cm);
  }

  /** rotate_left(degrees). */
  method RotateLeft(robot: Robot, degrees: real) returns (r: Result<Echo, ToolError>)
    modifies robot
    ensures robot.trace == old(robot.trace) + Pulse(TurnLeft, (degrees / 18.0) * 0.1)
    ensures r == if degrees < 0.0 then Err(NegativeSleep((degrees / 18.0) * 0.1)) else Ok(Echo("rotated_left", degrees))
  {
    r := Actuate(robot, TurnLeft, degrees);
  }

  /** rotate_right(degrees). */
  method RotateRight(robot: Robot, degrees: real) returns (r: Result<Echo, ToolError>)
    modifies robot
    ensures robot.trace == old(robot.trace) + Pulse(TurnRight, (degrees / 18.0) * 0.1)
    ensures r == if degrees < 0.0 then Err(NegativeSleep((degrees / 18.0) * 0.1)) else Ok(Echo("rotated_right", degrees))
  {
    r := Actuate(robot, TurnRight, degrees);
  }

  // ---------------------------------------------------------------------------
  // Function declarations handed to the model
  // ---------------------------------------------------------------------------

  /** One entry of a declaration's `properties` object. */
  datatype Parameter = Parameter(name: string, kind: string, description: string)

  /** A function declaration: name, description, an object schema of
      parameters and the list of required ones. */
  datatype Declaration = Declaration(name: string, description: string, parameters: seq<Parameter>, required: seq<string>)

  const MOVE_FORWARD_DECLARATION: Declaration :=
    Declaration("move_forward", "Moves the car forward for a specified distance in centimeters.",
      [Parameter("cm", "number", "The distance in centimeters for the car to move forward.")], ["cm"])

  const MOVE_BACKWARD_DECLARATION: Declaration :=
    Declaration("move_backward", "Moves the car backward for a specified distance in centimeters.",
      [Parameter("cm", "number", "The distance in centimeters for the car to move backward.")], ["cm"])

  const ROTATE_LEFT_DECLARATION: Declaration :=
    Declaration("rotate_left", "Turns the car left by a specified angle in degrees.",
      [Parameter("degrees", "number", "The angle in degrees for the car to turn left.")], ["degrees"])

  const ROTATE_RIGHT_DECLARATION: Declaration :=
    Declaration("rotate_right", "Turns the car right by a specified angle in degrees.",
      [Parameter("degrees", "number", "The angle in degrees for the car to turn right.")], ["degrees"])

  /** The declaration advertised for each tool. */
  function DeclarationOf(direction: Direction): Declaration {
    match direction
    case Forward => MOVE_FORWARD_DECLARATION
    case Backward => MOVE_BACKWARD_DECLARATION
    case TurnLeft => ROTATE_LEFT_DECLARATION
    case TurnRight => ROTATE_RIGHT_DECLARATION
  }

  /** Each declaration names the tool the controller dispatches under that
      name, and declares exactly one parameter, numeric and required, whose
      name is the keyword the actuator binds. */
  lemma DeclarationsMatchDispatch(direction: Direction)
    ensures ToolNamed(DeclarationOf(direction).name) == Some(direction)
    ensures |DeclarationOf(direction).parameters| == 1
    ensures DeclarationOf(direction).parameters[0].name == ParamName(direction)
    ensures DeclarationOf(direction).parameters[0].kind == "number"
    ensures DeclarationOf(direction).required == [ParamName(direction)]
  {
  }
}
