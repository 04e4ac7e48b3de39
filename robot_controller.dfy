/**
  The motor-speed control state machine of the robot relay server.

  The controller keeps two integer registers, the base velocity and the turn
  differential.  Discrete commands move them in fixed steps, and every command
  answers with a four-channel motor vector in which each channel is either 0 or
  has magnitude between MIN_SPEED and MAX_SPEED (the deadband-and-saturation
  policy of ConstrainMotorSpeed).

  The module has three layers:
    - value-level specification: State, the step functions for each register,
      MotorsOf / Settle (what calculate_motor_speeds returns and leaves behind),
      Step / Output for one command and Run / Trace for a sequence of commands;
    - lemmas about that specification (band validity, pairing, mirroring, the
      two dead branches, saturation, round trips);
    - the class RobotController, whose methods update the two fields in place and
      are proved against Step and Output.
*/
module MotorControl {

  // ---------------------------------------------------------------------------
  // Constants
  // ---------------------------------------------------------------------------

  const MIN_SPEED: int := 230
  const MAX_SPEED: int := 255
  const VELOCITY_STEP: int := 5
  const TURN_STEP: int := 15

  /** Base used when turning from a standstill with a small differential. */
  const STANDSTILL_BASE: int := 245
  /** Largest differential handled by the plain STANDSTILL_BASE branch. */
  const SMALL_TURN_LIMIT: int := 25

  function Abs(x: int): nat
  {
    if x < 0 then -x else x
  }

  function Min(a: int, b: int): int
  {
    if a <= b then a else b
  }

  function Max(a: int, b: int): int
  {
    if a >= b then a else b
  }

  // ---------------------------------------------------------------------------
  // Data model
  // ---------------------------------------------------------------------------

  /** The four output channels: front-left, front-right, back-left, back-right. */
  datatype MotorVector = MotorVector(fl: int, fr: int, bl: int, br: int)

  const Stopped: MotorVector := MotorVector(0, 0, 0, 0)

  /** The two registers of the controller. */
  datatype State = State(baseVelocity: int, turnDifferential: int)

  const Initial: State := State(0, 0)

  /** The diagnostic snapshot returned by get_state. */
  datatype Snapshot = Snapshot(baseVelocity: int, turnDifferential: int, motors: MotorVector)

  /** The commands the dispatcher can issue; directions are strings ("up", "down", "left", "right"). */
  datatype Command =
    | Velocity(direction: string)   // adjust_velocity
    | Turn(direction: string)       // adjust_turn
    | Kill                          // kill_switch
    | Inspect                       // get_state

  /** A speed the motors accept: exactly 0, or magnitude in [MIN_SPEED, MAX_SPEED]. */
  predicate ValidSpeed(v: int)
  {
    v == 0 || MIN_SPEED <= Abs(v) <= MAX_SPEED
  }

  predicate ValidVector(m: MotorVector)
  {
    ValidSpeed(m.fl) && ValidSpeed(m.fr) && ValidSpeed(m.bl) && ValidSpeed(m.br)
  }

  /** The controller invariant: the base velocity is never inside the deadband
      and the turn differential stays within [-MAX_SPEED, MAX_SPEED]. */
  predicate ValidState(s: State)
  {
    ValidSpeed(s.baseVelocity) && -MAX_SPEED <= s.turnDifferential <= MAX_SPEED
  }

  // ---------------------------------------------------------------------------
  // constrain_motor_speed
  // ---------------------------------------------------------------------------

  /** Deadband and saturation: deadband values become 0, values beyond
      MAX_SPEED are clipped to +-MAX_SPEED, valid speeds pass unchanged. */
  function ConstrainMotorSpeed(speed: int): (r: int)
    ensures ValidSpeed(r)
    ensures r != 0 ==> (r > 0 <==> speed > 0)
    ensures Abs(r) <= Abs(speed)
    ensures ValidSpeed(speed) <==> r == speed
    ensures Abs(speed) > MAX_SPEED ==> r == (if speed > 0 then MAX_SPEED else -MAX_SPEED)
  {
    if speed == 0 then 0
    else if Abs(speed) < MIN_SPEED then 0
    else if Abs(speed) > MAX_SPEED then (if speed > 0 then MAX_SPEED else -MAX_SPEED)
    else if MIN_SPEED <= Abs(speed) <= MAX_SPEED then speed
    else 0
  }

  // ---------------------------------------------------------------------------
  // adjust_velocity and adjust_turn, on values
  // ---------------------------------------------------------------------------

  /** The deadband snap applied at the end of adjust_velocity: a value inside
      the deadband becomes 0 and every other value is kept. */
  function SnapVelocity(v: int): (r: int)
    ensures r == 0 || r == v
    ensures !(0 < Abs(r) < MIN_SPEED)
    ensures r == v <==> !(0 < Abs(v) < MIN_SPEED)
  {
    if 0 < v < MIN_SPEED then 0
    else if -MIN_SPEED < v < 0 then 0
    else v
  }

  /** The base velocity after adjust_velocity(direction).  From a valid base
      the result is given exactly for every regime: a start from 0 jumps to
      +-MIN_SPEED, a step away from 0 moves by VELOCITY_STEP and saturates at
      +-MAX_SPEED, and a step towards 0 moves by VELOCITY_STEP unless that lands
      in the deadband, where it stops at 0 and never passes it. */
  function VelocityAfter(v: int, direction: string): (r: int)
    ensures ValidSpeed(v) ==> ValidSpeed(r)
    ensures v == 0 && direction == "up" ==> r == MIN_SPEED
    ensures v == 0 && direction == "down" ==> r == -MIN_SPEED
    ensures ValidSpeed(v) && v > 0 && direction == "up" ==>
              r == (if v + VELOCITY_STEP <= MAX_SPEED then v + VELOCITY_STEP else MAX_SPEED)
    ensures ValidSpeed(v) && v < 0 && direction == "down" ==>
              r == (if v - VELOCITY_STEP >= -MAX_SPEED then v - VELOCITY_STEP else -MAX_SPEED)
    ensures ValidSpeed(v) && v < 0 && direction == "up" ==>
              r == (if v + VELOCITY_STEP <= -MIN_SPEED then v + VELOCITY_STEP else 0)
    ensures ValidSpeed(v) && v > 0 && direction == "down" ==>
              r == (if v - VELOCITY_STEP >= MIN_SPEED then v - VELOCITY_STEP else 0)
    ensures ValidSpeed(v) && v < 0 && direction == "up" ==> r <= 0
    ensures ValidSpeed(v) && v > 0 && direction == "down" ==> r >= 0
    ensures ValidSpeed(v) && v != 0 && r != 0 && (direction == "up" || direction == "down") ==>
              Abs(r - v) <= VELOCITY_STEP
    ensures ValidSpeed(v) && direction == "up" ==> v <= r && (v < MAX_SPEED ==> v < r)
    ensures ValidSpeed(v) && direction == "down" ==> r <= v && (-MAX_SPEED < v ==> r < v)
    ensures ValidSpeed(v) && direction != "up" && direction != "down" ==> r == v
  {
    var stepped :=
      if direction == "up" then
        (if v == 0 then MIN_SPEED
         else if v > 0 then Min(v + VELOCITY_STEP, MAX_SPEED)
         else Min(v + VELOCITY_STEP, 0))
      else if direction == "down" then
        (if v == 0 then -MIN_SPEED
         else if v > 0 then Max(v - VELOCITY_STEP, 0)
         else Max(v - VELOCITY_STEP, -MAX_SPEED))
      else v;
    SnapVelocity(stepped)
  }

  /** The turn differential after adjust_turn(direction). */
  function TurnAfter(t: int, direction: string): (r: int)
    ensures -MAX_SPEED <= t <= MAX_SPEED ==> -MAX_SPEED <= r <= MAX_SPEED
    ensures direction == "left" && t - TURN_STEP >= -MAX_SPEED ==> r == t - TURN_STEP
    ensures direction == "left" && t - TURN_STEP < -MAX_SPEED ==> r == -MAX_SPEED
    ensures direction == "right" && t + TURN_STEP <= MAX_SPEED ==> r == t + TURN_STEP
    ensures direction == "right" && t + TURN_STEP > MAX_SPEED ==> r == MAX_SPEED
    ensures direction != "left" && direction != "right" ==> r == t
  {
    if direction == "left" then Max(t - TURN_STEP, -MAX_SPEED)
    else if direction == "right" then Min(t + TURN_STEP, MAX_SPEED)
    else t
  }

  // ---------------------------------------------------------------------------
  // calculate_motor_speeds, on values
  // ---------------------------------------------------------------------------

  /** The base chosen for a large differential from a standstill, before the
      fallback check.  The literals 255 and 230 stand here as written, not as
      MAX_SPEED and MIN_SPEED. */
  function LargeTurnBase(absDiff: int): int
  {
    Max(STANDSTILL_BASE, Min(255 - absDiff, 230 + absDiff))
  }

  /** The effective base of calculate_motor_speeds, including the fallback
      to STANDSTILL_BASE when the large-turn base would be below MIN_SPEED. */
  function EffectiveBase(s: State): (r: int)
    ensures s.baseVelocity == 0 && s.turnDifferential != 0 ==> r == STANDSTILL_BASE
    ensures !(s.baseVelocity == 0 && s.turnDifferential != 0) ==> r == s.baseVelocity
  {
    if s.baseVelocity == 0 && s.turnDifferential != 0 then
      var absDiff := Abs(s.turnDifferential);
      if absDiff <= SMALL_TURN_LIMIT then STANDSTILL_BASE
      else
        var large := LargeTurnBase(absDiff);
        if large < MIN_SPEED then STANDSTILL_BASE else large
    else s.baseVelocity
  }

  /** Constrained left-pair channel value (base plus differential). */
  function LeftSpeed(s: State): int
  {
    ConstrainMotorSpeed(EffectiveBase(s) + s.turnDifferential)
  }

  /** Constrained right-pair channel value (base minus differential). */
  function RightSpeed(s: State): int
  {
    ConstrainMotorSpeed(EffectiveBase(s) - s.turnDifferential)
  }

  /** The self-reset condition: turning from a standstill produced no motion. */
  predicate PhantomTurn(s: State)
  {
    s.baseVelocity == 0 && LeftSpeed(s) == 0 && RightSpeed(s) == 0 && s.turnDifferential != 0
  }

  /** The vector calculate_motor_speeds returns in state s. */
  function MotorsOf(s: State): (m: MotorVector)
    ensures ValidVector(m)
    ensures m.fl == m.bl && m.fr == m.br
  {
    if PhantomTurn(s) then Stopped
    else MotorVector(LeftSpeed(s), RightSpeed(s), LeftSpeed(s), RightSpeed(s))
  }

  /** The state calculate_motor_speeds leaves behind.  It clears the turn
      when turning from a standstill produced no motion; that never happens,
      so the state is left as it was. */
  function Settle(s: State): (r: State)
    ensures r == s
  {
    PhantomTurnNever(s);
    if PhantomTurn(s) then State(s.baseVelocity, 0) else s
  }

  // ---------------------------------------------------------------------------
  // One command, and sequences of commands
  // ---------------------------------------------------------------------------

  /** The register update a command performs before calculate_motor_speeds.
      Each command touches only its own register and keeps the invariant. */
  function Mutate(s: State, c: Command): (r: State)
    ensures ValidState(s) ==> ValidState(r)
    ensures c.Velocity? ==> r.turnDifferential == s.turnDifferential
    ensures c.Turn? ==> r.baseVelocity == s.baseVelocity
    ensures c.Kill? ==> r == Initial
    ensures c.Inspect? ==> r == s
  {
    match c
    case Velocity(d) => State(VelocityAfter(s.baseVelocity, d), s.turnDifferential)
    case Turn(d) => State(s.baseVelocity, TurnAfter(s.turnDifferential, d))
    case Kill => Initial
    case Inspect => s
  }

  /** The state after a command: the command's own update, since computing
      the motors never changes the registers; the invariant is preserved. */
  function Step(s: State, c: Command): (r: State)
    ensures r == Mutate(s, c)
    ensures ValidState(s) ==> ValidState(r)
  {
    Settle(Mutate(s, c))
  }

  /** The motor vector a command returns (for get_state, its motors entry). */
  function Output(s: State, c: Command): (m: MotorVector)
    ensures ValidVector(m)
  {
    MotorsOf(Mutate(s, c))
  }

  /** The snapshot get_state returns in state s: motors first, then the registers. */
  function SnapshotOf(s: State): (snap: Snapshot)
    ensures snap.motors == MotorsOf(s) && ValidVector(snap.motors)
  {
    var settled := Settle(s);
    Snapshot(settled.baseVelocity, settled.turnDifferential, MotorsOf(s))
  }

  function Run(s: State, cmds: seq<Command>): State
    decreases |cmds|
  {
    if cmds == [] then s else Run(Step(s, cmds[0]), cmds[1..])
  }

  /** The motor vectors returned along a sequence of commands. */
  function Trace(s: State, cmds: seq<Command>): (out: seq<MotorVector>)
    ensures |out| == |cmds|
    decreases |cmds|
  {
    if cmds == [] then [] else [Output(s, cmds[0])] + Trace(Step(s, cmds[0]), cmds[1..])
  }

  function Repeat(c: Command, n: nat): (cmds: seq<Command>)
    ensures |cmds| == n
    ensures forall i :: 0 <= i < n ==> cmds[i] == c
  {
    if n == 0 then [] else [c] + Repeat(c, n - 1)
  }

  // ---------------------------------------------------------------------------
  // Lemmas: constrain_motor_speed
  // ---------------------------------------------------------------------------

  lemma ConstrainIdempotent(x: int)
    ensures ConstrainMotorSpeed(ConstrainMotorSpeed(x)) == ConstrainMotorSpeed(x)
  {
  }

  /** The policy is symmetric in the direction of rotation. */
  lemma ConstrainOdd(x: int)
    ensures ConstrainMotorSpeed(-x) == -ConstrainMotorSpeed(x)
  {
  }

  /** A larger raw speed never yields a smaller constrained speed. */
  lemma ConstrainMonotone(x: int, y: int)
    requires x <= y
    ensures ConstrainMotorSpeed(x) <= ConstrainMotorSpeed(y)
  {
  }

  // ---------------------------------------------------------------------------
  // Lemmas: calculate_motor_speeds
  // ---------------------------------------------------------------------------

  /** The fallback to STANDSTILL_BASE when the large-turn base is below
      MIN_SPEED never fires: for every differential beyond SMALL_TURN_LIMIT the
      large-turn base is already STANDSTILL_BASE. */
  lemma LargeTurnFallbackDead(absDiff: int)
    requires absDiff > SMALL_TURN_LIMIT
    ensures !(LargeTurnBase(absDiff) < MIN_SPEED)
    ensures LargeTurnBase(absDiff) == STANDSTILL_BASE
  {
  }

  /** With base 245 one side always gets at least 245 in magnitude, so turning
      from a standstill always drives at least one motor pair. */
  lemma StandstillTurnMoves(t: int)
    requires t != 0
    ensures ConstrainMotorSpeed(STANDSTILL_BASE + t) != 0 || ConstrainMotorSpeed(STANDSTILL_BASE - t) != 0
  {
    if t > 0 {
      assert STANDSTILL_BASE + t > STANDSTILL_BASE;
    } else {
      assert STANDSTILL_BASE - t > STANDSTILL_BASE;
    }
  }

  /** The self-reset of the turn differential, taken when a standstill turn
      leaves all four channels at 0, is unreachable. */
  lemma PhantomTurnNever(s: State)
    ensures !PhantomTurn(s)
  {
    if s.baseVelocity == 0 && s.turnDifferential != 0 {
      StandstillTurnMoves(s.turnDifferential);
    }
  }

  /** The left pair is constrain(base + t), the right pair constrain(base - t). */
  lemma MotorsOfChannels(s: State)
    ensures MotorsOf(s).fl == MotorsOf(s).bl == ConstrainMotorSpeed(EffectiveBase(s) + s.turnDifferential)
    ensures MotorsOf(s).fr == MotorsOf(s).br == ConstrainMotorSpeed(EffectiveBase(s) - s.turnDifferential)
  {
    PhantomTurnNever(s);
  }

  /** Negating the differential swaps the left and right pairs. */
  lemma MotorsOfMirror(b: int, t: int)
    ensures MotorsOf(State(b, -t)) ==
            MotorVector(MotorsOf(State(b, t)).fr, MotorsOf(State(b, t)).fl,
                        MotorsOf(State(b, t)).br, MotorsOf(State(b, t)).bl)
  {
    MotorsOfChannels(State(b, t));
    MotorsOfChannels(State(b, -t));
    assert EffectiveBase(State(b, -t)) == EffectiveBase(State(b, t));
  }

  /** Without turning, all four channels equal the base velocity; in
      particular a valid base is passed through unchanged. */
  lemma StraightMotors(b: int)
    requires ValidSpeed(b)
    ensures MotorsOf(State(b, 0)) == MotorVector(b, b, b, b)
  {
  }

  /** A standstill with a non-zero turn always moves at least one wheel pair. */
  lemma StandstillTurnNotStopped(t: int)
    requires t != 0
    ensures MotorsOf(State(0, t)) != Stopped
  {
    MotorsOfChannels(State(0, t));
    StandstillTurnMoves(t);
  }

  /** The standstill left turn: t = -15 gives {fl:230, fr:255, bl:230, br:255}. */
  lemma StandstillLeftTurnExample()
    ensures EffectiveBase(State(0, -TURN_STEP)) == STANDSTILL_BASE
    ensures MotorsOf(State(0, -TURN_STEP)) == MotorVector(230, 255, 230, 255)
  {
    MotorsOfChannels(State(0, -TURN_STEP));
  }

  // ---------------------------------------------------------------------------
  // Lemmas: commands
  // ---------------------------------------------------------------------------

  /** kill_switch from any state clears both registers and stops all motors. */
  lemma KillStops(s: State)
    ensures Step(s, Kill) == Initial
    ensures Output(s, Kill) == Stopped
  {
  }

  /** get_state changes nothing and reports the registers and MotorsOf. */
  lemma InspectChangesNothing(s: State)
    ensures Step(s, Inspect) == s
    ensures Output(s, Inspect) == MotorsOf(s)
    ensures SnapshotOf(s) == Snapshot(s.baseVelocity, s.turnDifferential, MotorsOf(s))
  {
    PhantomTurnNever(s);
  }

  /** From a standstill 'up' starts at MIN_SPEED and 'down' at -MIN_SPEED. */
  lemma StartFromStandstill()
    ensures Step(Initial, Velocity("up")) == State(MIN_SPEED, 0)
    ensures Output(Initial, Velocity("up")) == MotorVector(230, 230, 230, 230)
    ensures Step(Initial, Velocity("down")) == State(-MIN_SPEED, 0)
    ensures Output(Initial, Velocity("down")) == MotorVector(-230, -230, -230, -230)
  {
  }

  /** 'down' then 'up' from a standstill comes back to it: -230 + 5 = -225 lies
      in the deadband and is snapped to 0; likewise 'up' then 'down'. */
  lemma VelocityRoundTrip()
    ensures Run(Initial, [Velocity("down"), Velocity("up")]) == Initial
    ensures Trace(Initial, [Velocity("down"), Velocity("up")]) ==
            [MotorVector(-230, -230, -230, -230), Stopped]
    ensures Run(Initial, [Velocity("up"), Velocity("down")]) == Initial
  {
    var down, up := Velocity("down"), Velocity("up");
    assert [down, up][1..] == [up];
    assert [up, down][1..] == [down];
  }

  /** The standstill left turn as a command. */
  lemma TurnLeftFromStandstill()
    ensures Step(Initial, Turn("left")) == State(0, -15)
    ensures Output(Initial, Turn("left")) == MotorVector(230, 255, 230, 255)
  {
    StandstillLeftTurnExample();
  }

  /** For every sequence of commands from a valid state, the state stays valid. */
  lemma {:induction false} RunPreservesValid(s: State, cmds: seq<Command>)
    requires ValidState(s)
    ensures ValidState(Run(s, cmds))
    decreases |cmds|
  {
    if cmds != [] {
      RunPreservesValid(Step(s, cmds[0]), cmds[1..]);
    }
  }

  /** For every sequence of commands from any state, every returned vector
      is in the band. */
  lemma {:induction false} TraceInBand(s: State, cmds: seq<Command>)
    ensures forall i :: 0 <= i < |cmds| ==> ValidVector(Trace(s, cmds)[i])
    decreases |cmds|
  {
    if cmds != [] {
      var rest := Trace(Step(s, cmds[0]), cmds[1..]);
      TraceInBand(Step(s, cmds[0]), cmds[1..]);
      assert Trace(s, cmds) == [Output(s, cmds[0])] + rest;
      forall i | 0 <= i < |cmds|
        ensures ValidVector(Trace(s, cmds)[i])
      {
        if i > 0 {
          assert Trace(s, cmds)[i] == rest[i - 1];
        }
      }
    }
  }

  /** Every state reachable from the initial state is valid. */
  lemma ReachableValid(cmds: seq<Command>)
    ensures ValidState(Run(Initial, cmds))
  {
    RunPreservesValid(Initial, cmds);
  }

  /** n 'right' turns add TURN_STEP each time and saturate at MAX_SPEED;
      the base velocity is untouched. */
  lemma {:induction false} RepeatedRightSaturates(s: State, n: nat)
    requires -MAX_SPEED <= s.turnDifferential <= MAX_SPEED
    ensures Run(s, Repeat(Turn("right"), n)).turnDifferential == Min(s.turnDifferential + TURN_STEP * n, MAX_SPEED)
    ensures Run(s, Repeat(Turn("right"), n)).baseVelocity == s.baseVelocity
    decreases n
  {
    if n > 0 {
      var c := Turn("right");
      assert Repeat(c, n)[0] == c && Repeat(c, n)[1..] == Repeat(c, n - 1);
      RepeatedRightSaturates(Step(s, c), n - 1);
    }
  }

  /** However many 'right' turns are issued, the differential never exceeds MAX_SPEED. */
  lemma RepeatedRightBounded(s: State, n: nat)
    requires -MAX_SPEED <= s.turnDifferential <= MAX_SPEED
    ensures Run(s, Repeat(Turn("right"), n)).turnDifferential <= MAX_SPEED
  {
    RepeatedRightSaturates(s, n);
  }

  /** n 'up' commands from a forward speed add VELOCITY_STEP each time and
      saturate at MAX_SPEED; the turn differential is untouched. */
  lemma {:induction false} RepeatedUpSaturates(s: State, n: nat)
    requires MIN_SPEED <= s.baseVelocity <= MAX_SPEED
    ensures Run(s, Repeat(Velocity("up"), n)).baseVelocity == Min(s.baseVelocity + VELOCITY_STEP * n, MAX_SPEED)
    ensures Run(s, Repeat(Velocity("up"), n)).turnDifferential == s.turnDifferential
    decreases n
  {
    if n > 0 {
      var c := Velocity("up");
      assert Repeat(c, n)[0] == c && Repeat(c, n)[1..] == Repeat(c, n - 1);
      RepeatedUpSaturates(Step(s, c), n - 1);
    }
  }

  /** A valid state whose turn differential is a multiple of TURN_STEP. */
  predicate OnTurnGrid(s: State)
  {
    ValidState(s) && s.turnDifferential % TURN_STEP == 0
  }

  /** Because MAX_SPEED is a multiple of TURN_STEP, the differential stays a
      multiple of TURN_STEP along every run that starts on the grid. */
  lemma {:induction false} RunStaysOnTurnGrid(s: State, cmds: seq<Command>)
    requires OnTurnGrid(s)
    ensures OnTurnGrid(Run(s, cmds))
    decreases |cmds|
  {
    if cmds != [] {
      assert MAX_SPEED == 17 * TURN_STEP;
      RunStaysOnTurnGrid(Step(s, cmds[0]), cmds[1..]);
    }
  }

  /** Every reachable turn differential is one of the 35 multiples of
      TURN_STEP in [-MAX_SPEED, MAX_SPEED]. */
  lemma ReachableTurnOnGrid(cmds: seq<Command>)
    ensures Run(Initial, cmds).turnDifferential % TURN_STEP == 0
    ensures -MAX_SPEED <= Run(Initial, cmds).turnDifferential <= MAX_SPEED
  {
    RunStaysOnTurnGrid(Initial, cmds);
  }

  // ---------------------------------------------------------------------------
  // The controller object
  // ---------------------------------------------------------------------------

  class RobotController {
    var baseVelocity: int
    var turnDifferential: int

    /** The abstract value of the object. */
    ghost function Current(): State
      reads this
    {
      State(baseVelocity, turnDifferential)
    }

    ghost predicate Valid()
      reads this
    {
      ValidState(Current())
    }

    constructor ()
      ensures Current() == Initial && Valid()
    {
      baseVelocity := 0;
      turnDifferential := 0;
    }

    method AdjustVelocity(direction: string) returns (m: MotorVector)
      modifies this
      ensures Current() == Step(old(Current()), Velocity(direction))
      ensures baseVelocity == VelocityAfter(old(baseVelocity), direction)
      ensures turnDifferential == old(turnDifferential)
      ensures m == Output(old(Current()), Velocity(direction)) && ValidVector(m)
      ensures old(Valid()) ==> Valid()
    {
      if direction == "up" {
        if baseVelocity == 0 {
          baseVelocity := MIN_SPEED;
        } else if baseVelocity > 0 {
          baseVelocity := Min(baseVelocity + VELOCITY_STEP, MAX_SPEED);
        } else {
          baseVelocity := Min(baseVelocity + VELOCITY_STEP, 0);
        }
      } else if direction == "down" {
        if baseVelocity == 0 {
          baseVelocity := -MIN_SPEED;
        } else if baseVelocity > 0 {
          baseVelocity := Max(baseVelocity - VELOCITY_STEP, 0);
        } else {
          baseVelocity := Max(baseVelocity - VELOCITY_STEP, -MAX_SPEED);
        }
      }
      if 0 < baseVelocity < MIN_SPEED {
        baseVelocity := 0;
      } else if -MIN_SPEED < baseVelocity < 0 {
        baseVelocity := 0;
      }
      m := CalculateMotorSpeeds();
    }

    method AdjustTurn(direction: string) returns (m: MotorVector)
      modifies this
      ensures Current() == Step(old(Current()), Turn(direction))
      ensures turnDifferential == TurnAfter(old(turnDifferential), direction)
      ensures baseVelocity == old(baseVelocity)
      ensures m == Output(old(Current()), Turn(direction)) && ValidVector(m)
      ensures old(Valid()) ==> Valid()
    {
      if direction == "left" {
        turnDifferential := Max(turnDifferential - TURN_STEP, -MAX_SPEED);
      } else if direction == "right" {
        turnDifferential := Min(turnDifferential + TURN_STEP, MAX_SPEED);
      }
      m := CalculateMotorSpeeds();
    }

    method KillSwitch() returns (m: MotorVector)
      modifies this
      ensures Current() == Step(old(Current()), Kill) == Initial
      ensures m == Stopped
      ensures Valid()
    {
      baseVelocity := 0;
      turnDifferential := 0;
      m := CalculateMotorSpeeds();
    }

    /** Computes the four channels from the registers.  The self-reset branch
        is kept; it is proved never to change the state. */
    method CalculateMotorSpeeds() returns (m: MotorVector)
      modifies this
      ensures Current() == Settle(old(Current()))
      ensures baseVelocity == old(baseVelocity) && turnDifferential == old(turnDifferential)
      ensures m == MotorsOf(old(Current()))
      ensures m.fl == m.bl && m.fr == m.br && ValidVector(m)
    {
      var effectiveBase := baseVelocity;
      if baseVelocity == 0 && turnDifferential != 0 {
        var absDiff := Abs(turnDifferential);
        if absDiff <= SMALL_TURN_LIMIT {
          effectiveBase := STANDSTILL_BASE;
        } else {
          effectiveBase := Max(STANDSTILL_BASE, Min(255 - absDiff, 230 + absDiff));
          if effectiveBase < MIN_SPEED {
            effectiveBase := STANDSTILL_BASE;
          }
        }
      }
      assert effectiveBase == EffectiveBase(Current());

      var fl := effectiveBase + turnDifferential;
      var fr := effectiveBase - turnDifferential;
      var bl := effectiveBase + turnDifferential;
      var br := effectiveBase - turnDifferential;

      fl := ConstrainMotorSpeed(fl);
      fr := ConstrainMotorSpeed(fr);
      bl := ConstrainMotorSpeed(bl);
      br := ConstrainMotorSpeed(br);

      if baseVelocity == 0 && fl == 0 && fr == 0 && bl == 0 && br == 0 && turnDifferential != 0 {
        turnDifferential := 0;
        fl, fr, bl, br := 0, 0, 0, 0;
      }
      m := MotorVector(fl, fr, bl, br);
      PhantomTurnNever(old(Current()));
    }

    method GetState() returns (snap: Snapshot)
      modifies this
      ensures Current() == Step(old(Current()), Inspect) == old(Current())
      ensures snap == SnapshotOf(old(Current()))
      ensures snap == Snapshot(old(baseVelocity), old(turnDifferential), MotorsOf(old(Current())))
      ensures ValidVector(snap.motors)
    {
      var motors := CalculateMotorSpeeds();
      snap := Snapshot(baseVelocity, turnDifferential, motors);
      InspectChangesNothing(old(Current()));
    }
  }
}
