# Robot motor-speed controller, in Dafny

This project models the motor-speed control state machine of a robot-car relay server,
together with the motor-vector check of the server's `/robot/move` handler.

`RobotController` (module `MotorControl`, file `robot_controller.dfy`) holds two integer
registers, `baseVelocity` and `turnDifferential`. Three commands change them and a fourth reads them:
- `AdjustVelocity("up" | "down")` steps the base by 5. It jumps from 0 straight to ±230, caps at ±255,
  may never step past 0, and snaps any result inside the deadband (0, 230) in magnitude to 0.
- `AdjustTurn("left" | "right")` moves the differential by 15, saturating at ±255.
- `KillSwitch` clears both registers.
- `GetState` changes neither register; it reports both with the current motors.

Each command returns the four-channel vector `{fl, fr, bl, br}` computed by
`CalculateMotorSpeeds`:
- the left pair gets `constrain(base + turn)` and the right pair `constrain(base - turn)`;
- from a standstill with a non-zero turn, an effective base of 245 is used;
- `ConstrainMotorSpeed` maps every value to 0 or to a magnitude in [230, 255].

The model has three layers:
- **Value-level specification.** `State`, register step functions (`VelocityAfter`, `TurnAfter`),
  `MotorsOf` / `Settle` (the vector `calculate_motor_speeds` returns and the state it leaves),
  `Step` / `Output` for one command, and `Run` / `Trace` for a sequence.
- **Lemmas** about that specification.
- **The class `RobotController`.** Its methods update the two fields in place, following the
  source statement by statement, and are proved against `Step` and `Output`.

Module `MoveGateway` (file `move_gateway.dfy`) models the request validation of `robot_move`:
- a request body is a map from field names to JSON values;
- the four fields must be present;
- each of `fl`, `fr`, `bl`, `br` in turn must be an integer, within [-255, 255] unless 0,
  and outside the deadband unless 0;
- the first failure gives a 400 answer with that field's message;
- only a request that passes every check reaches the forwarding step, which sends the body unchanged.

The cross-component lemmas show that every vector the controller can return would be
forwarded.

Two branches of `calculate_motor_speeds` are kept in the model and proved dead:
- The fallback to 245 when the large-turn base drops below 230 (`LargeTurnFallbackDead`).
  For every differential above 25, `max(245, min(255 - d, 230 + d))` is already 245.
- The self-reset of the turn differential when all four channels come out 0
  (`PhantomTurnNever`). With base 245, one side is always at least 245 in magnitude, for
  every non-zero differential, not only the reachable ones.

The source's own comments present both dead branches as live paths:
- The comment at utils/robot_controller.py:140 says the large-turn base is adjusted for very large
  differentials. The expression `max(245, min(255 - |d|, 230 + |d|))` is 245 for every |d| > 25,
  so the large-turn case uses the same base as the small one.
- The self-reset at utils/robot_controller.py:160-165 is described as a recovery for a standstill turn
  that produced no motion. With the source's constants it can never fire (`PhantomTurnNever`), so
  `CalculateMotorSpeeds` and `GetState` never change the registers.

A direction string other than the accepted ones leaves the register unchanged, as the `if`/`elif`
chains at utils/robot_controller.py:29-49 and 70-73 have no `else`. The deadband snap and the motor
computation still run (`VelocityAfter`, `TurnAfter`).

## Model

| member | source | states |
|---|---|---|
| `MotorControl.ConstrainMotorSpeed` | utils/robot_controller.py:103-120 | the result is 0 or has magnitude in [230, 255]; a non-zero result has the sign of the input; its magnitude never exceeds the input's; it equals the input exactly when the input is already a valid speed; a magnitude above 255 is clipped to ±255 with the input's sign |
| `MotorControl.ConstrainIdempotent` | utils/robot_controller.py:103-120 | constraining twice is constraining once |
| `MotorControl.ConstrainOdd` | utils/robot_controller.py:103-120 | the policy is symmetric: constrain(-x) = -constrain(x) |
| `MotorControl.ConstrainMonotone` | utils/robot_controller.py:103-120 | a larger raw speed never gives a smaller constrained speed |
| `MotorControl.SnapVelocity` | utils/robot_controller.py:53-56 | the snap keeps a value exactly when it is outside the deadband (0, 230) in magnitude and makes it 0 otherwise, so its result is never inside the deadband |
| `MotorControl.VelocityAfter` | utils/robot_controller.py:29-56 | exact result per regime from a valid base: 0 goes to +230 ('up') or -230 ('down'); moving away from 0 adds or subtracts 5, capped at ±255; moving towards 0 steps by 5 unless that lands in the deadband, where it is snapped to 0, so it never passes 0; every result is again 0 or in ±[230, 255]; 'up' never decreases the base, and increases it strictly below 255; 'down' mirrors this; other directions leave it unchanged |
| `MotorControl.TurnAfter` | utils/robot_controller.py:70-73 | the turn moves by exactly -15 ('left') or +15 ('right'), saturating at -255 or +255, and stays in [-255, 255]; other directions leave it unchanged |
| `MotorControl.EffectiveBase` | utils/robot_controller.py:129-143 | with base 0 and a non-zero turn the effective base is always 245; otherwise it is the base velocity |
| `MotorControl.MotorsOf` | utils/robot_controller.py:149-167 | every channel of the returned vector is 0 or has magnitude in [230, 255], and fl = bl, fr = br |
| `MotorControl.Settle` | utils/robot_controller.py:161-165 | the state the motor computation leaves behind is the state it started from: the reset of the turn never takes effect |
| `MotorControl.Mutate` | utils/robot_controller.py:29-86 | each command's register update keeps the invariant and touches only its own register; the kill switch gives the zero state; get_state changes nothing |
| `MotorControl.Step` | utils/robot_controller.py:19-86 | the state after any command is that command's own register update, and every command preserves the invariant |
| `MotorControl.Output` | utils/robot_controller.py:58 | the vector any command returns is in the band |
| `MotorControl.SnapshotOf` | utils/robot_controller.py:176-181 | the motors of the snapshot are those the registers give, and are in the band |
| `MotorControl.LargeTurnFallbackDead` | utils/robot_controller.py:137-143 | for every differential above 25 the large-turn base of line 141 is 245, so the fallback at lines 142-143 can never fire |
| `MotorControl.StandstillTurnMoves` | utils/robot_controller.py:133-158 | with base 245 and any non-zero turn, at least one side is constrained to a non-zero speed |
| `MotorControl.PhantomTurnNever` | utils/robot_controller.py:161-165 | the all-zero self-reset never triggers, so the motor computation leaves the state unchanged |
| `MotorControl.MotorsOfChannels` | utils/robot_controller.py:149-158 | the left pair is constrain(effective base + turn) and the right pair constrain(effective base - turn) |
| `MotorControl.MotorsOfMirror` | utils/robot_controller.py:149-158 | negating the turn differential swaps the left and right pairs |
| `MotorControl.StraightMotors` | utils/robot_controller.py:129-158 | with no turn and a valid base, all four channels equal the base |
| `MotorControl.StandstillTurnNotStopped` | utils/robot_controller.py:133-165 | from a standstill a non-zero turn never produces the all-zero vector |
| `MotorControl.StandstillLeftTurnExample` | utils/robot_controller.py:133-158 | base 0 and turn -15 give effective base 245 and {fl:230, fr:255, bl:230, br:255} |
| `MotorControl.KillStops` | utils/robot_controller.py:84-86 | the kill switch clears both registers from any state and returns {0, 0, 0, 0} |
| `MotorControl.InspectChangesNothing` | utils/robot_controller.py:176-181 | get_state leaves the state unchanged and reports the registers with the motors they give |
| `MotorControl.StartFromStandstill` | utils/robot_controller.py:29-43 | from the zero state 'up' gives base 230 and {230, 230, 230, 230}; 'down' gives -230 and {-230, -230, -230, -230} |
| `MotorControl.VelocityRoundTrip` | utils/robot_controller.py:29-56 | 'down' then 'up' from the zero state returns to the zero state with {0, 0, 0, 0}, because -225 is snapped; 'up' then 'down' also returns there |
| `MotorControl.TurnLeftFromStandstill` | utils/robot_controller.py:70-75 | one 'left' from the zero state sets the turn to -15 and returns {230, 255, 230, 255} |
| `MotorControl.RunPreservesValid` | utils/robot_controller.py:19-86 | along every sequence of commands from a valid state, the state stays valid |
| `MotorControl.TraceInBand` | utils/robot_controller.py:154-167 | every vector returned along any sequence of commands is in the band |
| `MotorControl.ReachableValid` | utils/robot_controller.py:14-17 | every state reachable from the initial state is valid |
| `MotorControl.RepeatedRightSaturates` | utils/robot_controller.py:72-73 | n 'right' turns give min(t + 15n, 255) and leave the base unchanged |
| `MotorControl.RepeatedRightBounded` | utils/robot_controller.py:72-73 | repeated 'right' never takes the turn above 255 |
| `MotorControl.RepeatedUpSaturates` | utils/robot_controller.py:34-35 | n 'up' commands from a forward speed give min(base + 5n, 255) and leave the turn unchanged |
| `MotorControl.RunStaysOnTurnGrid` | utils/robot_controller.py:70-73 | a turn differential that is a multiple of 15 stays one along every run |
| `MotorControl.ReachableTurnOnGrid` | utils/robot_controller.py:14-17 | every reachable turn differential is a multiple of 15 in [-255, 255] |
| `MotorControl.RobotController.constructor` | utils/robot_controller.py:14-17 | a new controller is in the zero state, which is valid |
| `MotorControl.RobotController.AdjustVelocity` | utils/robot_controller.py:19-58 | the new state is Step(old state, Velocity(direction)); the base becomes VelocityAfter(old base, direction) and the turn is unchanged; the returned vector is Output(...) and is in the band; validity is preserved |
| `MotorControl.RobotController.AdjustTurn` | utils/robot_controller.py:60-75 | the new state is Step(old state, Turn(direction)); the turn becomes TurnAfter(old turn, direction) and the base is unchanged; the returned vector is in the band; validity is preserved |
| `MotorControl.RobotController.KillSwitch` | utils/robot_controller.py:77-86 | both registers become 0 and the result is {0, 0, 0, 0} |
| `MotorControl.RobotController.CalculateMotorSpeeds` | utils/robot_controller.py:122-167 | the result is MotorsOf(state) with fl = bl, fr = br, all in the band; despite the reset branch, the registers are unchanged |
| `MotorControl.RobotController.GetState` | utils/robot_controller.py:169-181 | the snapshot holds the unchanged registers and MotorsOf(state); the state is unchanged |
| `MoveGateway.FieldError` | main.py:163-170 | a field passes its checks exactly when it is an integer that is 0 or has magnitude in [230, 255] |
| `MoveGateway.FirstFieldError` | main.py:163-170 | the per-field loop finds no error exactly when every field is an integer that is 0 or has magnitude in [230, 255] |
| `MoveGateway.FirstFieldErrorSpec` | main.py:163-170 | an error the loop reports belongs to a field whose predecessors all pass, so the loop stops at the first failing field |
| `MoveGateway.RobotMove` | main.py:158-179 | a missing field gives 400 with the missing-fields message before any field is checked; every rejection is a 400; a forwarded request has all four fields and is forwarded with its body unchanged |
| `MoveGateway.MissingFieldRejected` | main.py:158-160 | a request lacking any of fl, fr, bl, br is rejected with 400 and the missing-fields message |
| `MoveGateway.NonIntegerRejected` | main.py:163-166 | a request with a non-integer motor field is rejected with 400 |
| `MoveGateway.AcceptedIff` | main.py:158-179 | a request is forwarded (body unchanged) if and only if all four fields are integers that are 0 or have magnitude in [230, 255]; every rejection is a 400 |
| `MoveGateway.FirstFailingFieldReported` | main.py:163-170 | with fl = 100, fr non-integer and br = 300, the deadband message for fl is the one returned |
| `MoveGateway.ValidVectorForwarded` | main.py:163-170 | every in-band motor vector sent as a request is forwarded unchanged |
| `MoveGateway.ControllerOutputAccepted` | main.py:158-179 | every vector the controller computes, in any state and after any command, passes the handler's validation |
| `MoveGateway.TraceAccepted` | main.py:158-179 | every vector returned along any sequence of controller commands would be forwarded |

## Left out

- The other routes of `main.py` (`upload`, `image_info`, `update_settings`, `serve_static`, `index`), `apply_preprocessing`, file writes and `shutil.copy`: web and file I/O glue.
- The HTTP forwarding itself (`requests.post`, the robot's status code, the 503 and 500 exception paths, main.py:172-191): network transport. The model stops at the `Forwarded(body)` outcome.
- A JSON body that is not an object (`None`, a list or a string) falls into Python's membership and indexing rules or the generic 500 handler. The model takes the body to be a map from field names to values.
- Python's `bool` being a subclass of `int`, which lets `true`/`false` pass the integer check at main.py:165: JSON values are either integers or non-integers here.
- `utils/yolo_detector.py`: foreign computer-vision libraries and floating point.
- `utils/config.py`: environment reads. The model uses only the constants hard-coded on the controller.
- `tests/simulate_arduino.py`: camera capture, sleeping and HTTP upload.
- Concurrency around the process-wide controller instance: the source has no locking, and each command is modelled as one atomic step.
- Python integers are unbounded, like Dafny's `int`, so no wrap-around is modelled.
