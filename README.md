# Rover control scripts, modelled in Dafny

The repository holds a family of Python scripts for a small two-motor rover.
The rover drives over a mapped floor. An overhead camera tracks a red and a
blue colour marker on it, and there are GUI simulators for testing. Several
near-duplicate controllers steer the rover to waypoints with timed pulses, a
PID controller or proportional steering. Camera servers smooth the marker
detections, pop reached waypoints and suggest an action. Two teleoperation
scripts map arrow keys to the motors. A logging loop samples an MQ2 gas
sensor through an MCP3008 converter. A few scripts convert map pixels to
inches.

Each script is modelled as it behaves, with its own constants, comparisons
and clamps. Code shared word for word is modelled once:
- `RoverMath`: Python's float `%`, both angle-wrapping conventions, `int()`
  and the `//` midpoint;
- `Markers`: the marker smoothing;
- `Pid`: the simulators' PID controller;
- `Motors`: the motor kit;
- `Simulation`: the simulator clock;
- `Text`: `str.split` and the `update_targets` parsing;
- `Vectors`: the vector helpers.

Several script functions update module globals in a loop. Each such function is a
method of a class that holds those globals. The method is proved equal to a
recursive specification function. The loops the scripts run forever (camera
frames, HTTP polls, key presses) take their inputs as a finite sequence. The
end of that sequence is an explicit outcome (`OutOfFixes`, `Running`, a
`false` flag). `atan2`, `hypot`, `sqrt`, `sin` and `cos` enter as parameters:
- a distance `d` is tied to the squared distance by `IsHypot`;
- tolerance tests are squared-distance comparisons (`HypotCompare`).

Arithmetic is on exact `real`s.

## Model

| member | source | states |
|---|---|---|
| RoverMath.PyMod | Autonomous/finalPiSky.py:68-70 | Python's `a % m` for `m > 0`: the result lies in `[0, m)` and differs from `a` by a whole multiple of `m` |
| RoverMath.NormalizeAngle | Testing/deepSEEKRover.py:91-93 | `(a + 180) % 360 - 180` lies in `[-180, 180)` and names the same direction as `a` (also finalPiSky.py:68-70, grokPiInTheSky.py:32-34) |
| RoverMath.PrincipalAngle | Testing/Test_roverSim.py:230-232 | `e % 360`, minus 360 above 180, lies in `(-180, 180]` and is congruent to `e` mod 360 |
| RoverMath.PrincipalOfCongruent | testv8.py:188-190 | any angle congruent to a principal angle `y` normalises to `y`, so the normal form is unique |
| RoverMath.NormalizeVersusPrincipal | Testing/deepSEEKRover.py:91-93 | the two wrapping conventions agree on every angle except the half turn, which one reads as 180 and the other as -180 |
| RoverMath.WrapOnce | testv4.py:161-164 | the single-step wrap stays congruent mod 360, moves the error by at most 360, and puts any error in `[-540, 540]` into `[-180, 180]` |
| RoverMath.WrapOnceVersusPrincipal | testv4.py:161-164 | on errors in `(-540, 540]` the single-step wrap equals the principal angle, except that it may give -180 for 180 |
| RoverMath.Clamp | testv4.py:196-198 | `max(lo, min(x, hi))` lies in `[lo, hi]`: `x` inside, the nearer bound outside |
| RoverMath.Trunc | Production/Prod_Pixel_Testing.py:18-25 | `int(x)` truncates toward zero: below `x` by less than one for `x >= 0`, above it by less than one otherwise |
| RoverMath.FloorMid | Testing/deepSEEKRover.py:70-72 | `(a + b) // 2` is the floor of the average and lies between `a` and `b` |
| RoverMath.CalculateCenter | Testing/deepSEEKRover.py:70-72 | `calculate_center` is the coordinate-wise floor midpoint and lies between the two markers in each coordinate |
| RoverMath.HypotCompare | testv8.py:211-212 | when `d` is `hypot(dx, dy)`, `d < tol` and `d <= tol` are the same tests on the squared distance |
| RoverMath.PixelHypotCompare | Testing/CameraTestingCode.py:152-168 | the same equivalence for the integer distance between two pixels |
| Markers.Smooth | Autonomous/finalPiSky.py:135-156 | the smoothed marker is None exactly on a missed detection, and a first detection is taken verbatim |
| Markers.BlendBetween | Testing/CameraTestingCode.py:109-131 | for non-negative coordinates the truncated 0.1/0.9 blend lies between the old and new coordinate and within one pixel below the exact weighted average |
| Markers.SmoothFixedPoint | Testing/grokPiInTheSky.py:64-85 | a marker that stays put is reported exactly where it is |
| Markers.SmoothBetween | Autonomous/finalPiSky.py:135-156 | each smoothed coordinate lies between its previous value and the new detection |
| Motors.MotorKit.constructor | Autonomous_Driving_Code.py:6 | a new kit is stopped and has no pulses logged |
| Motors.MotorKit.Set | Autonomous_Driving_Code.py:63-64 | writing both throttles leaves exactly those throttles |
| Motors.MotorKit.Stop | Autonomous_Driving_Code.py:66-67 | both throttles become 0 |
| Motors.MotorKit.Sleep | Autonomous_Driving_Code.py:65 | a sleep logs one pulse holding the current throttles for that long, and changes nothing else |
| Vectors.Add | testv4.py:43-45 | componentwise sum (also DEPRECATED_Autonomous_Driving_Code.py:38-39) |
| Vectors.Subtract | testv4.py:48-50 | componentwise difference |
| Vectors.Scale | testv4.py:52-54 | componentwise product with the scalar |
| Vectors.AddSubtractInverse | testv4.py:43-50 | subtracting `w` undoes adding `w`, and the other way round |
| Vectors.ScaleLaws | testv4.py:52-54 | scaling distributes over addition, composes by multiplication and has 1 as its identity |
| Vectors.HeadingOf | testv4.py:31-41 | reading a direction vector back through `atan2` gives an angle in `(-180, 180]` congruent to the angle it was made from |
| Text.Split | testv8.py:129-131 | `s.split(sep)` has one more piece than `s` has separators, and no piece contains the separator |
| Text.JoinSplit | testv8.py:129-131 | joining the pieces with the separator gives the text back |
| Text.SplitJoin | testv8.py:129-131 | splitting the join of separator-free pieces gives the pieces back |
| Text.ParseTargets | Testing/Test_roverSim.py:161 | the split step of `update_targets`, before `float()`: one list of fields per `;` segment, each with at least one field |
| Text.ParseTargetsRoundTrip | Testing/Test_roverSim.py:161 | writing the split fields back as `x,y;x,y` text reproduces the input exactly |
| Text.FormatTargetsRoundTrip | testv8.py:129-131 | parsing formatted targets gives them back when their fields hold no `,` or `;` |
| Text.ConvertFields | Testing/Test_roverSim.py:161 | `map(float, fields)` succeeds exactly when every field converts, and then gives each field's value, in order |
| Text.ConvertTargets | Testing/Test_roverSim.py:161 | the comprehension succeeds exactly when every target converts, and then gives each target's values, in order |
| Text.UpdateTargets | Testing/Test_roverSim.py:159-162 | a field `float()` refuses raises and keeps the old targets. Otherwise the targets are the converted fields, one target per `;` segment, and the call raises exactly when `zip(*targets)` cannot unpack two rows |
| Text.UpdateTargetsRoundTrip | Testing/Test_roverSim.py:159-162 | pairs written out as `x,y;x,y` with a rendering `float()` reads back are stored exactly, and nothing raises |
| Text.ShowTargets | testv8.py:131 | one rendered field per number, in place |
| Simulation.RoverSimulation.constructor | Testing/Test_roverSim.py:30-39 | the simulator starts at time 0 with both throttles 0 |
| Simulation.RoverSimulation.SetThrottles | Testing/Test_roverSim.py:41-47 | the setters store the throttles as given |
| Simulation.RoverSimulation.AdvanceTime | Testing/Test_roverSim.py:77 | `advance_time(dt)` moves the clock on by exactly `dt` |
| Simulation.SleepAdvance | Testing/Test_roverSim.py:184-194 | `int(t/dt)` whole steps plus `t % dt` advance the clock by exactly `t` for `t >= 0`, and by less than one step for negative `t` |
| Simulation.SleepOneStep | Testing/Test_roverSim.py:184-194 | a sleep of one step advances the clock by one step |
| Simulation.SimulateSleep | Testing/Test_roverSim.py:184-194 | the loop of `advance_time` calls moves the clock by `SleepAdvance(t, dt)` |
| Simulation.DirectionAfter | Testing/Test_roverSim.py:202-209 | the heading is unchanged for a zero displacement and is the displacement's bearing otherwise |
| Pid.PidStep | Testing/Test_roverSim.py:103-116 | `compute` is None, with no state change, exactly when `now - last_time < sample_time`. Otherwise the output lies within the limits and the state becomes `integral + error*dt`, `error` and `now` |
| Pid.FirstSampleHasNoDerivative | testv8.py:79-95 | the first sample accepted after `reset` is the clamped `Kp*e + Ki*e*dt`, with no derivative term |
| Pid.SteadyErrorHasNoDerivative | Testing/Test_roverSim.py:108-116 | a sample that repeats the previous error has no derivative term |
| Pid.SecondSampleTooSoon | Testing/Test_roverSim.py:103-113 | a second sample within one sample time of an accepted one is refused and keeps the first one's state |
| Pid.SimPidController.constructor | Testing/Test_roverSim.py:92-96 | the gains are stored with limits (-1, 1), and the state is that of `reset` |
| Pid.SimPidController.Reset | Testing/Test_roverSim.py:98-101 | integral 0, no previous error, `last_time = 0.0` |
| Pid.SimPidController.Compute | Testing/Test_roverSim.py:103-116 | the new fields and the output are those of `PidStep` |
| RoverSim.Turn | Testing/Test_roverSim.py:220-244 | `turn_to_angle` ends aligned, stopped, on the first fix whose principal error is under 15. Every earlier fix was misaligned, each cost one 0.5 s step of the clock, and the last step left `(t, -t)` with `|t| <= 0.5` |
| RoverSim.TurnAlignedWithinTolerance | Testing/Test_roverSim.py:234-237 | a turn that ends aligned ends on a fix whose wrapped error is under 15 degrees |
| RoverSim.TurnStep | Testing/Test_roverSim.py:238-244 | a misaligned step feeds the error to `compute`, keeps the last output when it is None, commands `(t, -t)` with `t` clamped to 0.5, and advances the clock by the step |
| RoverSim.Move | Testing/Test_roverSim.py:246-265 | `move_to_target` arrives on the first fix whose distance is under 3, strictly. Every earlier fix was at least 3 away |
| RoverSim.MoveEndsStopped | Testing/Test_roverSim.py:259-263 | whenever `move_to_target` returns after a complete leg or on arrival, both throttles are 0 |
| RoverSim.TurnThenLeg | Testing/Test_roverSim.py:257-263 | an aligned `turn_to_angle` followed by a leg leaves the rover stopped |
| RoverSim.Leg | Testing/Test_roverSim.py:259-265 | a forward leg leaves the throttles 0 and the PID untouched, advances the clock, and re-estimates the direction from the displacement |
| RoverSim.ArrivedWithinTolerance | Testing/Test_roverSim.py:253-256 | with true `hypot` distances, arriving means the squared distance is under 9, and every earlier fix was at least 3 away |
| RoverSim.ForwardLegTime | Testing/Test_roverSim.py:259-263 | each leg of at least 3 inches advances the simulated clock by exactly `distance * 0.54 / 12` |
| RoverSim.Rover.constructor | Testing/Test_roverSim.py:15-20 | the rover starts at (9.7, 12.5) facing 90 degrees, with the ten initial targets, a reset PID and a stopped simulator |
| RoverSim.Rover.UpdateTargets | Testing/Test_roverSim.py:159-162 | leaves exactly the targets and the raised error `Text.UpdateTargets` describes |
| RoverSim.Rover.UpdateDirectionUsingDisplacement | Testing/Test_roverSim.py:202-209 | the direction is left alone for a zero displacement and set to its bearing otherwise |
| RoverSim.Rover.TurnToAngle | Testing/Test_roverSim.py:220-244 | the loop after `reset` leaves exactly the state `Turn` describes |
| RoverSim.Rover.Steer | Testing/Test_roverSim.py:238-244 | one misaligned pass leaves exactly the state `TurnStep` describes |
| RoverSim.Rover.MoveToTarget | Testing/Test_roverSim.py:246-265 | the loop leaves exactly the state and outcome `Move` describes |
| Testv8.Turn | testv8.py:180-202 | `turn_to_angle` ends aligned, stopped, on the first aligned fix. While misaligned each step costs 0.1 s and leaves `(last, -last)` with no extra clamp |
| Testv8.TurnInOrder | testv8.py:185-202 | the fix where the turn ends is the first aligned one: every fix before it was read with a wrapped heading error of at least 15 degrees from the heading re-estimated after the steps before it (`TurnAt`), and an aligned end read one under 15 |
| Testv8.TurnStep | testv8.py:195-202 | a misaligned step keeps the last output when `compute` is None, commands `(t, -t)`, and re-estimates the heading from the displacement |
| Testv8.TurnAlignedWithinTolerance | testv8.py:188-194 | a turn that ends aligned ends with a wrapped heading error under 15 degrees |
| Testv8.TurnFrozenWhenStill | testv8.py:164-170 | if the rover does not move during the turn, its heading is never updated and the turn never aligns |
| Testv8.Move | testv8.py:204-219 | `move_to_target` arrives on the first fix under 3 inches, strictly. Every earlier fix was at least 3 away |
| Testv8.TurnThenLeg | testv8.py:213-219 | an aligned turn followed by the forward leg leaves the rover stopped |
| Testv8.MoveEndsStopped | testv8.py:215-219 | after a complete leg or on arrival both throttles are 0 |
| Testv8.ArrivedWithinTolerance | testv8.py:209-212 | with true `hypot` distances, arrival means a squared distance under 9 |
| Testv8.ForwardLegTime | testv8.py:215-219 | each forward leg advances the simulated clock by exactly `distance * 0.54 / 12` |
| Testv8.Rover.constructor | testv8.py:15-18 | the rover starts at (9.7, 12.5) facing 90 degrees, with the ten initial targets |
| Testv8.Rover.UpdateTargets | testv8.py:129-132 | leaves exactly the targets and the raised error `Text.UpdateTargets` describes |
| Testv8.Rover.UpdateDirectionUsingDisplacement | testv8.py:164-170 | the direction is unchanged for a zero displacement |
| Testv8.Rover.TurnToAngle | testv8.py:180-202 | the loop leaves exactly the state `Turn` describes |
| Testv8.Rover.Steer | testv8.py:195-202 | one misaligned pass leaves exactly the state `TurnStep` describes |
| Testv8.Rover.MoveToTarget | testv8.py:204-219 | the loop leaves exactly the state and outcome `Move` describes |
| Testv6.PidController.constructor | testv6.py:58-64 | gains and output limits as given, state reset at the current clock |
| Testv6.PidController.Reset | testv6.py:66-69 | `reset` stamps `last_time` with the clock |
| Testv6.PidController.Compute | testv6.py:71-101 | the new fields and output are those of `PidStep`, with the constructor's `output_limits` |
| Testv6.ComputeTooSoonAfterReset | testv6.py:66-76 | a `compute` less than one sample time after `reset` returns None and changes nothing |
| Testv6.HeadingFromDisplacement | testv6.py:121-126 | None exactly when the displacement is zero, the `atan2` bearing otherwise |
| Testv6.DirectionAfter | testv6.py:129-134 | the direction changes only when a heading exists |
| Testv6.TurnStep | testv6.py:179-197 | an accepted output `o` gives one pulse of `|o| * 0.1` seconds, `(SPEED, -SPEED)` exactly when `o > 0` and `(-SPEED, SPEED)` otherwise. The motors are then 0 and the heading is re-estimated |
| Testv6.Turn | testv6.py:158-197 | the turn adds one pulse per misaligned fix, never moves the position, and stops the motors after any pulse |
| Testv6.TurnAppendsTurnPulses | testv6.py:179-193 | a turn only appends to the pulse log, and every pulse it appends is a full-speed spin of at most 0.1 s |
| Testv6.TurnAlignedWithinTolerance | testv6.py:168-173 | a turn that ends aligned ends with a wrapped error under 15 degrees |
| Testv6.TurnRefusedRightAfterReset | testv6.py:161-179 | right after `reset`, a misaligned first fix read within one sample time gets no PID output, and the turn ends there with nothing changed |
| Testv6.TurnThenLeg | testv6.py:217-223 | an aligned turn and the forward leg of `distance*0.54/12` seconds leave the kit stopped |
| Testv6.Move | testv6.py:200-223 | `move_to_target` arrives on the first fix under 3 inches, strictly. Every earlier fix was at least 3 away |
| Testv6.MoveEndsStopped | testv6.py:217-223 | after a complete leg or on arrival the kit is stopped |
| Testv6.Rover.constructor | testv6.py:26-29 | the rover starts at (9.7, 12.5) facing 90 degrees, with a stopped kit and the PID reset |
| Testv6.Rover.UpdateDirectionUsingDisplacement | testv6.py:129-134 | the direction changes only for a non-zero displacement |
| Testv6.Rover.TurnToAngle | testv6.py:158-197 | the loop leaves exactly the state and outcome `Turn` describes |
| Testv6.Rover.PulseAndReestimate | testv6.py:179-197 | one accepted pass leaves exactly the state `TurnStep` describes |
| Testv6.Rover.MoveToTarget | testv6.py:200-223 | the loop leaves exactly the state and outcome `Move` describes |
| DeepSeekRover.Forward | Testing/deepSEEKRover.py:24-27 | both throttles `speed` |
| DeepSeekRover.Backward | Testing/deepSEEKRover.py:29-32 | both throttles `-speed` |
| DeepSeekRover.Left | Testing/deepSEEKRover.py:34-37 | `(speed, -speed)` |
| DeepSeekRover.Right | Testing/deepSEEKRover.py:39-42 | `(-speed, speed)` |
| DeepSeekRover.DriveMapping | Testing/deepSEEKRover.py:24-47 | forward and backward are straight, left and right are opposite spins, mirror images of each other |
| DeepSeekRover.Turn | Testing/deepSEEKRover.py:95-111 | `turn_to_angle` ends stopped on the first reading within 10 degrees, one pulse per earlier reading |
| DeepSeekRover.TurnPulses | Testing/deepSEEKRover.py:103-111 | each pulse before alignment turns left for a positive normalised error and right otherwise, for 0.1 s |
| DeepSeekRover.TurnAlreadyAligned | Testing/deepSEEKRover.py:103-105 | an aligned first reading stops the motors and issues no pulse |
| DeepSeekRover.SteeringWithinTolerance | Testing/deepSEEKRover.py:141-146 | within 10 degrees the clamp never binds, the throttles sum to `2*SPEED`, lie in `[0.55, 0.95]`, and the left wheel is faster exactly when the error is positive |
| DeepSeekRover.Navigate | Testing/deepSEEKRover.py:118-148 | a target is reached on the first pass within 20 px, with no motion command. Every earlier pass was farther, and the motors are stopped after each forward step |
| DeepSeekRover.NavigateStep | Testing/deepSEEKRover.py:130-148 | an aligned pass adds exactly one steered forward pulse of `STEP_TIME` and stops. A misaligned pass adds only the spins of its turn, each one `STEP_TIME` step, and then re-evaluates from the next pass, or ends there if the turn did not align |
| DeepSeekRover.ReachedWithinTolerance | Testing/deepSEEKRover.py:124-128 | with true `hypot` distances, reaching means the squared pixel distance from the centre is at most 400 |
| DeepSeekRover.Tour | Testing/deepSEEKRover.py:113-151 | `main` never gets past the number of targets, and when every target was reached the motors end stopped |
| DeepSeekRover.TourInOrder | Testing/deepSEEKRover.py:113-151 | `main` visits the targets in order: each target before the count was reached from the kit the one before it left. It stops at the first target not reached, leaving that target's kit. After the last target the motors are stopped |
| DeepSeekRover.TurnToAngle | Testing/deepSEEKRover.py:95-111 | the loop leaves exactly the kit and outcome `Turn` describes |
| DeepSeekRover.SteerForward | Testing/deepSEEKRover.py:141-148 | one steered 0.1 s pulse, then stopped |
| DeepSeekRover.NavigateTo | Testing/deepSEEKRover.py:118-148 | the inner loop leaves exactly the kit and outcome `Navigate` describes |
| DeepSeekRover.RunMain | Testing/deepSEEKRover.py:113-151 | `main` leaves exactly the kit `Tour` describes: stopped only after the last target |
| FinalPiSky.AbsoluteAngle | Autonomous/finalPiSky.py:32-43 | an `atan2` angle is mapped into `[0, 360)` by adding 360 to negatives, keeping its direction |
| FinalPiSky.SignedDifferenceUnwrapped | Autonomous/finalPiSky.py:46-50 | the "signed difference" is not wrapped: -10 and 10 degrees differ by 340 |
| FinalPiSky.IsReadingValid | Autonomous/finalPiSky.py:102-109 | with no previous reading everything is valid. Otherwise a valid reading changed length by at most 20 |
| FinalPiSky.ReadingValidUpToWholeTurns | Autonomous/finalPiSky.py:102-109 | the angle test compares headings modulo 360: adding a whole turn to the new angle changes nothing |
| FinalPiSky.AfterVisit | Autonomous/finalPiSky.py:178-189 | `draw_visuals` drops at most the head waypoint, exactly when both markers are seen and their midpoint is within 20 px of it |
| FinalPiSky.VisitsKeepSuffix | Autonomous/finalPiSky.py:178-189 | over any frames the waypoint list ends as a suffix of the one it started with |
| FinalPiSky.SteeringAngleIsDifference | Autonomous/finalPiSky.py:287-291 | the reference angle is 0, so the action angle is the unwrapped bearing difference |
| FinalPiSky.Decide | Autonomous/finalPiSky.py:276-301 | the checks in order: missing markers give an error, no waypoints give `stop`, within 20 px gives `forward`, an angle over 10 gives `left`, under -10 gives `right`, otherwise `forward` |
| FinalPiSky.WrapAroundTurnsTheLongWay | Autonomous/finalPiSky.py:287-301 | a line only 2 degrees clockwise of the bearing, across the 0/360 seam of `get_absolute_angle` (bearing 1 becomes 1, line -1 becomes 359), is told to turn left by 358 |
| FinalPiSky.Server.constructor | Autonomous/finalPiSky.py:16-23 | no smoothed markers, the built-in waypoint list |
| FinalPiSky.Server.ProcessFrame | Autonomous/finalPiSky.py:111-158 | a failed capture raises in `cv2.flip` before anything changes, so the state is kept. Otherwise each marker is smoothed with its detection |
| FinalPiSky.Server.DrawVisuals | Autonomous/finalPiSky.py:178-189 | the waypoints become `AfterVisit` of the smoothed markers |
| FinalPiSky.Server.GetMarkers | Autonomous/finalPiSky.py:247-263 | a failed capture raises in `cv2.flip` (`MarkersFlipRaises`, a bare HTTP 500) and changes nothing. Otherwise the markers are smoothed and the waypoints popped as `draw_visuals` does. The reply holds both smoothed positions, or is the server error that `center` raises when one is missing |
| FinalPiSky.Server.GetAction | Autonomous/finalPiSky.py:272-303 | a failed capture raises in `cv2.flip` (`FlipRaises`, a bare HTTP 500, not the JSON error reply) and changes nothing. Otherwise the markers are smoothed and the reply is `Decide`'s, with the waypoints untouched |
| FinalRoverWorkFlow.CommandFrame | Autonomous/finalRoverWorkFlow.py:35 | the frame is `[1, (8+ch)<<4, 0]`: the high nibble of byte 1 is `8 + ch` and its low nibble 0 |
| FinalRoverWorkFlow.CommandFrameInjective | Autonomous/finalRoverWorkFlow.py:35 | different channels send different frames |
| FinalRoverWorkFlow.Decode | Autonomous/finalRoverWorkFlow.py:36-37 | `((b1 & 3) << 8) + b2` is always in `[0, 1023]` |
| FinalRoverWorkFlow.DecodeIgnoresOtherBits | Autonomous/finalRoverWorkFlow.py:36 | the decode ignores byte 0 and bits 2-7 of byte 1 |
| FinalRoverWorkFlow.ReplyFor | Autonomous/finalRoverWorkFlow.py:36-37 | the reply a converter sends for a ten-bit sample is three bytes long |
| FinalRoverWorkFlow.ReplyForOfDecode | Autonomous/finalRoverWorkFlow.py:36-37 | decoding then re-encoding keeps exactly the meaningful bits, so the decode loses nothing it reads |
| FinalRoverWorkFlow.Spi.constructor | Autonomous/finalRoverWorkFlow.py:24-26 | no frames sent yet |
| FinalRoverWorkFlow.Spi.ReadAdc | Autonomous/finalRoverWorkFlow.py:32-37 | a channel outside 0..7 gives -1 with no transfer. Otherwise one command frame is sent and the reply is decoded |
| FinalRoverWorkFlow.SensorLog.constructor | Autonomous/finalRoverWorkFlow.py:65 | the log starts as the file on disk |
| FinalRoverWorkFlow.SensorLog.WriteToCsv | Autonomous/finalRoverWorkFlow.py:64-70 | the header goes first when the file is new, then the reading row |
| FinalRoverWorkFlow.LogStep | Autonomous/finalRoverWorkFlow.py:123-130 | with both centre coordinates one MQ2 frame is sent and one reading is logged. Otherwise nothing happens, and the motors are never touched |
| FinalRoverWorkFlow.LogStepAppends | Autonomous/finalRoverWorkFlow.py:123-130 | a pass adds an MQ2 frame and a row exactly when it had a centre |
| FinalRoverWorkFlow.Run | Autonomous/finalRoverWorkFlow.py:113-151 | `main` ends at the first `stop` reply with the motors stopped. Each other reply adds exactly one pulse, and the pulses only grow |
| FinalRoverWorkFlow.RunPulses | Autonomous/finalRoverWorkFlow.py:135-151 | each reply before the `stop` holds its action's throttles for one `STEP_TIME`, so an action not in `forward`, `left` and `right` is a stopped step |
| FinalRoverWorkFlow.RunLogsPositionedPasses | Autonomous/finalRoverWorkFlow.py:123-130 | the SPI bus carries one MQ2 frame per pass that had a centre, and nothing else |
| FinalRoverWorkFlow.RunRowsOnlyGrow | Autonomous/finalRoverWorkFlow.py:64-70 | the CSV rows `main` ends with start with the rows it started with |
| FinalRoverWorkFlow.ReadGasLevel | Autonomous/finalRoverWorkFlow.py:40-41 | MQ2 is on channel 0, so the reading is a decoded sample in `[0, 1023]` from one frame |
| FinalRoverWorkFlow.LogPass | Autonomous/finalRoverWorkFlow.py:123-130 | one pass's logging leaves exactly the state `LogStep` describes |
| FinalRoverWorkFlow.RunMain | Autonomous/finalRoverWorkFlow.py:113-151 | the loop leaves exactly the state `Run` describes |
| GrokRover.Forward | Testing/grokRover.py:16-19 | both throttles `-speed` |
| GrokRover.Backward | Testing/grokRover.py:21-24 | both throttles `+speed` |
| GrokRover.Left | Testing/grokRover.py:26-29 | `(1, -1)` whatever the speed |
| GrokRover.Right | Testing/grokRover.py:31-34 | `(-1, 1)` whatever the speed |
| GrokRover.ThrottlesFor | Testing/grokRover.py:66-78 | `forward` drives straight at `-SPEED`, `left`/`right` spin the matching way, and any other action stops the motors |
| GrokRover.Run | Testing/grokRover.py:56-81 | the loop ends at the first `stop` with the motors stopped. Every earlier reply held its throttles for one step |
| GrokRover.RunPulses | Testing/grokRover.py:66-81 | each step before the `stop` held exactly the throttles of its own reply |
| GrokRover.RunEndsAtFirstStop | Testing/grokRover.py:72-75 | the loop ends at the first `stop`, and only there |
| GrokRover.Dispatch | Testing/grokRover.py:66-78 | the loop ends exactly on `stop`, and the throttles are those of `ThrottlesFor` |
| GrokRover.RunMain | Testing/grokRover.py:56-81 | the loop leaves exactly the kit and outcome `Run` describes |
| Testv4.CornersMap | testv4.py:99-108 | `update_position` maps the top-left pixel to (0, 0), the right edge to the map width and the bottom edge to the map height |
| Testv4.PixelToInchesAffine | testv4.py:99-108 | the map is affine with positive scales and has an inverse |
| Testv4.ForwardTime | testv4.py:114 | the `move_forward` sleep is non-negative for a non-negative distance |
| Testv4.ForwardTimeLinear | testv4.py:114 | a foot takes `TIME_PER_FOOT`, and the time of two legs is the sum of their times |
| Testv4.TurnTime | testv4.py:132 | the `turn_angle` sleep is non-negative and zero only for no turn |
| Testv4.TurnTimeLaws | testv4.py:132 | a full turn takes `TIME_PER_360`, and left and right turns of one size take the same time |
| Testv4.Steering | testv4.py:196-198 | `clamp(0.5*err, -1, 1)`: proportional for errors within 2, saturated beyond |
| Testv4.HeadingErrorWrapped | testv4.py:161-164 | for an `atan2` bearing the wrapped error lies in `[-180, 180]` and is congruent to the raw error |
| Testv4.AdjustHeading | testv4.py:153-169 | `adjust_heading` keeps the magnitude and always ends aligned: at once when within 15 degrees, otherwise after one turn that points exactly at the target |
| Testv4.OneTurnAligns | testv4.py:146-169 | after one turn by the wrapped error, the heading reads back as the target bearing |
| Testv4.Move | testv4.py:171-205 | `move_to_target` arrives on the first fix within 3 inches, keeps the direction, and sleeps 0.1 s per earlier pass |
| Testv4.MoveSteerings | testv4.py:189-198 | every pass before arrival computed the clamped steering of its own wrapped error |
| Testv4.Mission | testv4.py:207-226 | `main` never gets past the number of targets and keeps the direction's magnitude |
| Testv4.LegRun | testv4.py:219-226 | a target reached leaves the rover within tolerance of it, with the direction's magnitude kept |
| Testv4.WorldAt | testv4.py:219-226 | the direction's magnitude is kept from target to target |
| Testv4.MissionInOrder | testv4.py:219-226 | `main` visits the targets in order: each target before the count was reached from the world the one before it left, and ends within tolerance of it. It stops at the first target whose fixes run out, with the world that `move_to_target` left |
| Testv4.ReachedArrives | testv4.py:219-226 | a target reached leaves the rover within 3 inches of it |
| Testv4.Rover.constructor | testv4.py:22-29 | the rover starts at (9.7, 12.5) facing 90 degrees |
| Testv4.Rover.UpdatePosition | testv4.py:91-109 | the position becomes the pixel mapped to inches |
| Testv4.Rover.MoveForward | testv4.py:111-127 | one sleep of the distance's time, then the tracked position |
| Testv4.Rover.TurnAngle | testv4.py:129-150 | one sleep of the turn's time, and the direction rotated by the angle with its magnitude kept |
| Testv4.Rover.AdjustHeadingTo | testv4.py:153-169 | the loop leaves exactly the direction and sleeps `AdjustHeading` describes |
| Testv4.Rover.MovePass | testv4.py:176-202 | one pass takes the tracked position and arrives exactly within tolerance; otherwise it sleeps one step |
| Testv4.Rover.MoveToTarget | testv4.py:171-205 | the loop leaves exactly the state `Move` describes |
| Testv4.Rover.DriveLeg | testv4.py:219-226 | one pass of `main`'s target loop (heading adjustment, then `move_to_target`) leaves exactly the world and arrival `LegRun` describes |
| Testv4.Rover.RunMain | testv4.py:207-226 | `main` leaves exactly the state `Mission` describes after the initial 3-inch probe |
| Testv5.MapSize | testv5.py:22-28 | the box's width and height, and the exit exactly when one of them is not positive |
| Testv5.ScriptMapSize | testv5.py:5-6 | the script's own corners give a 702 x 446 box |
| Testv5.PixelInches | testv5.py:34-35 | pixel 0 maps to 0 inches and the box's far edge to 140 x 90 inches |
| Testv5.PixelInchesMonotone | testv5.py:45-46 | the reading never decreases as the pixel moves right or down, and grows strictly with `x` |
| Testv5.PixelInchesLinear | testv5.py:45-46 | doubling a pixel's offsets doubles its reading |
| AutonomousDriving.MapFacts | Autonomous_Driving_Code.py:46-54 | scales 94/300 and 143/500, the top-left corner at the origin, and the stub pixel at (47, 71.5), the centre of the map |
| AutonomousDriving.CalculateAngle | Autonomous_Driving_Code.py:57-58 | a zero displacement reads as 0 degrees |
| AutonomousDriving.ForwardTime | Autonomous_Driving_Code.py:62 | non-negative, and one foot takes `TIME_PER_FOOT` |
| AutonomousDriving.TurnTime | Autonomous_Driving_Code.py:72 | non-negative, zero only for no turn, and a full turn takes `TIME_PER_360` |
| AutonomousDriving.TurnThrottles | Autonomous_Driving_Code.py:73-78 | a spin at full `SPEED`, with motor 1 forward exactly for a positive angle |
| AutonomousDriving.Steering | Autonomous_Driving_Code.py:131-132 | within `[-1, 1]`, and proportional for errors within 2 |
| AutonomousDriving.SteerThrottles | Autonomous_Driving_Code.py:131-136 | the throttles sum to `2*SPEED`, lie in `[-0.5, 1.5]`, and motor 1 is faster for a positive error |
| AutonomousDriving.Forward | Autonomous_Driving_Code.py:61-68 | both motors at `SPEED` for the distance's time, then stopped, then the stub position |
| AutonomousDriving.Turn | Autonomous_Driving_Code.py:71-81 | the spin for the angle's time, then stopped, position unchanged |
| AutonomousDriving.Adjust | Autonomous_Driving_Code.py:84-103 | `adjust_heading` ends aligned exactly when it ends before the passes run out, and then the rover is stopped at the stub position |
| AutonomousDriving.AdjustStuck | Autonomous_Driving_Code.py:86-103 | with the stub the measured heading is always 0: the loop ends on its first pass for a bearing within 5 degrees of 0, and otherwise never ends, repeating the same drive and turn |
| AutonomousDriving.AdjustPulsePrefix | Autonomous_Driving_Code.py:86-103 | `adjust_heading` only appends to the pulse log |
| AutonomousDriving.Move | Autonomous_Driving_Code.py:106-140 | `move_to_target` arrives, stopped, only within 1 inch. Every earlier pass was farther |
| AutonomousDriving.MovePassSteersByBearing | Autonomous_Driving_Code.py:117-137 | with the stub each pass steers by the bearing alone, whatever the real heading |
| AutonomousDriving.NoTargetReachable | Autonomous_Driving_Code.py:18 | no waypoint is within an inch of the stub position, so `move_to_target` never arrives |
| AutonomousDriving.Mission | Autonomous_Driving_Code.py:143-156 | `main` reaches at most the three targets; with the stub position it reaches no target (`MissionReachesNothing`) |
| AutonomousDriving.MissionReachesNothing | Autonomous_Driving_Code.py:143-156 | with the stub, `main` reaches no target at all |
| AutonomousDriving.Rover.constructor | Autonomous_Driving_Code.py:19 | the rover starts at (0, 0) |
| AutonomousDriving.Rover.UpdatePosition | Autonomous_Driving_Code.py:38-54 | the position becomes the stub pixel mapped to inches |
| AutonomousDriving.Rover.MoveForward | Autonomous_Driving_Code.py:61-68 | leaves exactly the state `Forward` describes |
| AutonomousDriving.Rover.TurnAngle | Autonomous_Driving_Code.py:71-81 | leaves exactly the state `Turn` describes |
| AutonomousDriving.Rover.AdjustHeading | Autonomous_Driving_Code.py:84-103 | the loop leaves exactly the state `Adjust` describes |
| AutonomousDriving.Rover.SteerPass | Autonomous_Driving_Code.py:117-137 | one pass drives 2 inches and holds the steered throttles for 0.1 s |
| AutonomousDriving.Rover.MoveToTarget | Autonomous_Driving_Code.py:106-140 | the loop leaves exactly the state `Move` describes |
| AutonomousDriving.Rover.RunMain | Autonomous_Driving_Code.py:143-156 | `main` leaves exactly the state `Mission` describes |
| DeprecatedDriving.Clean | DEPRECATED/DEPRECATED_Autonomous_Driving_Code.py:84 | the cleaned text is no longer than the input and holds only digits, `.` and `,` |
| DeprecatedDriving.CleanConcat | DEPRECATED/DEPRECATED_Autonomous_Driving_Code.py:84 | the cleanup works character by character |
| DeprecatedDriving.CleanNothingKept | DEPRECATED/DEPRECATED_Autonomous_Driving_Code.py:84 | text with no digit, `.` or `,` cleans to nothing |
| DeprecatedDriving.CleanIdempotent | DEPRECATED/DEPRECATED_Autonomous_Driving_Code.py:84 | cleaning twice is cleaning once |
| DeprecatedDriving.SignDropped | DEPRECATED/DEPRECATED_Autonomous_Driving_Code.py:84 | a `-` sign is dropped, so a negative coordinate reads as its absolute value |
| DeprecatedDriving.StripLeft | DEPRECATED/DEPRECATED_Autonomous_Driving_Code.py:68 | a suffix of the text that does not start with whitespace |
| DeprecatedDriving.StripRight | DEPRECATED/DEPRECATED_Autonomous_Driving_Code.py:68 | a prefix of the text that does not end with whitespace |
| DeprecatedDriving.Strip | DEPRECATED/DEPRECATED_Autonomous_Driving_Code.py:68 | `strip()` leaves no whitespace at either end |
| DeprecatedDriving.CleanStrip | DEPRECATED/DEPRECATED_Autonomous_Driving_Code.py:68 | stripping does not change the cleaned text |
| DeprecatedDriving.RemoveAll | DEPRECATED/DEPRECATED_Autonomous_Driving_Code.py:76 | `replace(pat, '')` never lengthens the text |
| DeprecatedDriving.CleanRemoveAll | DEPRECATED/DEPRECATED_Autonomous_Driving_Code.py:75-76 | removing a pattern that holds no kept character does not change the cleaned text |
| DeprecatedDriving.CoordText | DEPRECATED/DEPRECATED_Autonomous_Driving_Code.py:65-80 | no coordinate text exactly when the paragraph has no comma and there is no div |
| DeprecatedDriving.DivTextCleaned | DEPRECATED/DEPRECATED_Autonomous_Driving_Code.py:73-76 | stripping and removing `Position:` do not change the div's cleaned text |
| DeprecatedDriving.LabelNothingKept | DEPRECATED/DEPRECATED_Autonomous_Driving_Code.py:75-76 | the `Position:` label holds no character the cleanup keeps |
| DeprecatedDriving.CoordTextCleaned | DEPRECATED/DEPRECATED_Autonomous_Driving_Code.py:65-84 | the cleaned coordinate text is that of the chosen element's own text |
| DeprecatedDriving.ParseFloat | DEPRECATED/DEPRECATED_Autonomous_Driving_Code.py:92 | a cleaned piece parses only with at most one dot and at least one digit, to a non-negative number, and a digit string to its value |
| DeprecatedDriving.ReadCoordinates | DEPRECATED/DEPRECATED_Autonomous_Driving_Code.py:84-92 | a reading is accepted only when the cleaned text holds exactly one comma, and both numbers are non-negative |
| DeprecatedDriving.ReadExample | DEPRECATED/DEPRECATED_Autonomous_Driving_Code.py:84-92 | `(-3, 4.5)` reads as (3, 4.5): brackets, spaces and the sign are ignored |
| DeprecatedDriving.CommaCountExample | DEPRECATED/DEPRECATED_Autonomous_Driving_Code.py:87-90 | `12.5` and `1,2,3` are refused |
| DeprecatedDriving.PollOnceUpdates | DEPRECATED/DEPRECATED_Autonomous_Driving_Code.py:52-93 | a response updates the position exactly when it is a 200 reply whose coordinate text reads as two numbers, and then to those numbers |
| DeprecatedDriving.Polls | DEPRECATED/DEPRECATED_Autonomous_Driving_Code.py:51-101 | one outcome per response |
| DeprecatedDriving.TrackAppend | DEPRECATED/DEPRECATED_Autonomous_Driving_Code.py:51-101 | as written, polling one batch and then another is polling both |
| DeprecatedDriving.TrackIsLastUpdate | DEPRECATED/DEPRECATED_Autonomous_Driving_Code.py:51-101 | as written, the loop holds the position of the last response that updated it, or the old one if none did |
| DeprecatedDriving.TrackNonNegative | DEPRECATED/DEPRECATED_Autonomous_Driving_Code.py:84-93 | polling never yields a negative position |
| DeprecatedDriving.PollsAt | DEPRECATED/DEPRECATED_Autonomous_Driving_Code.py:51-101 | each response is polled on its own, in order |
| DeprecatedDriving.FirstUpdate | DEPRECATED/DEPRECATED_Autonomous_Driving_Code.py:51-97 | the first response that updates the position: every one before it failed |
| DeprecatedDriving.FirstUpdateAt | DEPRECATED/DEPRECATED_Autonomous_Driving_Code.py:51-97 | the first update is at `i` when nothing before `i` updated and the response at `i` did |
| DeprecatedDriving.Settle | DEPRECATED/DEPRECATED_Autonomous_Driving_Code.py:51-97 | `update_position` as intended returns exactly when some response updates the position |
| DeprecatedDriving.SettleIsFirstUpdate | DEPRECATED/DEPRECATED_Autonomous_Driving_Code.py:51-97 | the intended call returns exactly when some response reads a position, and then with the first one read |
| DeprecatedDriving.SettleAgreesWithTrack | DEPRECATED/DEPRECATED_Autonomous_Driving_Code.py:51-97 | the intended call returns the position the loop as written holds just after its first update. While nothing updates, both keep the old position |
| DeprecatedDriving.ForwardTime | DEPRECATED/DEPRECATED_Autonomous_Driving_Code.py:106 | non-negative, and a foot takes `TIME_PER_FOOT` |
| DeprecatedDriving.TurnThrottles | DEPRECATED/DEPRECATED_Autonomous_Driving_Code.py:122-127 | both wheels the same way at full `SPEED`, forward exactly for a positive angle |
| DeprecatedDriving.TurnTime | DEPRECATED/DEPRECATED_Autonomous_Driving_Code.py:121 | non-negative, and a full turn takes `TIME_PER_360` |
| DeprecatedDriving.Repeat | DEPRECATED/DEPRECATED_Autonomous_Driving_Code.py:118-134 | `n` copies of the same pulse |
| DeprecatedDriving.AdjustError | DEPRECATED/DEPRECATED_Autonomous_Driving_Code.py:140-146 | the requested turn is congruent to the raw error |
| DeprecatedDriving.AdjustErrorBounded | DEPRECATED/DEPRECATED_Autonomous_Driving_Code.py:143-146 | for two `atan2` angles the requested turn is at most half a turn |
| DeprecatedDriving.Forward | DEPRECATED/DEPRECATED_Autonomous_Driving_Code.py:103-115 | one drive with `(-SPEED, SPEED)` for the distance's time, then stopped. The position is the fix its `update_position` returned, or the dead-reckoned one while that call still polls |
| DeprecatedDriving.Classify | DEPRECATED/DEPRECATED_Autonomous_Driving_Code.py:154-161 | a fetched pass with each response polled |
| DeprecatedDriving.ClassifyAll | DEPRECATED/DEPRECATED_Autonomous_Driving_Code.py:153-161 | one classified pass per fetched pass |
| DeprecatedDriving.Move | DEPRECATED/DEPRECATED_Autonomous_Driving_Code.py:151-163 | `move_to_target` stops, stopped, on the first pass whose `update_position` returned and whose distance is within 50, at the fix that call read. When it ends still polling, the call that has not returned is that pass's first one or the one after its drive |
| DeprecatedDriving.MoveDrivesUntilArrival | DEPRECATED/DEPRECATED_Autonomous_Driving_Code.py:153-161 | every pass before the last read a fix, was farther than 50 and drove once for its whole distance. The last pass drove only if its drive's `update_position` is still polling, and no drive follows a call that has not returned |
| DeprecatedDriving.MoveDrivesFar | DEPRECATED/DEPRECATED_Autonomous_Driving_Code.py:153-161 | every pass before the last read a fix, was farther than 50 and its drive's `update_position` returned |
| DeprecatedDriving.MovePulses | DEPRECATED/DEPRECATED_Autonomous_Driving_Code.py:153-161 | the pulses are one drive per pass before the last, plus the last pass's drive when its `update_position` is still polling |
| DeprecatedDriving.DrivePulses | DEPRECATED/DEPRECATED_Autonomous_Driving_Code.py:153-161 | one pulse per pass |
| DeprecatedDriving.DrivePulsesAt | DEPRECATED/DEPRECATED_Autonomous_Driving_Code.py:161 | each pass drove for the time of its own distance |
| DeprecatedDriving.MoveStopsAt | DEPRECATED/DEPRECATED_Autonomous_Driving_Code.py:154-159 | a pass ends the loop exactly when its `update_position` returned and its distance is within 50 |
| DeprecatedDriving.ArrivesWhenWithinTolerance | DEPRECATED/DEPRECATED_Autonomous_Driving_Code.py:154-159 | with the true `hypot` distance from the fix its `update_position` returned, a pass ends the loop exactly when the rover is within 50 of the target |
| DeprecatedDriving.MoveAsWritten | DEPRECATED/DEPRECATED_Autonomous_Driving_Code.py:48-154 | as written, `move_to_target` never leaves its first `update_position`: it is still polling whatever the page returns, and the motors are never set |
| DeprecatedDriving.AsWrittenNeverArrives | DEPRECATED/DEPRECATED_Autonomous_Driving_Code.py:151-159 | a page placing the rover on the first target stops the intended loop there, while the loop as written is still polling |
| DeprecatedDriving.Rover.constructor | DEPRECATED/DEPRECATED_Autonomous_Driving_Code.py:18-26 | the rover starts at (0, 0) with direction (90, 1) |
| DeprecatedDriving.Rover.UpdatePosition | DEPRECATED/DEPRECATED_Autonomous_Driving_Code.py:48-97 | retries failed responses and returns at the first position read, which is `Settle`'s; while every response fails the position is unchanged |
| DeprecatedDriving.Rover.MoveForward | DEPRECATED/DEPRECATED_Autonomous_Driving_Code.py:103-115 | leaves exactly the state and the returned flag `Forward` describes |
| DeprecatedDriving.Rover.TurnAngle | DEPRECATED/DEPRECATED_Autonomous_Driving_Code.py:117-134 | every pass of the endless loop repeats the same spin, and after a pass the rover is stopped |
| DeprecatedDriving.Rover.AdjustHeading | DEPRECATED/DEPRECATED_Autonomous_Driving_Code.py:138-149 | the turns are all of the same wrapped error |
| DeprecatedDriving.Rover.MoveToTarget | DEPRECATED/DEPRECATED_Autonomous_Driving_Code.py:151-163 | the loop leaves exactly the state and outcome `Move` describes |
| RoverControlling.TargetSpeed | Rover_Controlling_Code.py:22-35 | a target of full speed, minus full speed or 0, positive exactly for the positive key, negative only without it, so the positive key wins |
| RoverControlling.Ramp | Rover_Controlling_Code.py:38-47 | below its target a speed rises by at most the acceleration step, above it falls by at most the deceleration step, never past the target, and a speed at its target is unchanged |
| RoverControlling.Round3 | Rover_Controlling_Code.py:49-50 | `round(x, 3)` is within 0.0005 of `x` |
| RoverControlling.Round3OnGrid | Rover_Controlling_Code.py:49-50 | rounding leaves a speed on the grid of hundredths as it is |
| RoverControlling.RampValid | Rover_Controlling_Code.py:38-47 | ramping a valid speed toward a valid target stays on the grid and within full speed |
| RoverControlling.TargetValid | Rover_Controlling_Code.py:22-35 | every target is valid |
| RoverControlling.StepValid | Rover_Controlling_Code.py:22-50 | from valid speeds one pass is exactly the two ramps, and the speeds stay valid |
| RoverControlling.Run | Rover_Controlling_Code.py:18-64 | the loop ends at the first `esc` with both throttles 0 |
| RoverControlling.RunValid | Rover_Controlling_Code.py:18-64 | speeds that start within full speed on the hundredths grid stay within it and on that grid (the 0.0 start is on it), so every throttle held is within full speed |
| RoverControlling.Controller.constructor | Rover_Controlling_Code.py:15-16 | both speeds start at 0 |
| RoverControlling.Controller.Adjust | Rover_Controlling_Code.py:22-54 | the new speeds are those of one `Step`, written to the motors |
| RoverControlling.Controller.Control | Rover_Controlling_Code.py:18-64 | the loop leaves exactly the state `Run` describes |
| ProdRoverControlling.Press | Production/Prod_Rover_Controlling_Code.py:34-73 | RIGHT or LEFT from `stop` give `(0.75, -0.75)` or `(-0.75, 0.75)` and otherwise change nothing. DOWN always gives `(-1, -1)`, UP `(1, 1)`, and any other key stops |
| ProdRoverControlling.PressConsistent | Production/Prod_Rover_Controlling_Code.py:34-73 | every key keeps the throttles and shown speeds those of `previous_action`, and the motors run exactly when it is not `stop` |
| ProdRoverControlling.Run | Production/Prod_Rover_Controlling_Code.py:21-90 | `q` ends the loop after the stop branch, with the throttles 0 |
| ProdRoverControlling.RunConsistent | Production/Prod_Rover_Controlling_Code.py:21-90 | a consistent state stays consistent all through the loop |
| ProdRoverControlling.RepeatedTurnIgnored | Production/Prod_Rover_Controlling_Code.py:34-73 | holding RIGHT does not restart the turn: a second RIGHT changes nothing. A pass with no key returns to `stop`, and the next RIGHT turns right again |
| ProdRoverControlling.Controller.constructor | Production/Prod_Rover_Controlling_Code.py:15-19 | speeds 0 and `previous_action = 'stop'` |
| ProdRoverControlling.Controller.HandleKey | Production/Prod_Rover_Controlling_Code.py:34-73 | one key leaves exactly the state `Press` describes |
| ProdRoverControlling.Controller.MotorControl | Production/Prod_Rover_Controlling_Code.py:21-90 | the loop leaves exactly the state `Run` describes |
| GrokPiInTheSky.Measure | Testing/grokPiInTheSky.py:94-110 | the overlay exists exactly with both markers, its midpoint is their floor midpoint, and a target vector exists exactly for a valid index, pointing from the midpoint to that target |
| GrokPiInTheSky.MidpointBetween | Testing/grokPiInTheSky.py:94-95 | the midpoint moves with the markers and lies between them |
| GrokPiInTheSky.ReplyTracksDetections | Testing/grokPiInTheSky.py:130-133 | a reply field is None exactly when this frame missed that marker, and a first sighting is reported where it was seen |
| GrokPiInTheSky.Server.constructor | Testing/grokPiInTheSky.py:15-21 | no smoothed markers and no targets |
| GrokPiInTheSky.Server.SetTargets | Testing/grokPiInTheSky.py:36-42 | the posted list replaces the targets, or `[]` without the key |
| GrokPiInTheSky.Server.GetMarkers | Testing/grokPiInTheSky.py:44-133 | a failed capture changes nothing. Otherwise the markers are smoothed, the reply is the smoothed pair and the overlay is `Measure`'s |
| CameraTesting.Waypoints | Testing/CameraTestingCode.py:152-168 | only the head waypoint is removed, and exactly when it is within 20 px |
| CameraTesting.Pass | Testing/CameraTestingCode.py:109-168 | both markers are smoothed. The waypoints change only when both markers are present, the list is non-empty and the head is within 20 px |
| CameraTesting.Run | Testing/CameraTestingCode.py:85-200 | a failed read or `q` ends the loop. Every earlier frame was captured without `q` |
| CameraTesting.RunKeepsSuffix | Testing/CameraTestingCode.py:152-168 | the waypoint list never grows and ends as a suffix of the one it started with |
| CameraTesting.MissingMarkerKeepsWaypoints | Testing/CameraTestingCode.py:109-147 | a frame missing a marker leaves the waypoints alone and forgets that marker |
| CameraTesting.Tracker.constructor | Testing/CameraTestingCode.py:16-26 | no smoothed markers and the example waypoints |
| CameraTesting.Tracker.ProcessFrame | Testing/CameraTestingCode.py:109-168 | one frame leaves exactly the state `Pass` describes |
| CameraTesting.Tracker.MainLoop | Testing/CameraTestingCode.py:85-200 | the loop leaves exactly the state `Run` describes |
| ProdPixelTesting.Resize | Production/Prod_Pixel_Testing.py:14-25 | a wider image gets height 448 and width `floor(448 * aspect)`, any other width 702 and height `floor(702 / aspect)`. Both sides cover 702 x 448 |
| ProdPixelTesting.WiderScalesByHeight | Production/Prod_Pixel_Testing.py:18-21 | the aspect comparison is the cross-product comparison, and `int(448 * aspect)` is the floor of `448 * width / height`, at least 702 |
| ProdPixelTesting.TallerScalesByWidth | Production/Prod_Pixel_Testing.py:22-25 | `int(702 / aspect)` is the floor of `702 * height / width`, at least 448 |
| ProdPixelTesting.CropStart | Production/Prod_Pixel_Testing.py:31-32 | the crop offsets are non-negative, the crop fits, and it is centred to within one pixel |
| ProdPixelTesting.SliceLength | Production/Prod_Pixel_Testing.py:35 | a clamped slice is no longer than the axis or the range |
| ProdPixelTesting.CropIsTarget | Production/Prod_Pixel_Testing.py:18-35 | whatever the image's size the crop is exactly 702 x 448 |
| ProdPixelTesting.CursorInches | Production/Prod_Pixel_Testing.py:38-48 | the origin reads 0 and the crop's far edge the map's 142 x 92 inches |
| ProdPixelTesting.CursorMonotone | Production/Prod_Pixel_Testing.py:38-48 | the reading never decreases as the cursor moves right or down, and the crop's corner reads the full map |
| BrightnessDetector.BoxAround | Camera_Brightness_Detector.py:44-48 | the box's top-left is clamped to 0 and its bottom-right to 320 x 240. Inside those limits it is the 20-pixel square, and past 330 (or 250) its corners are inverted |
| BrightnessDetector.Run | Camera_Brightness_Detector.py:18-59 | the loop exits on the tenth consecutive failure or on `q` after a frame. A successful read resets the counter, and boxes are only appended |
| BrightnessDetector.ExitNeedsConsecutiveFailures | Camera_Brightness_Detector.py:21-30 | the loop gives up only after ten failed reads in a row |
| BrightnessDetector.RunBoxesClamped | Camera_Brightness_Detector.py:44-48 | every box drawn has its corners within the clamp limits |
| BrightnessDetector.Detector.constructor | Camera_Brightness_Detector.py:15-16 | the counter starts at 0 with no boxes |
| BrightnessDetector.Detector.Capture | Camera_Brightness_Detector.py:18-59 | the loop leaves exactly the counter, boxes and exit `Run` describes |

## Left out

- `atan2`, `hypot`, `sqrt`, `degrees`, `sin`, `cos` and `acos` are library calls. Their results enter as parameters. A distance is tied to its squared distance by `IsHypot`. A direction vector is its heading angle, read back through `PrincipalAngle`.
- Float rounding is not modelled. All arithmetic is on exact reals, with Python's `%`, `//` and `int()` written out.
- Camera capture and colour detection are library work over image arrays. They enter as the detected pixels. This covers `cv2`, `find_most_dominant_pixel`, `minMaxLoc` and grey-scale conversion.
- Drawing is outside the model: `putText`, `imshow`, lines and circles, MJPEG streaming, matplotlib plots and sliders. So are the text overlays, the brightness value, and the angle between lines shown by CameraTestingCode.py:171.
- `calculate_angle_between_lines` (Testing/deepSEEKRover.py:80-88, Testing/CameraTestingCode.py:50-63) only feeds a debug print and the display, so it is not modelled. It divides by the product of the two line lengths, and the model does not capture the `ZeroDivisionError` that follows. deepSEEKRover.py:133 calls it only after the tolerance test at line 126 has failed, so the target line is never empty there. The crash comes when the red and blue pixels coincide, which ends `main`. CameraTestingCode.py:171 crashes in both cases: when the midpoint equals the target point, and when the smoothed red and blue points are equal.
- HTTP requests and their retry loops are I/O. They enter as finished replies: actions, marker pairs, centre coordinates, page text. The Flask routes are modelled by what they compute.
- `time.sleep` and `time.monotonic` are I/O. A sleep is logged as a pulse of the throttles held. The clock is a parameter.
- The perspective transform (`cv2.getPerspectiveTransform`, `pixel_to_inches` in the simulators and testv6.py) is a foreign call. Its result enters as the fix in inches.
- `RoverSimulation.advance_time` is not modelled beyond its clock: its kinematics use floating point and trigonometry. So where the rover is after a step is a parameter.
- The DHT11 read is a foreign call and enters as a pair of optional values. `Adafruit_DHT` is never imported (Autonomous/finalRoverWorkFlow.py:20), so the script as written stops with a `NameError` on start-up. The model describes the loop as evidently intended.
- In Rover_Controlling_Code.py, `kit` is commented out (line 6), so the first throttle write (line 53) raises a `NameError`. The model writes to a motor kit as intended.
- Testv6: where `compute` returns None, testv6.py:179 calls `abs(None)` and crashes. The model ends the turn there with the `NoOutput` outcome and no pulse.
- The `center` field of finalPiSky's `/markers` reply (Autonomous/finalPiSky.py:262) adds each marker's own x and y, so its value is not modelled. Where a smoothed marker is None, that line raises a `TypeError`, so a reply holding a None marker is never sent. This is modelled as the `MarkerMissing` reply.
- FinalPiSky.Server.GetAction and FinalPiSky.Server.GetMarkers: on a failed read, `cv2.flip(frame, 1)` at Autonomous/finalPiSky.py:115 raises before the `ret` test at line 118. So the JSON `'Failed to capture frame'` replies at lines 253 and 277 are never sent. `FlipRaises` and `MarkersFlipRaises` stand for that exception, which the client sees as Flask's bare HTTP 500. The model does not capture the error page's text.
- `generate_frames` (Autonomous/finalPiSky.py:227-245) is MJPEG streaming and is not modelled. On a failed read its `process_frame` raises the same `cv2.error`, which ends the stream instead of reaching its `continue`.
- `PointPlotter.py`, the humiture and vibrancy scripts, `flaskCameraTestingCode.py`, test.py, testv2.py, testv3.py and tes.py are not part of this model.
- The `main` for-loops of the three simulators (Testing/Test_roverSim.py:268-273, testv8.py:222-227, testv6.py:227-231) are not modelled as methods. Each only calls `turn_to_angle`/`move_to_target` once per target.
- GUI sliders that reassign the PID gains (Testing/Test_roverSim.py:150-152) are not modelled. The gains are fixed when the controller is built.
- Python's `float()` on a target field is the parameter `toFloat`, with `None` for its `ValueError`. Which strings it accepts is not modelled.
- Endless loops are modelled over finite inputs. This covers `while True` polling, key reading, the frame loops, and the heading loops that the stub position of Autonomous_Driving_Code.py never lets end. What happens after the inputs run out is an explicit outcome, not further behaviour.
- Aliasing between the globals and the objects is not modelled. Each script's globals are the fields of one object.
- Prod_Pixel_Testing.py reaches the image only through its width and height. Pixel contents, the mouse callback and the window are outside the model.
- RoverControlling.Round3: `round(x, 3)` is stated only as being within 0.0005 of `x`, not as its exact ties-to-even result. On the grid of hundredths that the loop keeps, it is proved to be the identity.
- DeprecatedDriving.Rover.TurnAngle: the direction `turn_angle` rotates is not modelled, because no statement after that endless loop can run.
- DeprecatedDriving.Clean: only the ASCII digits `0`-`9` are kept. Python's `isdigit` also keeps other Unicode digits, so `٣,4` keeps its `٣` and `float()` reads it as 3. Such text is not modelled.
- DeprecatedDriving: `main` (DEPRECATED/DEPRECATED_Autonomous_Driving_Code.py:165-180) is not modelled as a method. Its first statement is an `update_position` that never returns as written. Even with the intended call, each target's `adjust_heading` ends in the endless `turn_angle`, so no `move_to_target` ever runs.
- FinalPiSky.IsReadingValid: the angle half of the test is stated only up to whole turns, through `ReadingValidUpToWholeTurns`.
- A `-` inside a coordinate text that does not parse, or Python float parsing beyond digits and one dot (exponents, `inf`), cannot occur after the cleanup and is not modelled.

## Findings

| source | as written | input that shows it | evidently intended | confidence | as-written member | corrected member |
|---|---|---|---|---|---|---|
| DEPRECATED/DEPRECATED_Autonomous_Driving_Code.py:51-101, 154 | `update_position` loops forever, even after it has read a position, so `move_to_target` never gets past line 154 and never drives or arrives | a page that places the rover on the first target, (570, 260): the call as written is still polling | return after the first position read, as the later scripts' `update_position` does (testv4.py:91-110) | not executed | DeprecatedDriving.AsWrittenNeverArrives | DeprecatedDriving.MoveDrivesUntilArrival |
