/**
 * Call sequences taken from the example sketches, checked against the
 * driver's contracts alone: what each one writes to the board.
 */
module Sketches {
  import opened Hal
  import opened L298NDriver

  /** The speeds `setSpeed` receives in the basic sketch's ramp: 50, 60, ..., 50 + 10 * (n - 1). */
  function Ramp(n: nat): (r: seq<Byte>)
    requires n <= 21
    ensures |r| == n && forall i | 0 <= i < n :: r[i] == 50 + 10 * i
  {
    seq(n, i requires 0 <= i < n => 50 + 10 * i)
  }

  /** The basic ESP32 sketch: `setup` and one pass of `loop` with the enable
      pin on GPIO 32.  Every duty of the pass reaches the LEDC channel, and the
      driver reports running at each step of the speed ramp. */
  method BasicSketchCycle() returns (board: Board, runningThroughRamp: bool)
    ensures board.ledc == Some(LedcChannel(0, 5000, 8, 32))
    ensures board.outputs == {33, 25, 32}
    ensures board.duties == [0, 255, 128, 0, 255, 192, 0, 50] + Ramp(21) + [0]
    ensures board.levels == map[33 := High, 25 := High]
    ensures runningThroughRamp
  {
    var motor := new L298N(33, 25, 32, PowerOn(Esp32));
    motor.Begin();
    assert motor.board == Board(Esp32, {33, 25, 32}, map[33 := High, 25 := High],
                                Some(LedcChannel(0, 5000, 8, 32)), [0]);
    BasicSketchMoves(motor);
    runningThroughRamp := BasicSketchRamp(motor);
    motor.Stop();
    board := motor.board;
  }

  /** The basic sketch's moves up to the ramp: full and half speed ahead,
      brake, full and 75% speed astern, coast, then ahead at 50. */
  method BasicSketchMoves(motor: L298N)
    requires motor.hasEnablePin && motor.in1 == 33 && motor.in2 == 25
    modifies motor
    ensures motor.board == old(motor.board).(levels := old(motor.board.levels)[33 := High][25 := Low],
                                             duties := old(motor.board.duties) + [255, 128, 0, 255, 192, 0, 50])
    ensures motor.running
  {
    motor.Forward(255);
    motor.Forward(128);
    motor.Brake();
    motor.Backward(255);
    motor.Backward(192);
    motor.Coast();
    motor.Forward(50);
  }

  /** The ramp: `setSpeed(v)` for v = 50, 60, ..., 250 while running, reading
      `isRunning` after each call. */
  method BasicSketchRamp(motor: L298N) returns (runningThroughRamp: bool)
    requires motor.hasEnablePin && motor.running
    modifies motor
    ensures motor.board == old(motor.board).(duties := old(motor.board.duties) + Ramp(21))
    ensures motor.running && runningThroughRamp
  {
    var v: int := 50;
    runningThroughRamp := true;
    while v <= 255
      invariant 50 <= v <= 260 && (v - 50) % 10 == 0
      invariant motor.running && runningThroughRamp
      invariant motor.board == old(motor.board).(duties := old(motor.board.duties) + Ramp((v - 50) / 10))
    {
      motor.SetSpeed(v);
      runningThroughRamp := runningThroughRamp && motor.IsRunning();
      assert Ramp((v - 50) / 10) + [v] == Ramp((v + 10 - 50) / 10);
      v := v + 10;
    }
  }

  /** Lazy apply, end to end: a speed set while running reaches the line at
      once, a speed staged after `coast` reaches nothing, and the next
      `forward` uses its own argument. */
  method LazyApplyScenario() returns (board: Board, staged: Byte)
    ensures board.duties == [0, 200, 100, 0, 255]
    ensures board.levels == map[2 := High, 3 := Low]
    ensures staged == 50
  {
    var motor := new L298N(2, 3, 4, PowerOn(Generic));
    motor.Begin();
    assert motor.board.levels == map[2 := High, 3 := High];
    motor.Forward(200);
    motor.SetSpeed(100);
    motor.Coast();
    motor.SetSpeed(50);
    staged := motor.GetSpeed();
    motor.Forward();
    board := motor.board;
  }

  /** A driver without an enable pin: commands move the direction pins only,
      and no duty is ever written. */
  method ReducedModeScenario() returns (board: Board, speed: Byte, running: bool)
    ensures board.duties == [] && board.ledc == None
    ensures board.outputs == {33, 25}
    ensures board.levels == map[33 := Low, 25 := High]
    ensures speed == 20 && running
  {
    var motor := new L298N.WithoutEnablePin(33, 25, PowerOn(Esp32));
    motor.Begin();
    motor.Forward(100);
    motor.SetSpeed(20);
    motor.Backward(motor.GetSpeed());
    speed, running := motor.GetSpeed(), motor.IsRunning();
    board := motor.board;
  }
}
