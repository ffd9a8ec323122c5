/**
 * The L298N driver as a value: the object's fields together with the board it
 * has written to, one member function per method of the C++ class, and the
 * laws that hold of every sequence of calls.  The class in module L298NDriver
 * is proved against these functions.
 */
module L298NModel {
  import opened Hal

  /** The default and largest speed of `forward`/`backward`. */
  const MaxSpeed: Byte := 255
  /** The LEDC carrier that `begin` sets up on ESP32: channel 0, 5 kHz, 8-bit duty. */
  const PwmChannel: nat := 0
  const PwmFrequencyHz: nat := 5000
  const PwmResolutionBits: nat := 8

  /** The driver's private fields and the board they drive. */
  datatype State = State(
    in1: Byte,
    in2: Byte,
    en: Byte,
    hasEnablePin: bool,
    speed: Byte,
    running: bool,
    board: Board)
  {
    /** The pins and the enable-pin flag, fixed at construction, agree with `other`'s. */
    predicate SameWiring(other: State)
    {
      in1 == other.in1 && in2 == other.in2 && en == other.en && hasEnablePin == other.hasEnablePin
    }

    /** `digitalWrite(in1, a); digitalWrite(in2, b)` */
    function Drive(a: Level, b: Level): State
    {
      this.(board := board.DigitalWrite(in1, a).DigitalWrite(in2, b))
    }

    /** `_updateSpeed`: one duty write of the current speed when there is an
        enable pin; without one the enable line is hard-wired high. */
    function UpdateSpeed(): (r: State)
      ensures r.board.duties == board.duties + (if hasEnablePin then [speed] else [])
      ensures r == this.(board := board.(duties := r.board.duties))
    {
      if hasEnablePin then this.(board := board.DutyWrite(speed)) else this
    }

    /** `begin`: direction pins (and the enable pin, if any) become outputs, the
        ESP32 build binds the enable pin to LEDC channel 0, then `stop`. */
    function Begin(): (r: State)
      ensures r.SameWiring(this) && r.speed == 0 && !r.running
      ensures r.board.platform == board.platform
      ensures r.board.outputs == board.outputs + {in1, in2} + (if hasEnablePin then {en} else {})
      ensures r.board.ledc ==
                if hasEnablePin && board.platform == Esp32
                then Some(LedcChannel(PwmChannel, PwmFrequencyHz, PwmResolutionBits, en))
                else board.ledc
      ensures r.board.levels == board.levels[in1 := High][in2 := High]
      ensures r.board.levels[in1] == High && r.board.levels[in2] == High
      ensures r.board.duties == board.duties + (if hasEnablePin then [0] else [])
    {
      var pins := board.PinMode(in1).PinMode(in2);
      var setup :=
        if !hasEnablePin then pins
        else if board.platform == Esp32
        then pins.PinMode(en).LedcAttach(PwmChannel, PwmFrequencyHz, PwmResolutionBits, en)
        else pins.PinMode(en);
      this.(board := setup).Stop()
    }

    /** `forward(v)`: in1 HIGH, in2 LOW, running at speed `v`. */
    function Forward(v: Byte): (r: State)
      ensures r.SameWiring(this) && r.board.SameSetup(board)
      ensures r.speed == v && r.running
      ensures r.board.levels == board.levels[in1 := High][in2 := Low]
      ensures r.board.levels[in2] == Low && (in1 != in2 ==> r.board.levels[in1] == High)
      ensures r.board.duties == board.duties + (if hasEnablePin then [v] else [])
    {
      this.(speed := v, running := true).Drive(High, Low).UpdateSpeed()
    }

    /** `backward(v)`: in1 LOW, in2 HIGH, running at speed `v`. */
    function Backward(v: Byte): (r: State)
      ensures r.SameWiring(this) && r.board.SameSetup(board)
      ensures r.speed == v && r.running
      ensures r.board.levels == board.levels[in1 := Low][in2 := High]
      ensures r.board.levels[in2] == High && (in1 != in2 ==> r.board.levels[in1] == Low)
      ensures r.board.duties == board.duties + (if hasEnablePin then [v] else [])
    {
      this.(speed := v, running := true).Drive(Low, High).UpdateSpeed()
    }

    /** `brake`: both direction pins HIGH (the brake pattern), speed 0, duty 0. */
    function Brake(): (r: State)
      ensures r.SameWiring(this) && r.board.SameSetup(board)
      ensures r.speed == 0 && !r.running
      ensures r.board.levels == board.levels[in1 := High][in2 := High]
      ensures r.board.levels[in1] == High && r.board.levels[in2] == High
      ensures r.board.duties == board.duties + (if hasEnablePin then [0] else [])
    {
      this.(running := false, speed := 0).Drive(High, High).UpdateSpeed()
    }

    /** `coast`: both direction pins LOW (free spin-down), speed 0, duty 0. */
    function Coast(): (r: State)
      ensures r.SameWiring(this) && r.board.SameSetup(board)
      ensures r.speed == 0 && !r.running
      ensures r.board.levels == board.levels[in1 := Low][in2 := Low]
      ensures r.board.levels[in1] == Low && r.board.levels[in2] == Low
      ensures r.board.duties == board.duties + (if hasEnablePin then [0] else [])
    {
      this.(running := false, speed := 0).Drive(Low, Low).UpdateSpeed()
    }

    /** `stop`: the default stop is `brake`; it never leaves the coast pin pattern. */
    function Stop(): (r: State)
      ensures r == Brake()
      ensures r.board.levels[in2] != Coast().board.levels[in2]
    {
      Brake()
    }

    /** `setSpeed(v)`: records `v`; the duty is written only while running. */
    function SetSpeed(v: Byte): (r: State)
      ensures r.SameWiring(this) && r.board.SameSetup(board)
      ensures r.speed == v && r.running == running
      ensures r.board.levels == board.levels
      ensures r.board.duties == board.duties + (if running && hasEnablePin then [v] else [])
    {
      var staged := this.(speed := v);
      if running then staged.UpdateSpeed() else staged
    }
  }

  /** The 3-argument constructor: speed 255, not running, with an enable pin. */
  function WithEnablePin(in1: Byte, in2: Byte, en: Byte, board: Board): (r: State)
    ensures r.in1 == in1 && r.in2 == in2 && r.en == en && r.hasEnablePin
    ensures r.speed == MaxSpeed && !r.running && r.board == board
  {
    State(in1, in2, en, true, MaxSpeed, false, board)
  }

  /** The 2-argument constructor: `_en` is 0 and unused. */
  function WithoutEnablePin(in1: Byte, in2: Byte, board: Board): (r: State)
    ensures r.in1 == in1 && r.in2 == in2 && r.en == 0 && !r.hasEnablePin
    ensures r.speed == MaxSpeed && !r.running && r.board == board
  {
    State(in1, in2, 0, false, MaxSpeed, false, board)
  }

  // ---------------------------------------------------------------------------
  // What the pins say about the motor

  /** The bridge posture that the two direction pins select. */
  datatype Posture = Unset | Ahead | Astern | Braked | Coasting

  function PostureOf(s: State): Posture
  {
    var levels := s.board.levels;
    if s.in1 !in levels || s.in2 !in levels then Unset
    else match (levels[s.in1], levels[s.in2])
      case (High, Low) => Ahead
      case (Low, High) => Astern
      case (High, High) => Braked
      case (Low, Low) => Coasting
  }

  /** The duty on the chip's enable input: the last duty written when the
      driver owns an enable pin, full duty when the line is wired to Vcc. */
  function EnableLine(s: State): Option<Byte>
  {
    if !s.hasEnablePin then Some(MaxSpeed)
    else if s.board.duties == [] then None
    else Some(s.board.duties[|s.board.duties| - 1])
  }

  /** The two direction pins are different pins, and the enable pin, when
      there is one, is neither of them. */
  predicate DistinctPins(s: State)
  {
    s.in1 != s.in2 && (s.hasEnablePin ==> s.en != s.in1 && s.en != s.in2)
  }

  /** The invariant that `begin` establishes on distinct pins: the running
      flag says whether the pins select a direction, and the enable line
      carries the speed while running and 0 while stopped. */
  predicate Consistent(s: State)
  {
    && DistinctPins(s)
    && !PostureOf(s).Unset?
    && (s.running <==> PostureOf(s).Ahead? || PostureOf(s).Astern?)
    && EnableLine(s) == Some(if !s.hasEnablePin then MaxSpeed else if s.running then s.speed else 0)
  }

  // ---------------------------------------------------------------------------
  // Sequences of calls

  /** A call of one of the driver's mutators. */
  datatype Op = Begin | Forward(speed: Byte) | Backward(speed: Byte) | Brake | Coast | Stop | SetSpeed(speed: Byte)

  function Step(s: State, op: Op): (r: State)
    ensures r.SameWiring(s) && r.board.platform == s.board.platform
    ensures s.board.duties <= r.board.duties && |r.board.duties| <= |s.board.duties| + 1
  {
    match op
    case Begin => s.Begin()
    case Forward(v) => s.Forward(v)
    case Backward(v) => s.Backward(v)
    case Brake => s.Brake()
    case Coast => s.Coast()
    case Stop => s.Stop()
    case SetSpeed(v) => s.SetSpeed(v)
  }

  /** The state after the calls `ops`, in order. */
  function Run(s: State, ops: seq<Op>): (r: State)
    ensures r.SameWiring(s) && r.board.platform == s.board.platform
    ensures s.board.duties <= r.board.duties && |r.board.duties| <= |s.board.duties| + |ops|
    decreases |ops|
  {
    if ops == [] then s else Run(Step(s, ops[0]), ops[1..])
  }

  lemma {:induction false} RunSnoc(s: State, ops: seq<Op>, op: Op)
    ensures Run(s, ops + [op]) == Step(Run(s, ops), op)
    decreases |ops|
  {
    if ops != [] {
      assert (ops + [op])[1..] == ops[1..] + [op];
      RunSnoc(Step(s, ops[0]), ops[1..], op);
    }
  }

  lemma StepPreservesConsistent(s: State, op: Op)
    requires Consistent(s)
    ensures Consistent(Step(s, op))
  {
  }

  /** `begin` leaves any driver on distinct pins braked and consistent. */
  lemma BeginEstablishesConsistent(s: State)
    requires DistinctPins(s)
    ensures Consistent(s.Begin()) && PostureOf(s.Begin()).Braked?
  {
  }

  lemma {:induction false} RunPreservesConsistent(s: State, ops: seq<Op>)
    requires Consistent(s)
    ensures Consistent(Run(s, ops))
    decreases |ops|
  {
    if ops != [] {
      StepPreservesConsistent(s, ops[0]);
      RunPreservesConsistent(Step(s, ops[0]), ops[1..]);
    }
  }

  /** After `begin`, whatever the caller does next, `isRunning` holds exactly
      when the two direction pins are at different levels. */
  lemma RunningIffPinsDifferAfterBegin(s: State, ops: seq<Op>)
    requires DistinctPins(s)
    ensures var r := Run(s, [Begin] + ops);
      s.in1 in r.board.levels && s.in2 in r.board.levels &&
      (r.running <==> r.board.levels[s.in1] != r.board.levels[s.in2])
  {
    assert ([Begin] + ops)[1..] == ops;
    BeginEstablishesConsistent(s);
    RunPreservesConsistent(s.Begin(), ops);
  }

  /** A driver built without an enable pin never writes a duty, whatever it is asked. */
  lemma {:induction false} NoEnablePinNeverWritesDuty(s: State, ops: seq<Op>)
    requires !s.hasEnablePin
    ensures Run(s, ops).board.duties == s.board.duties
    decreases |ops|
  {
    if ops != [] {
      NoEnablePinNeverWritesDuty(Step(s, ops[0]), ops[1..]);
    }
  }

  /** `a` and `b` are the same command, whatever speeds they carry. */
  predicate SameCommand(a: Op, b: Op)
  {
    match (a, b)
    case (Forward(_), Forward(_)) => true
    case (Backward(_), Backward(_)) => true
    case (SetSpeed(_), SetSpeed(_)) => true
    case _ => a == b
  }

  /** Without an enable pin the speed has no effect on the hardware: from
      states that differ only in their speed setting, two call sequences that
      differ only in their speed arguments reach the same board, the same
      running flag and the same wiring; only the speed setting may differ. */
  lemma {:induction false} SpeedIrrelevantWithoutEnablePin(s: State, t: State, ops: seq<Op>, ops': seq<Op>)
    requires !s.hasEnablePin && t == s.(speed := t.speed)
    requires |ops| == |ops'| && forall i | 0 <= i < |ops| :: SameCommand(ops[i], ops'[i])
    ensures Run(t, ops') == Run(s, ops).(speed := Run(t, ops').speed)
    decreases |ops|
  {
    if ops != [] {
      assert SameCommand(ops[0], ops'[0]);
      assert forall i | 0 <= i < |ops| - 1 :: SameCommand(ops[1..][i], ops'[1..][i]) by {
        forall i | 0 <= i < |ops| - 1 ensures SameCommand(ops[1..][i], ops'[1..][i]) {
          assert ops[1..][i] == ops[i + 1] && ops'[1..][i] == ops'[i + 1];
        }
      }
      SpeedIrrelevantWithoutEnablePin(Step(s, ops[0]), Step(t, ops'[0]), ops[1..], ops'[1..]);
    }
  }

  /** The last call that is not a `setSpeed`, if any. */
  function LastMove(ops: seq<Op>): (m: Option<Op>)
    ensures m.Some? ==> !m.value.SetSpeed?
    decreases |ops|
  {
    if ops == [] then None
    else if ops[|ops| - 1].SetSpeed? then LastMove(ops[..|ops| - 1])
    else Some(ops[|ops| - 1])
  }

  /** The running flag after any calls is decided by the last call other than
      `setSpeed`: running after `forward`/`backward`, stopped after the rest. */
  lemma {:induction false} RunningFollowsLastMove(s: State, ops: seq<Op>)
    ensures Run(s, ops).running ==
              match LastMove(ops)
              case None => s.running
              case Some(op) => op.Forward? || op.Backward?
    decreases |ops|
  {
    if ops != [] {
      var init, last := ops[..|ops| - 1], ops[|ops| - 1];
      assert ops == init + [last];
      RunSnoc(s, init, last);
      RunningFollowsLastMove(s, init);
    }
  }

  /** The speed setting after any calls: the argument of the last call that
      takes one, 0 after a stop, the initial setting if nothing was called. */
  function SpeedAfter(initial: Byte, ops: seq<Op>): Byte
  {
    if ops == [] then initial
    else match ops[|ops| - 1]
      case Forward(v) => v
      case Backward(v) => v
      case SetSpeed(v) => v
      case _ => 0
  }

  lemma {:induction false} SpeedFollowsLastCall(s: State, ops: seq<Op>)
    ensures Run(s, ops).speed == SpeedAfter(s.speed, ops)
  {
    if ops != [] {
      var init, last := ops[..|ops| - 1], ops[|ops| - 1];
      assert ops == init + [last];
      RunSnoc(s, init, last);
    }
  }

  /** Lazy apply: while stopped, any number of `setSpeed` calls touch no pin
      and write no duty; they only stage the speed. */
  lemma {:induction false} StagedSpeedsAreSilent(s: State, ops: seq<Op>)
    requires !s.running
    requires forall i | 0 <= i < |ops| :: ops[i].SetSpeed?
    ensures Run(s, ops).board == s.board && !Run(s, ops).running
    ensures ops != [] ==> Run(s, ops).speed == ops[|ops| - 1].speed
    decreases |ops|
  {
    if ops != [] {
      StagedSpeedsAreSilent(Step(s, ops[0]), ops[1..]);
      if |ops| > 1 {
        assert ops[1..][|ops| - 2] == ops[|ops| - 1];
      }
    }
  }

  /** A speed staged while stopped is overridden by the argument of the next
      `forward`/`backward`: the staging leaves no trace. */
  lemma StagedSpeedOverridden(s: State, staged: Byte, v: Byte)
    requires !s.running
    ensures s.SetSpeed(staged).Forward(v) == s.Forward(v)
    ensures s.SetSpeed(staged).Backward(v) == s.Backward(v)
  {
  }

  /** `backward` has the same effect as `forward` but with the direction pins swapped. */
  lemma BackwardMirrorsForward(s: State, v: Byte)
    ensures var f, b := s.Forward(v), s.Backward(v);
      b == f.(board := f.board.(levels := s.board.levels[s.in1 := Low][s.in2 := High]))
  {
  }

  /** Direction polarity: on distinct pins the four commands select four
      different pin patterns, and `stop` selects the brake pattern, not the
      coast one. */
  lemma PolarityLaw(s: State, v: Byte, w: Byte)
    requires DistinctPins(s)
    ensures PostureOf(s.Forward(v)).Ahead?
    ensures PostureOf(s.Backward(w)).Astern?
    ensures PostureOf(s.Brake()).Braked? && PostureOf(s.Stop()).Braked?
    ensures PostureOf(s.Coast()).Coasting?
  {
  }
}
