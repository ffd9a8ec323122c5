/**
 * The `L298N` class: two direction pins, an optional PWM enable pin, a speed
 * byte and a running flag, updated in place by `void` methods that then write
 * the pins.  Each method is proved to do what the matching function of
 * L298NModel.State does, so every law proved there holds of the object.
 */
module L298NDriver {
  import opened Hal
  import L298NModel

  class L298N {
    const in1: Byte
    const in2: Byte
    const en: Byte
    const hasEnablePin: bool
    var speed: Byte
    var running: bool
    /** The board this driver writes to, standing in for the pin and PWM hardware. */
    var board: Board

    /** The object's fields as a value of the model. */
    function Model(): (m: L298NModel.State)
      reads this
    {
      L298NModel.State(in1, in2, en, hasEnablePin, speed, running, board)
    }

    /** Driver with an enable pin: PWM speed control is available. */
    constructor (in1: Byte, in2: Byte, en: Byte, board: Board)
      ensures this.in1 == in1 && this.in2 == in2 && this.en == en && hasEnablePin
      ensures speed == L298NModel.MaxSpeed && !running && this.board == board
      ensures Model() == L298NModel.WithEnablePin(in1, in2, en, board)
    {
      this.in1, this.in2, this.en, hasEnablePin := in1, in2, en, true;
      speed, running := 255, false;
      this.board := board;
    }

    /** Driver without an enable pin: the enable line is wired high, so a
        moving motor always runs at full speed. */
    constructor WithoutEnablePin(in1: Byte, in2: Byte, board: Board)
      ensures this.in1 == in1 && this.in2 == in2 && en == 0 && !hasEnablePin
      ensures speed == L298NModel.MaxSpeed && !running && this.board == board
      ensures Model() == L298NModel.WithoutEnablePin(in1, in2, board)
    {
      this.in1, this.in2, en, hasEnablePin := in1, in2, 0, false;
      speed, running := 255, false;
      this.board := board;
    }

    method Begin()
      modifies this
      ensures Model() == old(Model()).Begin()
      ensures speed == 0 && !running
      ensures board.levels == old(board.levels)[in1 := High][in2 := High]
      ensures board.duties == old(board.duties) + (if hasEnablePin then [0] else [])
    {
      board := board.PinMode(in1);
      board := board.PinMode(in2);
      if hasEnablePin {
        board := board.PinMode(en);
        if board.platform == Esp32 {
          board := board.LedcAttach(L298NModel.PwmChannel, L298NModel.PwmFrequencyHz,
                                    L298NModel.PwmResolutionBits, en);
        }
      }
      Stop();
    }

    method Forward(v: Byte := 255)
      modifies this
      ensures Model() == old(Model()).Forward(v)
      ensures speed == v && running
      ensures board.levels == old(board.levels)[in1 := High][in2 := Low]
      ensures board.duties == old(board.duties) + (if hasEnablePin then [v] else [])
    {
      speed := v;
      running := true;
      board := board.DigitalWrite(in1, High);
      board := board.DigitalWrite(in2, Low);
      UpdateSpeed();
    }

    method Backward(v: Byte := 255)
      modifies this
      ensures Model() == old(Model()).Backward(v)
      ensures speed == v && running
      ensures board.levels == old(board.levels)[in1 := Low][in2 := High]
      ensures board.duties == old(board.duties) + (if hasEnablePin then [v] else [])
    {
      speed := v;
      running := true;
      board := board.DigitalWrite(in1, Low);
      board := board.DigitalWrite(in2, High);
      UpdateSpeed();
    }

    method Brake()
      modifies this
      ensures Model() == old(Model()).Brake()
      ensures speed == 0 && !running
      ensures board.levels == old(board.levels)[in1 := High][in2 := High]
      ensures board.duties == old(board.duties) + (if hasEnablePin then [0] else [])
    {
      running := false;
      speed := 0;
      board := board.DigitalWrite(in1, High);
      board := board.DigitalWrite(in2, High);
      UpdateSpeed();
    }

    method Coast()
      modifies this
      ensures Model() == old(Model()).Coast()
      ensures speed == 0 && !running
      ensures board.levels == old(board.levels)[in1 := Low][in2 := Low]
      ensures board.duties == old(board.duties) + (if hasEnablePin then [0] else [])
    {
      running := false;
      speed := 0;
      board := board.DigitalWrite(in1, Low);
      board := board.DigitalWrite(in2, Low);
      UpdateSpeed();
    }

    /** The default stop: active braking, exactly as `Brake`. */
    method Stop()
      modifies this
      ensures Model() == old(Model()).Brake()
      ensures speed == 0 && !running
      ensures board.levels == old(board.levels)[in1 := High][in2 := High]
      ensures board.duties == old(board.duties) + (if hasEnablePin then [0] else [])
    {
      Brake();
    }

    method SetSpeed(v: Byte)
      modifies this
      ensures Model() == old(Model()).SetSpeed(v)
      ensures speed == v && running == old(running) && board.levels == old(board.levels)
      ensures board.duties == old(board.duties) + (if running && hasEnablePin then [v] else [])
    {
      speed := v;
      if running {
        UpdateSpeed();
      }
    }

    /** The speed setting; once `begin` has run, it is the duty on the enable
        line whenever the motor is running with an enable pin. */
    function GetSpeed(): (r: Byte)
      reads this
      ensures r == Model().speed
      ensures L298NModel.Consistent(Model()) && running && hasEnablePin ==>
                L298NModel.EnableLine(Model()) == Some(r)
    {
      speed
    }

    /** Whether the motor was last told to move; once `begin` has run, true
        exactly when the direction pins select a direction. */
    function IsRunning(): (r: bool)
      reads this
      ensures r == Model().running
      ensures L298NModel.Consistent(Model()) ==>
                (r <==> L298NModel.PostureOf(Model()).Ahead? || L298NModel.PostureOf(Model()).Astern?)
    {
      running
    }

    /** `_updateSpeed`: pushes the speed to the PWM backend when there is an enable pin. */
    method UpdateSpeed()
      modifies this`board
      ensures Model() == old(Model()).UpdateSpeed()
    {
      if hasEnablePin {
        board := board.DutyWrite(speed);
      }
    }
  }
}
