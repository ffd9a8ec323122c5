/**
 * Stand-ins for the Arduino / ESP32 calls the L298N driver makes: `pinMode`,
 * `digitalWrite`, `ledcSetup` + `ledcAttachPin`, and the PWM duty write
 * (`ledcWrite` on ESP32, `analogWrite` elsewhere).  Nothing here has
 * electrical meaning: every call is recorded on a `Board` value, so that what
 * the driver did to the hardware can be stated and proved.
 */
module Hal {

  /** `uint8_t`: pin numbers, speeds and 8-bit duty values. */
  type Byte = x: int | 0 <= x < 256

  datatype Option<+T> = None | Some(value: T)

  /** A digital output level. */
  datatype Level = Low | High

  /** The build target that `#ifdef ESP32` selects. */
  datatype Platform = Esp32 | Generic

  /** An LEDC channel configured by `ledcSetup(channel, frequencyHz, resolutionBits)`
      with `pin` attached to it by `ledcAttachPin`. */
  datatype LedcChannel = LedcChannel(channel: nat, frequencyHz: nat, resolutionBits: nat, pin: Byte)

  /** What the driver has done to the board so far. */
  datatype Board = Board(
    platform: Platform,         // fixed by the build
    outputs: set<Byte>,         // pins put in OUTPUT mode
    levels: map<Byte, Level>,   // the last level written to each digital pin
    ledc: Option<LedcChannel>,  // the LEDC channel set up for the enable pin, if any
    duties: seq<Byte>)          // every PWM duty written to the enable line, oldest first
  {
    /** `pinMode(pin, OUTPUT)` */
    function PinMode(pin: Byte): Board
    {
      this.(outputs := outputs + {pin})
    }

    /** `digitalWrite(pin, level)` */
    function DigitalWrite(pin: Byte, level: Level): Board
    {
      this.(levels := levels[pin := level])
    }

    /** `ledcSetup(channel, frequencyHz, resolutionBits)` followed by `ledcAttachPin(pin, channel)` */
    function LedcAttach(channel: nat, frequencyHz: nat, resolutionBits: nat, pin: Byte): Board
    {
      this.(ledc := Some(LedcChannel(channel, frequencyHz, resolutionBits, pin)))
    }

    /** One duty write on the enable line, whichever backend the build uses. */
    function DutyWrite(duty: Byte): Board
    {
      this.(duties := duties + [duty])
    }

    /** Everything but the pin levels and the duty log is as in `other`. */
    predicate SameSetup(other: Board)
    {
      platform == other.platform && outputs == other.outputs && ledc == other.ledc
    }
  }

  /** A board on which the driver has done nothing yet. */
  function PowerOn(platform: Platform): Board
  {
    Board(platform, {}, map[], None, [])
  }
}
