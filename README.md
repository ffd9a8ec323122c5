# L298N motor driver, modelled and verified in Dafny

This project models the `L298N` Arduino/ESP32 driver class. The class drives one DC motor through an
L298N H-bridge. Two direction pins (`in1`, `in2`) select the posture: forward, backward, active brake or
coast. An optional enable pin (`en`) carries a PWM duty that sets the speed. The object keeps a speed
byte and a running flag, and every command writes the pins and pushes the speed to the PWM backend.

Files:

- `hal.dfy` (module `Hal`): the hardware calls the driver makes, recorded on a `Board` value. A `Board`
  holds the pins in OUTPUT mode, the last level of each digital pin, the LEDC channel set up for the
  enable pin, and the log of duty writes. `Byte` stands for `uint8_t`.
- `l298n_model.dfy` (module `L298NModel`): the driver as a value `State`, with one member function
  per C++ method. It also has the posture the pins select (`PostureOf`), the duty on the chip's enable
  input (`EnableLine`), the invariant `begin` establishes (`Consistent`), call sequences (`Op`,
  `Step`, `Run`) and the laws that hold for every sequence of calls.
- `l298n.dfy` (module `L298NDriver`): the class `L298N` with the same fields. The pin and enable-pin
  flag fields are `const`; `speed`, `running` and `board` are updated in place. Every method ensures
  `Model() == old(Model()).<Op>(...)`, so the laws of `L298NModel` hold of the object.
- `sketches.dfy` (module `Sketches`): the basic example sketch's calls, plus two scenarios, one for
  lazy apply and one for a driver without an enable pin. All are checked against the driver's
  contracts alone.

## Model

| member | source | states |
|---|---|---|
| `L298NDriver.L298N.constructor` | src/l298n.cpp:3-6 | speed 255, not running, enable pin present, pins as given, nothing written to the board |
| `L298NDriver.L298N.WithoutEnablePin` | src/l298n.cpp:8-11 | speed 255, not running, no enable pin, `en` is 0, nothing written to the board |
| `L298NDriver.L298N.Begin` | src/l298n.cpp:13-32 | the object ends as `State.Begin` says: braked, speed 0, both direction pins HIGH, duty 0 written exactly when an enable pin exists |
| `L298NDriver.L298N.Forward` | src/l298n.cpp:34-44 | speed becomes `v` (default 255) and running; in1 HIGH then in2 LOW; one duty write of `v` exactly when an enable pin exists |
| `L298NDriver.L298N.Backward` | src/l298n.cpp:46-56 | as `Forward` with the opposite polarity: in1 LOW, in2 HIGH |
| `L298NDriver.L298N.Brake` | src/l298n.cpp:58-68 | from any state: speed 0, not running, both pins HIGH, duty 0 written exactly when an enable pin exists |
| `L298NDriver.L298N.Coast` | src/l298n.cpp:70-80 | from any state: speed 0, not running, both pins LOW, duty 0 written exactly when an enable pin exists |
| `L298NDriver.L298N.Stop` | src/l298n.cpp:82-85 | the new state is exactly the one `Brake` produces, from the same old state |
| `L298NDriver.L298N.SetSpeed` | src/l298n.cpp:87-94 | speed becomes `v`; running flag and pin levels unchanged; duty `v` written only when running with an enable pin |
| `L298NDriver.L298N.GetSpeed` | src/l298n.cpp:96-98 | returns the speed setting without changing anything; after `begin`, while running with an enable pin it is the duty on the enable line |
| `L298NDriver.L298N.IsRunning` | src/l298n.cpp:100-102 | returns the running flag without changing anything; after `begin`, true exactly when the pins select forward or backward |
| `L298NDriver.L298N.UpdateSpeed` | src/l298n.cpp:104-115 | one duty write of the current speed when an enable pin exists, none otherwise; nothing else changes |
| `L298NModel.WithEnablePin` | src/l298n.cpp:3-6 | the 3-argument constructor's state: pins as given, enable pin present, speed 255, not running, board untouched |
| `L298NModel.WithoutEnablePin` | src/l298n.cpp:8-11 | the 2-argument constructor's state: pins as given, `en` 0, no enable pin, speed 255, not running, board untouched |
| `L298NModel.State.UpdateSpeed` | src/l298n.cpp:104-115 | the duty log grows by the current speed exactly when an enable pin exists; no other part of the state changes |
| `L298NModel.State.Begin` | src/l298n.cpp:13-32 | direction pins become outputs, and so does the enable pin when present; on ESP32 the enable pin is bound to LEDC channel 0 at 5000 Hz and 8 bits; then braked: speed 0, not running, both pins HIGH, duty 0 iff an enable pin exists |
| `L298NModel.State.Forward` | src/l298n.cpp:34-44 | speed `v`, running, in2 LOW and in1 HIGH on distinct pins, duty `v` appended iff an enable pin exists, wiring and setup unchanged |
| `L298NModel.State.Backward` | src/l298n.cpp:46-56 | speed `v`, running, in2 HIGH and in1 LOW on distinct pins, duty `v` appended iff an enable pin exists |
| `L298NModel.State.Brake` | src/l298n.cpp:58-68 | speed 0, not running, both pins HIGH, duty 0 appended iff an enable pin exists |
| `L298NModel.State.Coast` | src/l298n.cpp:70-80 | speed 0, not running, both pins LOW, duty 0 appended iff an enable pin exists |
| `L298NModel.State.Stop` | src/l298n.hpp:72-77 | equal to `Brake` in fields, pin levels and duty log; and in2 is left at a level different from the one `Coast` leaves, so `stop` never leaves the coast pin pattern |
| `L298NModel.State.SetSpeed` | src/l298n.cpp:87-94 | speed `v`; running flag, pins and setup unchanged; duty `v` appended only when running with an enable pin |
| `L298NModel.Step` | src/l298n.cpp:13-94 | no command changes the pins or the enable-pin flag; each appends at most one duty and never rewrites earlier ones |
| `L298NModel.Run` | src/l298n.hpp:104-110 | over any call sequence the pins and the enable-pin flag stay fixed; the duty log only grows, by at most one entry per call |
| `L298NModel.RunSnoc` | src/l298n.cpp:13-94 | running `ops` and then `op` is running `ops + [op]` |
| `L298NModel.StepPreservesConsistent` | src/l298n.cpp:34-94 | every command keeps `Consistent`: running iff the pins select a direction; the enable line carries the speed while running and 0 while stopped |
| `L298NModel.BeginEstablishesConsistent` | src/l298n.hpp:35-40 | on distinct pins, `begin` leaves the driver stopped, braked and `Consistent` |
| `L298NModel.RunPreservesConsistent` | src/l298n.cpp:34-94 | `Consistent` holds after any sequence of commands from a consistent state |
| `L298NModel.RunningIffPinsDifferAfterBegin` | src/l298n.hpp:96-102 | after `begin` and any later calls, `isRunning` holds exactly when the two direction pins are at different levels |
| `L298NModel.NoEnablePinNeverWritesDuty` | src/l298n.cpp:104-115 | a driver without an enable pin writes no duty, for any sequence of calls |
| `L298NModel.SpeedIrrelevantWithoutEnablePin` | src/l298n.hpp:24-33 | without an enable pin the speed has no effect: two call sequences that differ only in their speed arguments, from states that differ only in speed, reach the same board, running flag and wiring |
| `L298NModel.RunningFollowsLastMove` | src/l298n.cpp:34-94 | the running flag after any calls is true exactly when the last call other than `setSpeed` was `forward` or `backward` |
| `L298NModel.SpeedFollowsLastCall` | src/l298n.cpp:34-94 | the speed after any calls is the argument of the last call if it takes one, 0 after `begin`, `brake`, `coast` or `stop`, and the initial value when nothing was called |
| `L298NModel.StagedSpeedsAreSilent` | src/l298n.hpp:79-87 | while stopped, any number of `setSpeed` calls leave the board untouched and the motor stopped; the last staged speed is what `getSpeed` returns |
| `L298NModel.StagedSpeedOverridden` | src/l298n.cpp:87-94 | a speed staged while stopped leaves no trace once `forward(v)` or `backward(v)` is called |
| `L298NModel.BackwardMirrorsForward` | src/l298n.cpp:34-56 | `backward(v)` has the same effect as `forward(v)` except that the two direction levels are swapped |
| `L298NModel.PolarityLaw` | src/l298n.hpp:42-77 | on distinct pins, `forward`, `backward`, `brake` and `coast` select four different direction-pin patterns, and `stop` selects the brake pattern |
| `Sketches.BasicSketchCycle` | examples/esp32_basic/src/main.cpp:57-121 | setup plus one loop pass: LEDC channel 0 at 5 kHz and 8 bits on GPIO 32; the exact duty sequence; ends braked; `isRunning` true throughout the ramp |
| `Sketches.BasicSketchMoves` | examples/esp32_basic/src/main.cpp:73-106 | the moves before the ramp append duties 255, 128, 0, 255, 192, 0, 50 and leave the motor running forward |
| `Sketches.BasicSketchRamp` | examples/esp32_basic/src/main.cpp:108-112 | `setSpeed` of 50, 60, ..., 250 while running writes exactly those duties and keeps the motor running |
| `Sketches.LazyApplyScenario` | src/l298n.cpp:87-94 | `begin`, `forward(200)`, `setSpeed(100)`, `coast`, `setSpeed(50)`, `forward()` writes duties 0, 200, 100, 0, 255; `getSpeed` returns the staged 50 |
| `Sketches.ReducedModeScenario` | src/l298n.hpp:24-33 | without an enable pin, commands move only the direction pins; no duty is written and no LEDC channel is set up |

## Left out

- The Arduino and ESP32 calls (`pinMode`, `digitalWrite`, `ledcSetup`, `ledcAttachPin`, `ledcWrite`, `analogWrite`) are foreign library code. They are recorded on a `Board` value; their electrical effect is not modelled.
- The `#ifdef ESP32` choice is `Board.platform`. Both backends' duty writes are one abstract event (an entry of `Board.duties`), so the model does not say whether it went to LEDC channel 0 or to `analogWrite` on `en`.
- Several ESP32 instances all use LEDC channel 0 and so share one channel. The model has one driver per board, so this interference across instances is not modelled.
- The board is an extra constructor argument of the model. The C++ constructors touch no hardware.
- Implicit `int` to `uint8_t` truncation at call sites is not modelled. Speeds and pins have type `Byte` (0 to 255).
- Motion commands before `begin` are allowed and modelled as the same writes. The pin state they produce is not given a meaning: `Consistent`, and with it every law about `isRunning` and the pins, holds only from `begin` on.
- Direction pins that are the same pin are allowed, as in the source. Then the second `digitalWrite` wins, so the polarity laws and `Consistent` assume `in1 != in2`.
- An enable pin that is also a direction pin is allowed, as in the source, but `Board` keeps digital levels and duty writes apart and does not record their order. The model therefore misses that `analogWrite(_en, _speed)` re-drives that pin after `digitalWrite`. `Consistent`, `BeginEstablishesConsistent`, `RunningIffPinsDifferAfterBegin` and `PolarityLaw` assume `en` differs from `in1` and `in2` (`DistinctPins`).
- The posture laws describe the direction-pin pattern only. With an enable pin, `brake` also writes duty 0 to the enable line, so what the chip does electrically while "braked" is not modelled.
- The dual-motor example sketch only repeats the single-driver calls on four objects, and it logs over serial and waits with `delay`. It is not modelled; serial output and delays are left out everywhere.
