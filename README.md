# Fitness calculator model

A Dafny model of `homework.py`, a small fitness calculator. It reads sensor
packages, an activity code plus a flat list of readings. It builds one of three
workout kinds and reports distance, mean speed and spent calories for that
workout.

- `training.dfy` (module `Training`) has the workout kinds as a closed datatype
  `Workout = Running | SportsWalking | Swimming`. Each constructor has the
  fields of the Python constructor, in the same order. The module defines the
  class constants `LEN_STEP` (0.65, and 1.38 for Swimming) and `M_IN_KM`
  (1000). It defines the metrics `get_distance`, `get_mean_speed` (Swimming's
  pool-based override included) and `get_spent_calories`. The walking formula
  keeps its floor division `mean_speed ** 2 // height`. The module also defines
  `show_training_info` and the fields of `InfoMessage`.
- `training_properties.dfy` (module `TrainingProperties`) states what each
  calorie formula means in terms of independent quantities. Running calories
  are written in terms of distance and duration. Walking calories are
  speed-independent below a threshold and monotone in the squared mean speed
  (so in speed for non-negative speeds). Swimming calories ignore the stroke
  count.
- `package.dfy` (module `Package`) models `read_package`: the dispatch on
  `'SWM'`, `'RUN'` and `'WLK'`, and the positional binding of the readings. It
  also proves a round trip from a workout back to its package.
- `samples.dfy` (module `Samples`) follows the three packages of the
  program's `__main__` block end to end.

Python's exceptions and `None` are values in the model:

- `Outcome<T> = Ok(value) | ZeroDivisionError`. Every mean speed divides by
  `duration`, and the walking formula floor-divides by `height`.
- `ReadResult = Instance(workout) | NoneResult | TypeError`. An unknown code
  makes `read_package` fall off its end and return `None`. A reading count
  other than the constructor's arity makes the constructor call raise
  `TypeError`.

## Model

| member | source | states |
|---|---|---|
| Training.TrainingName | homework.py:72-128 | each kind's `training_name` is "Running", "SportsWalking" or "Swimming", and the name identifies the kind (both directions) |
| Training.StepLength | homework.py:39-127 | the step length is positive; it is the 1.38 Swimming override (line 127) exactly for Swimming, and the inherited 0.65 of line 39 for Running and SportsWalking |
| Training.Distance | homework.py:43-134 | the base `get_distance` (lines 43-47) and Swimming's override (lines 130-134), through `StepLength`: distance in km converts back to the step count (km * 1000 / LEN_STEP == action); it is non-negative for a non-negative count and positive for a positive one |
| Training.MeanSpeed | homework.py:49-53 | raises ZeroDivisionError exactly when duration is 0; otherwise speed * duration equals the distance, and for Swimming (override at lines 136-141) speed * duration * 1000 equals pool length * lap count |
| Training.FloorDiv | homework.py:107-108 | `a // b` raises exactly when b is 0; otherwise the result is the integer q with q <= a / b < q + 1 |
| Training.SpentCalories | homework.py:74-148 | the three `get_spent_calories` overrides (Running 74-83, SportsWalking 100-110, Swimming 143-148), written through the helpers `RunningCalories`, `WalkingCalories`, `SwimmingCalories` and `Square` (`** 2`); calories are computed exactly when duration is non-zero and, for SportsWalking, height is non-zero; every other input raises ZeroDivisionError |
| Training.ShowTrainingInfo | homework.py:59-66 | the message exists exactly when no metric raises; its type is the kind's name and its duration is the input; it carries the kind's own distance, speed and calories; for Running and SportsWalking speed * duration equals distance |
| TrainingProperties.RunningCaloriesByDistance | homework.py:74-83 | running calories equal 0.06 * weight * (18 * distance - 20 * duration) |
| TrainingProperties.RunningCaloriesPositiveIff | homework.py:77-82 | with positive weight and duration, running calories are positive exactly when the mean speed exceeds 10/9 km/h |
| TrainingProperties.FloorDivVanishes | homework.py:107-108 | floor division by a positive height yields 0 exactly when the dividend lies in [0, height) |
| TrainingProperties.FloorDivMonotone | homework.py:107-108 | floor division by a positive height is monotone in the dividend |
| TrainingProperties.WalkingCaloriesGrowWithBand | homework.py:103-109 | the walking formula grows with the floor-divided speed term for non-negative weight and duration |
| TrainingProperties.WalkingCaloriesBaselineIff | homework.py:100-110 | with positive height and non-zero weight and duration, walking calories equal 0.035 * weight * minutes exactly when the squared speed is below the height |
| TrainingProperties.WalkingCaloriesMonotone | homework.py:100-110 | for the same walker of non-negative weight, the same positive height and the same positive duration, a larger squared speed never gives fewer calories |
| TrainingProperties.SwimmingIgnoresStrokes | homework.py:136-148 | Swimming's mean speed and calories (errors included) are the same for any stroke count (`action`) |
| TrainingProperties.SwimmingCaloriesLowerBound | homework.py:143-148 | with non-negative weight and pool speed, swimming calories are at least 2.2 * weight |
| Package.Arity | homework.py:29-158 | the arities of the constructor signatures (Running through `Training.__init__` at lines 29-33, SportsWalking at 91-96, Swimming at 116-122) under the dispatch keys of lines 154-156: exactly the three codes have an arity (3 to 5); every other code has none |
| Package.Code | homework.py:154-156 | every kind is reached by one of the dispatch keys |
| Package.Fields | homework.py:29-125 | the parameters of all three constructors (lines 29-33, 91-98, 116-125) in order: a workout's readings number the kind's arity and start with action, duration and weight |
| Package.ReadPackage | homework.py:151-159 | returns None exactly for codes outside 'SWM', 'RUN', 'WLK'; raises TypeError exactly for a known code with the wrong number of readings; otherwise the instance has the code's kind and its fields are the readings in order |
| Package.ReadPackageRoundTrip | homework.py:151-159 | every workout is rebuilt by `read_package` from its own code and readings |
| Samples.SwimmingSample | homework.py:172 | ('SWM', [720, 1, 80, 25, 40]) builds Swimming and reports 0.9936 km, 1.0 km/h, 336.0 kcal |
| Samples.RunningSample | homework.py:173 | ('RUN', [15000, 1, 75]) builds Running and reports 9.75 km, 9.75 km/h, 699.75 kcal |
| Samples.WalkingSample | homework.py:174 | ('WLK', [9000, 1, 75, 180]) builds SportsWalking and reports 5.85 km, 5.85 km/h, 157.5 kcal (the floor term is 0) |
| Samples.SwimmingSummaryInconsistent | homework.py:130-141 | Swimming's summary speed times duration can differ from its reported distance (on the sample package, 1.0 vs 0.9936), because the speed is pool-based and the distance counts strokes |

## Left out

- Floating point: every quantity is an exact `real`. IEEE-754 rounding can
  make Python's results differ in the last digits. It can also move
  `mean_speed ** 2 // height` to the neighbouring integer when the quotient is
  within rounding of an integer. NaN and infinities are not modelled.
- Training.SpentCalories: does not model the `OverflowError` that Python's
  float `mean_speed ** 2` (homework.py:107) raises once the walking speed
  exceeds about 1.34e154 in magnitude, because reals do not overflow. For
  such inputs `SpentCalories`, and so `ShowTrainingInfo`, return a value
  where the program raises.
- Training.Distance, Training.MeanSpeed, Training.SpentCalories: do not model
  the `OverflowError` that Python raises when it converts an integer reading
  of about 1.8e308 or more to float. The conversion happens in
  `action * LEN_STEP` (homework.py:46, 133), in the divisions by `duration`
  (homework.py:52), in the `* weight` factors (homework.py:82, 107, 147) and
  in the integer true division `length_pool * count_pool / M_IN_KM`
  (homework.py:139-140). Reals have no such bound, so for these inputs the
  model returns a value where the program raises, and so does
  `ShowTrainingInfo`.
- Reading types: every reading is a number, and the `action` parameter is a
  `real` because Python does not enforce its `int` annotation. Non-numeric
  readings, which Python would reject with other errors, are not modelled.
- `TypeError` carries no message; Python's wording is not modelled.
- `InfoMessage.get_message` (homework.py:17-23): the `:.3f` rendering of the
  summary as text is not modelled; only the message's fields are.
- `main`, `print` and the `__main__` loop (homework.py:162-179) are console
  I/O. Their packages are used only as the concrete values in `Samples`.
- The module-level assignment `training: Training = Training`
  (homework.py:168) has no behaviour.
- The base class `Training` as a workout: `read_package` never builds it. Its
  `get_spent_calories` returns `None` (homework.py:55-57), and that case
  does not exist in the closed datatype.
