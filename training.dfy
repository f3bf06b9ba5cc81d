/**
 * The workout kinds of the fitness calculator (homework.py) and the metrics
 * each of them computes: distance, mean speed, spent calories, and the
 * summary record that bundles them.
 *
 * The base class `Training` is never instantiated by the dispatcher, so the
 * family is closed: a workout is one of the three concrete kinds.  Floats are
 * modelled as exact reals.  Over exact reals the only exception the metric
 * code can raise is ZeroDivisionError, which is modelled as a value of
 * `Outcome`.
 */
module Training {

  /** The result of a Python metric call: a value, or a raised ZeroDivisionError. */
  datatype Outcome<+T> = Ok(value: T) | ZeroDivisionError

  /** `Training.M_IN_KM`: metres in a kilometre. */
  const MInKm: real := 1000.0
  /** `Training.LEN_STEP`, inherited by Running and SportsWalking: metres per step. */
  const LenStep: real := 0.65
  /** `Swimming.LEN_STEP`: metres per stroke. */
  const SwimmingLenStep: real := 1.38
  /** Minutes in an hour (`duration * 60` in every calorie formula). */
  const MinInHour: real := 60.0

  /** One workout: the readings each constructor stores, in constructor order. */
  datatype Workout =
    | Running(action: real, duration: real, weight: real)
    | SportsWalking(action: real, duration: real, weight: real, height: real)
    | Swimming(action: real, duration: real, weight: real, lengthPool: real, countPool: real)

  /** The fields of `InfoMessage`. */
  datatype InfoMessage = InfoMessage(
    trainingType: string,
    duration: real,
    distance: real,
    speed: real,
    calories: real)

  /** The class attribute `training_name` of each kind. */
  function TrainingName(w: Workout): (name: string)
    ensures name == "Running" <==> w.Running?
    ensures name == "SportsWalking" <==> w.SportsWalking?
    ensures name == "Swimming" <==> w.Swimming?
  {
    match w
    case Running(_, _, _) => "Running"
    case SportsWalking(_, _, _, _) => "SportsWalking"
    case Swimming(_, _, _, _, _) => "Swimming"
  }

  /** The `LEN_STEP` class attribute the kind sees. */
  function StepLength(w: Workout): (len: real)
    ensures len > 0.0
    ensures len == SwimmingLenStep <==> w.Swimming?
    ensures !w.Swimming? ==> len == LenStep
  {
    if w.Swimming? then SwimmingLenStep else LenStep
  }

  /** `get_distance`: kilometres covered by `action` steps (or strokes). */
  function Distance(w: Workout): (km: real)
    ensures km * MInKm / StepLength(w) == w.action
    ensures w.action >= 0.0 ==> km >= 0.0
    ensures w.action > 0.0 ==> km > 0.0
  {
    w.action * StepLength(w) / MInKm
  }

  /** `get_mean_speed`: km/h.  Swimming uses the pool length and lap count
      instead of the distance; every kind divides by `duration`. */
  function MeanSpeed(w: Workout): (r: Outcome<real>)
    ensures r.Ok? <==> w.duration != 0.0
    ensures r.Ok? && !w.Swimming? ==> r.value * w.duration == Distance(w)
    ensures r.Ok? && w.Swimming? ==> r.value * w.duration * MInKm == w.lengthPool * w.countPool
  {
    if w.duration == 0.0 then ZeroDivisionError
    else
      match w
      case Swimming(_, duration, _, lengthPool, countPool) =>
        Ok(lengthPool * countPool / MInKm / duration)
      case _ => Ok(Distance(w) / w.duration)
  }

  /** Python's `a // b` on floats: the floor of the exact quotient, as a float. */
  function FloorDiv(a: real, b: real): (r: Outcome<real>)
    ensures r.Ok? <==> b != 0.0
    ensures r.Ok? ==> r.value == r.value.Floor as real
    ensures r.Ok? ==> r.value <= a / b < r.value + 1.0
  {
    if b == 0.0 then ZeroDivisionError else Ok((a / b).Floor as real)
  }

  /** Python's `x ** 2`. */
  function Square(x: real): (r: real)
    ensures r >= 0.0
  {
    x * x
  }

  /** The per-kind calorie formulas, given the mean speed. */
  function RunningCalories(speed: real, duration: real, weight: real): real {
    (18.0 * speed - 20.0) * weight / MInKm * (duration * MinInHour)
  }

  function WalkingCalories(speedBand: real, duration: real, weight: real): real {
    (0.035 * weight + speedBand * 0.029 * weight) * (duration * MinInHour)
  }

  function SwimmingCalories(speed: real, weight: real): real {
    (speed + 1.1) * 2.0 * weight
  }

  /** `get_spent_calories` of each kind.  Every kind first computes the mean
      speed; the walking formula then floor-divides its square by the height. */
  function SpentCalories(w: Workout): (r: Outcome<real>)
    ensures r.Ok? <==> w.duration != 0.0 && (w.SportsWalking? ==> w.height != 0.0)
  {
    match MeanSpeed(w)
    case ZeroDivisionError => ZeroDivisionError
    case Ok(speed) =>
      match w
      case Running(_, duration, weight) => Ok(RunningCalories(speed, duration, weight))
      case SportsWalking(_, duration, weight, height) =>
        var band := FloorDiv(Square(speed), height);
        if band.ZeroDivisionError? then ZeroDivisionError
        else Ok(WalkingCalories(band.value, duration, weight))
      case Swimming(_, _, weight, _, _) => Ok(SwimmingCalories(speed, weight))
  }

  /** `show_training_info`: the label, the unchanged duration and the three
      metrics, or the ZeroDivisionError one of the metrics raised. */
  function ShowTrainingInfo(w: Workout): (r: Outcome<InfoMessage>)
    ensures r.Ok? <==> w.duration != 0.0 && (w.SportsWalking? ==> w.height != 0.0)
    ensures r.Ok? ==> r.value.trainingType == TrainingName(w) && r.value.duration == w.duration
    ensures r.Ok? ==> r.value.distance == Distance(w)
    ensures r.Ok? ==> MeanSpeed(w) == Ok(r.value.speed) && SpentCalories(w) == Ok(r.value.calories)
    ensures r.Ok? && !w.Swimming? ==> r.value.speed * r.value.duration == r.value.distance
  {
    match (MeanSpeed(w), SpentCalories(w))
    case (Ok(speed), Ok(calories)) =>
      Ok(InfoMessage(TrainingName(w), w.duration, Distance(w), speed, calories))
    case _ => ZeroDivisionError
  }
}
