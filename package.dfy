/**
 * `read_package`: the dispatcher that turns an activity code and a flat list
 * of sensor readings into a workout, binding the readings positionally to the
 * kind's constructor parameters.
 */
module Package {
  import opened Training

  /** What `read_package` produces: a workout instance, Python's `None` for an
      unknown code, or the TypeError the constructor raises when the number of
      readings is not its arity. */
  datatype ReadResult = Instance(workout: Workout) | NoneResult | TypeError

  /** The keys of the dispatch dictionary. */
  const KnownCodes: set<string> := {"SWM", "RUN", "WLK"}

  /** Number of constructor parameters of the kind a known code selects
      (Swimming 5, Running 3 through `Training.__init__`, SportsWalking 4). */
  function Arity(code: string): (n: nat)
    ensures code in KnownCodes <==> n >= 3
    ensures n <= 5
  {
    if code == "SWM" then 5
    else if code == "RUN" then 3
    else if code == "WLK" then 4
    else 0
  }

  /** The code that selects a workout's kind. */
  function Code(w: Workout): (code: string)
    ensures code in KnownCodes
  {
    match w
    case Swimming(_, _, _, _, _) => "SWM"
    case Running(_, _, _) => "RUN"
    case SportsWalking(_, _, _, _) => "WLK"
  }

  /** A workout's readings in constructor order. */
  function Fields(w: Workout): (data: seq<real>)
    ensures |data| == Arity(Code(w))
    ensures data[0] == w.action && data[1] == w.duration && data[2] == w.weight
  {
    match w
    case Running(action, duration, weight) => [action, duration, weight]
    case SportsWalking(action, duration, weight, height) => [action, duration, weight, height]
    case Swimming(action, duration, weight, lengthPool, countPool) =>
      [action, duration, weight, lengthPool, countPool]
  }

  /** `read_package(workout_type, data)`. */
  function ReadPackage(code: string, data: seq<real>): (r: ReadResult)
    ensures r.NoneResult? <==> code !in KnownCodes
    ensures r.TypeError? <==> code in KnownCodes && |data| != Arity(code)
    ensures r.Instance? ==> Code(r.workout) == code && Fields(r.workout) == data
  {
    if code !in KnownCodes then NoneResult
    else if |data| != Arity(code) then TypeError
    else if code == "SWM" then Instance(Swimming(data[0], data[1], data[2], data[3], data[4]))
    else if code == "RUN" then Instance(Running(data[0], data[1], data[2]))
    else Instance(SportsWalking(data[0], data[1], data[2], data[3]))
  }

  /** Every workout is what `read_package` builds from its own code and
      readings: together with the ensures of ReadPackage, an instance is
      built exactly from the (code, readings) pairs of workouts. */
  lemma ReadPackageRoundTrip(w: Workout)
    ensures ReadPackage(Code(w), Fields(w)) == Instance(w)
  {
  }
}
