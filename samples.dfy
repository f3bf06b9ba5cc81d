/**
 * The three sensor packages of the program's `__main__` block, followed from
 * `read_package` through `show_training_info`.
 */
module Samples {
  import opened Training
  import opened Package

  /** ('SWM', [720, 1, 80, 25, 40]): pool speed 25 * 40 / 1000 / 1 = 1.0 km/h,
      (1.0 + 1.1) * 2 * 80 = 336 kcal, while the stroke distance is 0.9936 km. */
  lemma SwimmingSample()
    ensures ReadPackage("SWM", [720.0, 1.0, 80.0, 25.0, 40.0]) == Instance(Swimming(720.0, 1.0, 80.0, 25.0, 40.0))
    ensures ShowTrainingInfo(Swimming(720.0, 1.0, 80.0, 25.0, 40.0))
         == Ok(InfoMessage("Swimming", 1.0, 0.9936, 1.0, 336.0))
  {
  }

  /** ('RUN', [15000, 1, 75]): 9.75 km at 9.75 km/h,
      (18 * 9.75 - 20) * 75 / 1000 * 60 = 699.75 kcal. */
  lemma RunningSample()
    ensures ReadPackage("RUN", [15000.0, 1.0, 75.0]) == Instance(Running(15000.0, 1.0, 75.0))
    ensures ShowTrainingInfo(Running(15000.0, 1.0, 75.0))
         == Ok(InfoMessage("Running", 1.0, 9.75, 9.75, 699.75))
  {
  }

  /** ('WLK', [9000, 1, 75, 180]): 5.85 km at 5.85 km/h; 5.85 ** 2 // 180 is 0,
      so only 0.035 * 75 * 60 = 157.5 kcal remain. */
  lemma WalkingSample()
    ensures ReadPackage("WLK", [9000.0, 1.0, 75.0, 180.0]) == Instance(SportsWalking(9000.0, 1.0, 75.0, 180.0))
    ensures ShowTrainingInfo(SportsWalking(9000.0, 1.0, 75.0, 180.0))
         == Ok(InfoMessage("SportsWalking", 1.0, 5.85, 5.85, 157.5))
  {
  }

  /** Swimming's summary mixes two notions of distance: its speed is
      pool-based while its distance counts strokes, so speed times duration
      need not equal the reported distance. */
  lemma SwimmingSummaryInconsistent()
    ensures var m := ShowTrainingInfo(Swimming(720.0, 1.0, 80.0, 25.0, 40.0));
            m.Ok? && m.value.speed * m.value.duration != m.value.distance
  {
  }
}
