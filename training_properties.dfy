/**
 * What the calorie formulas of homework.py mean, stated against independent
 * quantities (distance, duration, the speed band of the walking formula)
 * rather than against the formulas themselves.
 */
module TrainingProperties {
  import opened Training

  /** Running calories in terms of distance and duration: the mean speed
      cancels against `duration * 60`, leaving 0.06 * weight * (18 d - 20 t). */
  lemma RunningCaloriesByDistance(w: Workout)
    requires w.Running? && w.duration != 0.0
    ensures SpentCalories(w).Ok?
    ensures SpentCalories(w).value == 0.06 * w.weight * (18.0 * Distance(w) - 20.0 * w.duration)
  {
  }

  /** A run of positive weight and duration burns a positive number of
      calories exactly when its mean speed exceeds 10/9 km/h. */
  lemma RunningCaloriesPositiveIff(w: Workout)
    requires w.Running? && w.duration > 0.0 && w.weight > 0.0
    ensures SpentCalories(w).Ok?
    ensures SpentCalories(w).value > 0.0 <==> 9.0 * MeanSpeed(w).value > 10.0
  {
    var speed := MeanSpeed(w).value;
    var k := w.weight / 1000.0 * (w.duration * 60.0);
    assert k > 0.0;
    assert SpentCalories(w).value == (18.0 * speed - 20.0) * k;
    if 9.0 * speed > 10.0 {
      assert 18.0 * speed - 20.0 > 0.0;
    } else {
      assert 18.0 * speed - 20.0 <= 0.0;
    }
  }

  /** Floor division by a positive divisor yields 0 exactly when the
      dividend lies in [0, divisor). */
  lemma FloorDivVanishes(a: real, b: real)
    requires b > 0.0
    ensures FloorDiv(a, b) == Ok(0.0) <==> 0.0 <= a < b
  {
    var x := a / b;
    assert x * b == a;
    assert x < 0.0 ==> (0.0 - x) * b > 0.0;
    assert x >= 1.0 ==> (x - 1.0) * b >= 0.0;
    assert 0.0 <= x < 1.0 ==> x * b >= 0.0 && (1.0 - x) * b > 0.0;
  }

  /** Floor division by a positive divisor is monotone in the dividend. */
  lemma FloorDivMonotone(a: real, a': real, b: real)
    requires b > 0.0 && a <= a'
    ensures FloorDiv(a, b).value <= FloorDiv(a', b).value
  {
    assert a / b <= a' / b;
  }

  /** The walking formula's speed term vanishes exactly when the squared mean
      speed is below the height: below that, walking calories are the
      speed-independent 0.035 * weight * minutes = 2.1 * weight * duration. */
  lemma WalkingCaloriesBaselineIff(w: Workout)
    requires w.SportsWalking? && w.duration != 0.0 && w.height > 0.0 && w.weight != 0.0
    ensures SpentCalories(w).Ok?
    ensures SpentCalories(w) == Ok(2.1 * w.weight * w.duration)
        <==> Square(MeanSpeed(w).value) < w.height
  {
    var speed := MeanSpeed(w).value;
    var band := FloorDiv(Square(speed), w.height).value;
    assert MeanSpeed(w) == Ok(speed) && FloorDiv(Square(speed), w.height) == Ok(band);
    assert w == SportsWalking(w.action, w.duration, w.weight, w.height);
    assert SpentCalories(w).value == WalkingCalories(band, w.duration, w.weight);
    FloorDivVanishes(Square(speed), w.height);
    var extra := band * 0.029 * w.weight * (w.duration * 60.0);
    assert WalkingCalories(band, w.duration, w.weight) == 2.1 * w.weight * w.duration + extra;
    if band != 0.0 {
      assert w.weight * w.duration != 0.0;
      assert extra == (band * 0.029 * 60.0) * (w.weight * w.duration);
      assert extra != 0.0;
    }
  }

  /** Walking calories grow with the speed band, for non-negative weight and duration. */
  lemma WalkingCaloriesGrowWithBand(band: real, band': real, duration: real, weight: real)
    requires band <= band' && duration >= 0.0 && weight >= 0.0
    ensures WalkingCalories(band, duration, weight) <= WalkingCalories(band', duration, weight)
  {
  }

  /** For a fixed walker and duration, walking calories never decrease as
      the squared mean speed grows. */
  lemma WalkingCaloriesMonotone(w: Workout, w': Workout)
    requires w.SportsWalking? && w'.SportsWalking?
    requires w.duration == w'.duration && w.duration > 0.0
    requires w.weight == w'.weight && w.weight >= 0.0
    requires w.height == w'.height && w.height > 0.0
    requires Square(MeanSpeed(w).value) <= Square(MeanSpeed(w').value)
    ensures SpentCalories(w).Ok? && SpentCalories(w').Ok?
    ensures SpentCalories(w).value <= SpentCalories(w').value
  {
    var s, s' := MeanSpeed(w).value, MeanSpeed(w').value;
    FloorDivMonotone(Square(s), Square(s'), w.height);
    var band, band' := FloorDiv(Square(s), w.height).value, FloorDiv(Square(s'), w.height).value;
    assert SpentCalories(w).value == WalkingCalories(band, w.duration, w.weight);
    assert SpentCalories(w').value == WalkingCalories(band', w.duration, w.weight);
    WalkingCaloriesGrowWithBand(band, band', w.duration, w.weight);
  }

  /** Swimming's mean speed and calories do not depend on the stroke count (`action`). */
  lemma SwimmingIgnoresStrokes(strokes: real, strokes': real, duration: real, weight: real,
                               lengthPool: real, countPool: real)
    ensures MeanSpeed(Swimming(strokes, duration, weight, lengthPool, countPool))
         == MeanSpeed(Swimming(strokes', duration, weight, lengthPool, countPool))
    ensures SpentCalories(Swimming(strokes, duration, weight, lengthPool, countPool))
         == SpentCalories(Swimming(strokes', duration, weight, lengthPool, countPool))
  {
    var w := Swimming(strokes, duration, weight, lengthPool, countPool);
    var v := Swimming(strokes', duration, weight, lengthPool, countPool);
    if duration != 0.0 {
      var speed := MeanSpeed(w).value;
      assert speed == lengthPool * countPool / MInKm / duration;
      assert MeanSpeed(v).value == speed;
      assert SpentCalories(w).value == SwimmingCalories(speed, weight);
      assert SpentCalories(v).value == SwimmingCalories(speed, weight);
    }
  }

  /** A swimmer of non-negative weight and non-negative pool speed burns at
      least the 1.1 * 2 = 2.2 kcal per kilogram the formula adds whatever the
      speed. */
  lemma SwimmingCaloriesLowerBound(w: Workout)
    requires w.Swimming? && w.duration > 0.0 && w.weight >= 0.0
    requires w.lengthPool * w.countPool >= 0.0
    ensures SpentCalories(w).Ok? && SpentCalories(w).value >= 2.2 * w.weight
  {
  }
}
