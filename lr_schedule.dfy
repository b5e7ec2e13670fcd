/** The learning-rate schedule `get_lr`: linear warmup, cosine decay from
    `maxLr` to `minLr`, then constant `minLr`. Floating point is modelled by
    `real`; the cosine is a parameter constrained by `CosLike`, the only facts
    about it the schedule relies on. */
module LrSchedule {
  import opened Common

  /** The value of Python's `math.pi`. */
  const Pi: real := 3.141592653589793

  /** What the schedule needs of `math.cos`: `cos(0) = 1`, `cos(pi) = -1`, and `|cos| <= 1`. */
  ghost predicate CosLike(cos: real -> real)
  {
    && cos(0.0) == 1.0
    && cos(Pi) == -1.0
    && forall x :: -1.0 <= cos(x) <= 1.0
  }

  /** `cos` does not increase on `[0, pi]`. */
  ghost predicate CosNonIncreasing(cos: real -> real)
  {
    forall x, y :: 0.0 <= x <= y <= Pi ==> cos(y) <= cos(x)
  }

  /** The cosine interpolation of the decay phase at ratio `decayRatio`. */
  function Cosine(decayRatio: real, maxLr: real, minLr: real, cos: real -> real): real
  {
    var coeff := 0.5 * (1.0 + cos(Pi * decayRatio));
    minLr + coeff * (maxLr - minLr)
  }

  /** `get_lr(iteration, max_lr, min_lr, max_steps, warmup_steps)`. Every exception raised in
      the body is swallowed by a bare `except`, after which the function returns `None`.
      The only one that can occur is the division by zero of the decay ratio, when
      `iteration == warmup_steps == max_steps`: the ratio assertion can never fail. */
  function GetLr(iteration: nat, maxLr: real, minLr: real, maxSteps: nat, warmupSteps: nat, cos: real -> real)
    : (r: Option<real>)
    ensures r.None? <==> iteration == warmupSteps == maxSteps
  {
    if iteration < warmupSteps then
      Some(maxLr * (iteration + 1) as real / warmupSteps as real)
    else if iteration > maxSteps then
      Some(minLr)
    else if maxSteps == warmupSteps then
      None // ZeroDivisionError
    else
      var decayRatio := (iteration - warmupSteps) as real / (maxSteps - warmupSteps) as real;
      assert decayRatio <= 1.0 by {
        assert (iteration - warmupSteps) as real <= (maxSteps - warmupSteps) as real;
      }
      if !(0.0 <= decayRatio <= 1.0) then
        None // AssertionError
      else
        Some(Cosine(decayRatio, maxLr, minLr, cos))
  }

  /** During warmup the rate climbs linearly: `maxLr * (it + 1) / warmup`. */
  lemma WarmupValue(iteration: nat, maxLr: real, minLr: real, maxSteps: nat, warmupSteps: nat, cos: real -> real)
    requires iteration < warmupSteps
    ensures GetLr(iteration, maxLr, minLr, maxSteps, warmupSteps, cos)
      == Some(maxLr * (iteration + 1) as real / warmupSteps as real)
  {
  }

  /** During warmup the rate stays within `(0, maxLr]` for a positive `maxLr`, and reaches
      `maxLr` on the last warmup step. */
  lemma WarmupRamp(iteration: nat, maxLr: real, minLr: real, maxSteps: nat, warmupSteps: nat, cos: real -> real)
    requires iteration < warmupSteps
    ensures maxLr > 0.0 ==> 0.0 < GetLr(iteration, maxLr, minLr, maxSteps, warmupSteps, cos).value <= maxLr
    ensures iteration + 1 == warmupSteps ==> GetLr(iteration, maxLr, minLr, maxSteps, warmupSteps, cos) == Some(maxLr)
  {
    WarmupValue(iteration, maxLr, minLr, maxSteps, warmupSteps, cos);
    var n, w := (iteration + 1) as real, warmupSteps as real;
    MulDivAssoc(maxLr, n, w);
    RatioOrder(n, w, w);
    var f := n / w;
    if maxLr > 0.0 {
      PositiveRatio(n, w);
      PositiveProduct(maxLr, f);
      ScaleOrder(maxLr, f, 1.0);
    }
    if iteration + 1 == warmupSteps {
      assert n == w;
      assert f == 1.0;
      assert maxLr * n / w == maxLr * f == maxLr;
    }
  }

  /** Past `maxSteps` the rate is constantly `minLr`. */
  lemma AfterSchedule(iteration: nat, maxLr: real, minLr: real, maxSteps: nat, warmupSteps: nat, cos: real -> real)
    requires iteration > maxSteps && iteration >= warmupSteps
    ensures GetLr(iteration, maxLr, minLr, maxSteps, warmupSteps, cos) == Some(minLr)
  {
  }

  /** The decay ratio `(it - warmup) / (maxSteps - warmup)` of a step in the decay phase. */
  function DecayRatio(iteration: nat, maxSteps: nat, warmupSteps: nat): (ratio: real)
    requires warmupSteps <= iteration <= maxSteps && warmupSteps < maxSteps
    ensures 0.0 <= ratio <= 1.0
  {
    var span := (maxSteps - warmupSteps) as real;
    RatioOrder((iteration - warmupSteps) as real, span, span);
    (iteration - warmupSteps) as real / span
  }

  /** In the decay phase the rate is the cosine interpolation at the decay ratio. */
  lemma DecayValue(iteration: nat, maxLr: real, minLr: real, maxSteps: nat, warmupSteps: nat, cos: real -> real)
    requires warmupSteps <= iteration <= maxSteps && warmupSteps < maxSteps
    ensures GetLr(iteration, maxLr, minLr, maxSteps, warmupSteps, cos)
      == Some(Cosine(DecayRatio(iteration, maxSteps, warmupSteps), maxLr, minLr, cos))
  {
  }

  /** The decay phase starts at `maxLr` (when `it == warmupSteps`) and ends at `minLr`
      (when `it == maxSteps`). */
  lemma DecayEndpoints(maxLr: real, minLr: real, maxSteps: nat, warmupSteps: nat, cos: real -> real)
    requires warmupSteps < maxSteps && CosLike(cos)
    ensures GetLr(warmupSteps, maxLr, minLr, maxSteps, warmupSteps, cos) == Some(maxLr)
    ensures GetLr(maxSteps, maxLr, minLr, maxSteps, warmupSteps, cos) == Some(minLr)
  {
    DecayValue(warmupSteps, maxLr, minLr, maxSteps, warmupSteps, cos);
    DecayValue(maxSteps, maxLr, minLr, maxSteps, warmupSteps, cos);
    RatioEnds(maxSteps, warmupSteps);
    CosineEnds(maxLr, minLr, cos);
  }

  /** The decay ratio is 0 on the first decay step and 1 at `maxSteps`. */
  lemma RatioEnds(maxSteps: nat, warmupSteps: nat)
    requires warmupSteps < maxSteps
    ensures DecayRatio(warmupSteps, maxSteps, warmupSteps) == 0.0
    ensures DecayRatio(maxSteps, maxSteps, warmupSteps) == 1.0
  {
    var span := (maxSteps - warmupSteps) as real;
    assert span != 0.0;
    assert 0.0 / span == 0.0;
    assert span / span == 1.0;
  }

  /** The cosine interpolation gives `maxLr` at ratio 0 and `minLr` at ratio 1. */
  lemma CosineEnds(maxLr: real, minLr: real, cos: real -> real)
    requires CosLike(cos)
    ensures Cosine(0.0, maxLr, minLr, cos) == maxLr
    ensures Cosine(1.0, maxLr, minLr, cos) == minLr
  {
    assert Pi * 0.0 == 0.0 && Pi * 1.0 == Pi;
  }

  /** Inside the decay phase the rate lies between `minLr` and `maxLr`. */
  lemma DecayBounds(iteration: nat, maxLr: real, minLr: real, maxSteps: nat, warmupSteps: nat, cos: real -> real)
    requires warmupSteps <= iteration <= maxSteps && warmupSteps < maxSteps
    requires minLr <= maxLr && CosLike(cos)
    ensures GetLr(iteration, maxLr, minLr, maxSteps, warmupSteps, cos).Some?
    ensures minLr <= GetLr(iteration, maxLr, minLr, maxSteps, warmupSteps, cos).value <= maxLr
  {
    DecayValue(iteration, maxLr, minLr, maxSteps, warmupSteps, cos);
    CosineBounds(DecayRatio(iteration, maxSteps, warmupSteps), maxLr, minLr, cos);
  }

  /** Whatever the ratio, the cosine interpolation lies between `minLr` and `maxLr`. */
  lemma CosineBounds(decayRatio: real, maxLr: real, minLr: real, cos: real -> real)
    requires minLr <= maxLr && CosLike(cos)
    ensures minLr <= Cosine(decayRatio, maxLr, minLr, cos) <= maxLr
  {
    var c := cos(Pi * decayRatio);
    assert -1.0 <= c <= 1.0;
    var coeff := 0.5 * (1.0 + c);
    assert 0.0 <= coeff <= 1.0;
    ScaleOrder(maxLr - minLr, 0.0, coeff);
    ScaleOrder(maxLr - minLr, coeff, 1.0);
  }

  /** With a cosine that does not increase on `[0, pi]`, the rate never rises during decay. */
  lemma DecayNonIncreasing(a: nat, b: nat, maxLr: real, minLr: real, maxSteps: nat, warmupSteps: nat, cos: real -> real)
    requires warmupSteps <= a <= b <= maxSteps && warmupSteps < maxSteps
    requires minLr <= maxLr && CosNonIncreasing(cos)
    ensures GetLr(b, maxLr, minLr, maxSteps, warmupSteps, cos).value <= GetLr(a, maxLr, minLr, maxSteps, warmupSteps, cos).value
  {
    DecayValue(a, maxLr, minLr, maxSteps, warmupSteps, cos);
    DecayValue(b, maxLr, minLr, maxSteps, warmupSteps, cos);
    var span := (maxSteps - warmupSteps) as real;
    var ra := DecayRatio(a, maxSteps, warmupSteps);
    var rb := DecayRatio(b, maxSteps, warmupSteps);
    RatioOrder((a - warmupSteps) as real, (b - warmupSteps) as real, span);
    CosineMonotone(ra, rb, maxLr, minLr, cos);
  }

  /** The cosine interpolation does not rise as the ratio moves up through `[0, 1]`. */
  lemma CosineMonotone(ra: real, rb: real, maxLr: real, minLr: real, cos: real -> real)
    requires 0.0 <= ra <= rb <= 1.0
    requires minLr <= maxLr && CosNonIncreasing(cos)
    ensures Cosine(rb, maxLr, minLr, cos) <= Cosine(ra, maxLr, minLr, cos)
  {
    ScaleOrder(Pi, 0.0, ra);
    ScaleOrder(Pi, ra, rb);
    ScaleOrder(Pi, rb, 1.0);
    var ca := 0.5 * (1.0 + cos(Pi * ra));
    var cb := 0.5 * (1.0 + cos(Pi * rb));
    ScaleOrder(maxLr - minLr, cb, ca);
  }
}
