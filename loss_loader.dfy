/** `calc_loss_loader`: the average loss over the first batches of a data
    loader. The model and the cross-entropy are abstracted away: the loader is
    given as the sequence of its per-batch losses, in iteration order. */
module LossLoader {
  import opened Common

  /** What `calc_loss_loader` returns: `float("nan")`, the average of the selected batch
      losses, or the `ZeroDivisionError` raised by `total_loss / 0`. */
  datatype LoaderLoss = NotANumber | Average(value: real) | DivisionByZero

  /** The sum of `s`, accumulated front to back. */
  function Sum(s: seq<real>): real
  {
    if s == [] then 0.0 else Sum(s[..|s| - 1]) + s[|s| - 1]
  }

  /** The number of batches averaged: every batch when `num_batches` is `None`,
      otherwise `min(num_batches, len(data_loader))`. */
  function BatchCount(n: nat, numBatches: Option<int>): (k: int)
    ensures k <= n
    ensures (numBatches.None? || numBatches.value >= n) <==> k == n
    ensures numBatches.Some? && numBatches.value < n ==> k == numBatches.value
  {
    match numBatches
    case None => n
    case Some(k) => Min(k, n)
  }

  /** The result of `calc_loss_loader` on a loader whose batch losses are `losses`: NaN for an
      empty loader, otherwise the sum of the first `BatchCount` losses divided by that count. */
  function LoaderLossOf(losses: seq<real>, numBatches: Option<int>): LoaderLoss
  {
    if |losses| == 0 then NotANumber
    else
      var k := BatchCount(|losses|, numBatches);
      if k == 0 then DivisionByZero else Average(Sum(losses[..Max(k, 0)]) / k as real)
  }

  /** The loop of `calc_loss_loader`: adds up batch losses while `i < num_batches`, then breaks. */
  method CalcLossLoader(losses: seq<real>, numBatches: Option<int>) returns (r: LoaderLoss)
    ensures r == LoaderLossOf(losses, numBatches)
  {
    var total := 0.0;
    if |losses| == 0 {
      return NotANumber;
    }
    var k: int;
    if numBatches.None? {
      k := |losses|;
    } else {
      k := Min(numBatches.value, |losses|);
    }
    var i := 0;
    while i < |losses|
      invariant 0 <= i <= |losses| && (i == 0 || i <= k)
      invariant total == Sum(losses[..i])
    {
      if i < k {
        assert losses[..i + 1][..i] == losses[..i];
        total := total + losses[i];
        i := i + 1;
      } else {
        break;
      }
    }
    assert i == Max(k, 0);
    if k == 0 {
      return DivisionByZero;
    }
    r := Average(total / k as real);
  }

  /** Losses that all lie in `[lo, hi]` sum to between `|s| * lo` and `|s| * hi`. */
  lemma {:induction false} SumBounds(s: seq<real>, lo: real, hi: real)
    requires forall j :: 0 <= j < |s| ==> lo <= s[j] <= hi
    ensures |s| as real * lo <= Sum(s) <= |s| as real * hi
  {
    if s != [] {
      SumBounds(s[..|s| - 1], lo, hi);
      assert (|s| - 1) as real * lo + lo == |s| as real * lo;
      assert (|s| - 1) as real * hi + hi == |s| as real * hi;
    }
  }

  /** When at least one batch is selected, the reported loss is an average, and when the
      first `min(num_batches, len)` batch losses all lie in `[lo, hi]`, so does that average. */
  lemma AverageWithinBatchLosses(losses: seq<real>, numBatches: Option<int>, lo: real, hi: real)
    requires BatchCount(|losses|, numBatches) > 0
    requires forall j :: 0 <= j < BatchCount(|losses|, numBatches) ==> lo <= losses[j] <= hi
    ensures LoaderLossOf(losses, numBatches).Average?
    ensures lo <= LoaderLossOf(losses, numBatches).value <= hi
  {
    var k := BatchCount(|losses|, numBatches);
    var prefix := losses[..k];
    SumBounds(prefix, lo, hi);
    MeanBounds(Sum(prefix), k as real, lo, hi);
  }

  /** Only an empty loader reports NaN; asking for no batches of a non-empty one divides by
      zero; asking for `None` or for at least `len` batches averages every batch. */
  lemma LoaderLossCases(losses: seq<real>, numBatches: Option<int>)
    ensures LoaderLossOf(losses, numBatches) == NotANumber <==> |losses| == 0
    ensures LoaderLossOf(losses, numBatches) == DivisionByZero <==> |losses| > 0 && numBatches == Some(0)
    ensures |losses| > 0 && (numBatches.None? || numBatches.value >= |losses|) ==>
      LoaderLossOf(losses, numBatches) == Average(Sum(losses) / |losses| as real)
  {
    assert losses[..|losses|] == losses;
  }
}
