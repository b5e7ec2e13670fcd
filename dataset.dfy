/** The sliding-window dataset `GPTDatasetV1`: a token stream cut into
    (input, target) pairs of `maxLength` tokens, the target being the input
    shifted one token to the right. Tokenisation is not modelled: the
    constructor receives the token ids directly. */
module Dataset {
  import opened Common

  /** Python's `s[lo:hi]` for non-negative bounds: bounds past the end are clamped. */
  function Slice(s: seq<int>, lo: nat, hi: nat): (r: seq<int>)
    ensures lo <= hi <= |s| ==> r == s[lo..hi]
    ensures |r| <= |s|
  {
    var a := Min(lo, |s|);
    s[a..Max(Min(hi, |s|), a)]
  }

  /** Python's `range(start, stop, step)` for a positive step. */
  function PyRange(start: nat, stop: int, step: nat): seq<nat>
    requires step > 0
    decreases stop - start
  {
    if start < stop then [start] + PyRange(start + step, stop, step) else []
  }

  /** The window starts `range(0, len(token_ids) - max_length, stride)`. */
  function Starts(n: nat, maxLength: nat, stride: nat): seq<nat>
    requires stride > 0
  {
    PyRange(0, n - maxLength, stride)
  }

  /** How many examples a stream of `n` tokens yields: `ceil((n - L) / S)`, none when `n <= L`. */
  function ExampleCount(n: nat, maxLength: nat, stride: nat): (count: nat)
    requires stride > 0
    ensures count > 0 <==> n > maxLength
    ensures count <= n - maxLength || count == 0
  {
    if n > maxLength then
      CeilDivRange(n - maxLength, stride);
      CeilDiv(n - maxLength, stride)
    else 0
  }

  /** The `input_chunk` of each start in `starts`, in order. */
  function InputsOf(tokens: seq<int>, maxLength: nat, starts: seq<nat>): (r: seq<seq<int>>)
    ensures |r| == |starts|
    decreases |starts|
  {
    if starts == [] then []
    else
      var i := starts[|starts| - 1];
      InputsOf(tokens, maxLength, starts[..|starts| - 1]) + [Slice(tokens, i, i + maxLength)]
  }

  /** The `target_chunk` of each start in `starts`, in order. */
  function TargetsOf(tokens: seq<int>, maxLength: nat, starts: seq<nat>): (r: seq<seq<int>>)
    ensures |r| == |starts|
    decreases |starts|
  {
    if starts == [] then []
    else
      var i := starts[|starts| - 1];
      TargetsOf(tokens, maxLength, starts[..|starts| - 1]) + [Slice(tokens, i + 1, i + maxLength + 1)]
  }

  /** Input chunk `k` is cut at the `k`-th start. */
  lemma {:induction false} InputAt(tokens: seq<int>, maxLength: nat, starts: seq<nat>, k: nat)
    requires k < |starts|
    ensures InputsOf(tokens, maxLength, starts)[k] == Slice(tokens, starts[k], starts[k] + maxLength)
    decreases |starts|
  {
    var front := starts[..|starts| - 1];
    if k < |front| {
      InputAt(tokens, maxLength, front, k);
      assert front[k] == starts[k];
    }
  }

  /** Target chunk `k` is cut one token after the `k`-th start. */
  lemma {:induction false} TargetAt(tokens: seq<int>, maxLength: nat, starts: seq<nat>, k: nat)
    requires k < |starts|
    ensures TargetsOf(tokens, maxLength, starts)[k] == Slice(tokens, starts[k] + 1, starts[k] + maxLength + 1)
    decreases |starts|
  {
    var front := starts[..|starts| - 1];
    if k < |front| {
      TargetAt(tokens, maxLength, front, k);
      assert front[k] == starts[k];
    }
  }

  /** The input chunks of all windows, in order. */
  function InputWindows(tokens: seq<int>, maxLength: nat, stride: nat): (r: seq<seq<int>>)
    requires stride > 0
    ensures |r| == ExampleCount(|tokens|, maxLength, stride)
  {
    StartsShape(|tokens|, maxLength, stride);
    InputsOf(tokens, maxLength, Starts(|tokens|, maxLength, stride))
  }

  /** The target chunks of all windows, in order. */
  function TargetWindows(tokens: seq<int>, maxLength: nat, stride: nat): (r: seq<seq<int>>)
    requires stride > 0
    ensures |r| == ExampleCount(|tokens|, maxLength, stride)
  {
    StartsShape(|tokens|, maxLength, stride);
    TargetsOf(tokens, maxLength, Starts(|tokens|, maxLength, stride))
  }

  /** The Python range holds the arithmetic progression `start, start + step, ...`
      below `stop`: `ceil((stop - start) / step)` values. */
  lemma {:induction false} PyRangeShape(start: nat, stop: int, step: nat)
    requires step > 0
    ensures |PyRange(start, stop, step)| == (if start < stop then CeilDiv(stop - start, step) else 0)
    ensures forall k :: 0 <= k < |PyRange(start, stop, step)| ==> PyRange(start, stop, step)[k] == start + k * step
    decreases stop - start
  {
    if start < stop {
      var rest := PyRange(start + step, stop, step);
      PyRangeShape(start + step, stop, step);
      CeilDivPeel(stop - start, step);
      forall k | 1 <= k < |PyRange(start, stop, step)|
        ensures PyRange(start, stop, step)[k] == start + k * step
      {
        assert PyRange(start, stop, step)[k] == rest[k - 1];
        assert (k - 1) * step + step == k * step;
      }
    }
  }

  /** There is one window start per multiple of the stride below `n - L`. */
  lemma StartsShape(n: nat, maxLength: nat, stride: nat)
    requires stride > 0
    ensures |Starts(n, maxLength, stride)| == ExampleCount(n, maxLength, stride)
    ensures forall k :: 0 <= k < |Starts(n, maxLength, stride)| ==> Starts(n, maxLength, stride)[k] == k * stride
  {
    PyRangeShape(0, n - maxLength, stride);
  }

  /** Example `k` is read from `tokens[k*S : k*S + L + 1]`, which always lies inside the
      stream: the input is `tokens[k*S : k*S + L]`, the target the same window moved on by
      one token, both of exactly `L` tokens, and `target[j] == input[j + 1]` for `j < L - 1`. */
  lemma WindowShape(tokens: seq<int>, maxLength: nat, stride: nat, k: nat)
    requires stride > 0 && k < ExampleCount(|tokens|, maxLength, stride)
    ensures k * stride + maxLength + 1 <= |tokens|
    ensures InputWindows(tokens, maxLength, stride)[k] == tokens[k * stride .. k * stride + maxLength]
    ensures TargetWindows(tokens, maxLength, stride)[k] == tokens[k * stride + 1 .. k * stride + maxLength + 1]
    ensures |InputWindows(tokens, maxLength, stride)[k]| == maxLength == |TargetWindows(tokens, maxLength, stride)[k]|
    ensures forall j :: 0 <= j < maxLength - 1 ==>
      TargetWindows(tokens, maxLength, stride)[k][j] == InputWindows(tokens, maxLength, stride)[k][j + 1]
  {
    StartsShape(|tokens|, maxLength, stride);
    CeilDivBelow(|tokens| - maxLength, stride, k);
    InputAt(tokens, maxLength, Starts(|tokens|, maxLength, stride), k);
    TargetAt(tokens, maxLength, Starts(|tokens|, maxLength, stride), k);
  }

  /** The number of examples is `ceil((n - L) / S)`: the `k`-th start `k * S` exists exactly
      when it lies below `n - L`, so a stream of at most `L` tokens yields nothing. */
  lemma ExampleCountMeaning(n: nat, maxLength: nat, stride: nat, k: nat)
    requires stride > 0
    ensures k < ExampleCount(n, maxLength, stride) <==> k * stride < n - maxLength
    ensures n <= maxLength ==> ExampleCount(n, maxLength, stride) == 0
  {
    if n > maxLength {
      CeilDivBelow(n - maxLength, stride, k);
    }
  }

  /** The last window stops `(len - L - 1) % S` tokens before the end of a stream longer
      than `L`: its target ends at `(count - 1) * S + L + 1`. */
  lemma LastWindowGap(n: nat, maxLength: nat, stride: nat)
    requires stride > 0 && n > maxLength
    ensures ExampleCount(n, maxLength, stride) >= 1
    ensures (ExampleCount(n, maxLength, stride) - 1) * stride + maxLength + 1 <= n
    ensures n - ((ExampleCount(n, maxLength, stride) - 1) * stride + maxLength + 1)
      == (n - maxLength - 1) % stride
  {
    var m := n - maxLength;
    var q, r := (m - 1) / stride, (m - 1) % stride;
    assert m - 1 == q * stride + r;
    assert m + stride - 1 == (q + 1) * stride + r;
    DivModOf(q + 1, stride, r);
  }

  /** The range loop's next value is its start, and the rest continues one stride on. */
  lemma PyRangeUnfold(done: seq<nat>, i: nat, stop: int, stride: nat)
    requires stride > 0 && i < stop
    ensures done + PyRange(i, stop, stride) == (done + [i]) + PyRange(i + stride, stop, stride)
  {
    assert PyRange(i, stop, stride) == [i] + PyRange(i + stride, stop, stride);
  }

  /** The `ValueError` that `range` raises for a zero step. */
  datatype DatasetError = RangeStepZero

  /** `GPTDatasetV1`: the chunk lists it builds, and the stream and parameters they come from. */
  class GPTDatasetV1 {
    ghost const tokens: seq<int>
    ghost const maxLength: nat
    ghost const stride: nat
    var inputIds: seq<seq<int>>
    var targetIds: seq<seq<int>>

    /** The chunk lists are exactly the sliding windows of `tokens`. */
    ghost predicate Valid()
      reads this
    {
      && stride > 0
      && inputIds == InputWindows(tokens, maxLength, stride)
      && targetIds == TargetWindows(tokens, maxLength, stride)
    }

    /** `__init__`: walks the window starts and appends one input and one target chunk each. */
    constructor (tokenIds: seq<int>, maxLength: nat, stride: nat)
      requires stride > 0
      ensures Valid()
      ensures this.tokens == tokenIds && this.maxLength == maxLength && this.stride == stride
    {
      this.tokens, this.maxLength, this.stride := tokenIds, maxLength, stride;
      inputIds, targetIds := [], [];
      new;
      var stop := |tokenIds| - maxLength;
      var i: nat := 0;
      ghost var done: seq<nat> := [];
      while i < stop
        invariant PyRange(0, stop, stride) == done + PyRange(i, stop, stride)
        invariant inputIds == InputsOf(tokenIds, maxLength, done)
        invariant targetIds == TargetsOf(tokenIds, maxLength, done)
        decreases stop - i
      {
        PyRangeUnfold(done, i, stop, stride);
        assert (done + [i])[..|done|] == done;
        inputIds := inputIds + [Slice(tokenIds, i, i + maxLength)];
        targetIds := targetIds + [Slice(tokenIds, i + 1, i + maxLength + 1)];
        done := done + [i];
        i := i + stride;
      }
      assert done == Starts(|tokenIds|, maxLength, stride);
    }

    /** Building the dataset with a zero stride raises, as `range` does; otherwise it
        holds exactly the sliding windows of `tokenIds`. */
    static method Create(tokenIds: seq<int>, maxLength: nat, stride: nat)
      returns (r: Result<GPTDatasetV1, DatasetError>)
      ensures r.Failure? <==> stride == 0
      ensures r.Success? ==> fresh(r.value) && r.value.Valid()
      ensures r.Success? ==> r.value.tokens == tokenIds && r.value.maxLength == maxLength && r.value.stride == stride
    {
      if stride == 0 {
        return Failure(RangeStepZero);
      }
      var d := new GPTDatasetV1(tokenIds, maxLength, stride);
      return Success(d);
    }

    /** `__len__`: the number of examples, `ceil((len(tokens) - L) / S)` or zero. */
    method Len() returns (n: nat)
      requires Valid()
      ensures n == ExampleCount(|tokens|, maxLength, stride)
      ensures n == |inputIds| == |targetIds|
    {
      StartsShape(|tokens|, maxLength, stride);
      n := |inputIds|;
    }

    /** `__getitem__` with Python list indexing: a negative index counts from the end and an
        index outside `[-len, len)` raises `IndexError` (here `None`). The pair returned is
        the window at start `j * S`, of `L` tokens each, the target shifted by one. */
    method GetItem(idx: int) returns (r: Option<(seq<int>, seq<int>)>)
      requires Valid()
      ensures var n: int := ExampleCount(|tokens|, maxLength, stride);
        r.Some? <==> -n <= idx < n
      ensures r.Some? ==>
        var n: int := ExampleCount(|tokens|, maxLength, stride);
        var j := if idx >= 0 then idx else idx + n;
        r.value == (Slice(tokens, j * stride, j * stride + maxLength),
                    Slice(tokens, j * stride + 1, j * stride + maxLength + 1))
      ensures r.Some? ==> |r.value.0| == maxLength && |r.value.1| == maxLength
      ensures r.Some? ==> forall t :: 0 <= t < maxLength - 1 ==> r.value.1[t] == r.value.0[t + 1]
    {
      StartsShape(|tokens|, maxLength, stride);
      var n := |inputIds|;
      if -n <= idx < n {
        var j := if idx >= 0 then idx else idx + n;
        WindowShape(tokens, maxLength, stride, j);
        r := Some((inputIds[j], targetIds[j]));
      } else {
        r := None;
      }
    }
  }
}
