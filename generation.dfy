/** Greedy decoding, `generate_text_simple`, for one sequence (a batch of one).
    The model followed by `argmax` over the last position is abstracted as a
    next-token function `next` from the visible context to a token id. */
module Generation {
  import opened Common

  /** Python's `idx[-context_size:]`: the last `context_size` tokens when it is positive
      (the whole sequence when shorter), the whole sequence when it is zero (`-0 == 0`), and
      the sequence without its first `-context_size` tokens when it is negative. */
  function Crop(idx: seq<int>, contextSize: int): (r: seq<int>)
    ensures |r| <= |idx| && r == idx[|idx| - |r|..]
    ensures contextSize > 0 ==> |r| == Min(contextSize, |idx|)
    ensures contextSize == 0 ==> r == idx
    ensures contextSize < 0 ==> |r| == Max(|idx| + contextSize, 0)
  {
    var start := -contextSize;
    if start >= 0 then idx[Min(start, |idx|)..] else idx[Max(|idx| + start, 0)..]
  }

  /** The sequence after `n` greedy steps, each appending `next` of the cropped context. */
  function Generated(next: seq<int> -> int, idx: seq<int>, n: nat, contextSize: int): seq<int>
    decreases n
  {
    if n == 0 then idx else Generated(next, idx + [next(Crop(idx, contextSize))], n - 1, contextSize)
  }

  /** The loop of `generate_text_simple`: `max_new_tokens` times, crop, predict, append. */
  method GenerateTextSimple(next: seq<int> -> int, idx: seq<int>, maxNewTokens: int, contextSize: int)
    returns (out: seq<int>)
    ensures out == Generated(next, idx, Max(maxNewTokens, 0), contextSize)
  {
    out := idx;
    var n := Max(maxNewTokens, 0);
    var k := 0;
    while k < n
      invariant 0 <= k <= n
      invariant Generated(next, idx, n, contextSize) == Generated(next, out, n - k, contextSize)
    {
      var idxCond := Crop(out, contextSize);
      var idxNext := next(idxCond);
      out := out + [idxNext];
      k := k + 1;
    }
  }

  /** The prompt is kept unchanged as a prefix, exactly `n` tokens follow it, and the first
      of them is `next` of the cropped prompt. */
  lemma {:induction false} GeneratedPrefix(next: seq<int> -> int, idx: seq<int>, n: nat, contextSize: int)
    ensures |Generated(next, idx, n, contextSize)| == |idx| + n
    ensures Generated(next, idx, n, contextSize)[..|idx|] == idx
    ensures n > 0 ==> Generated(next, idx, n, contextSize)[|idx|] == next(Crop(idx, contextSize))
    decreases n
  {
    if n > 0 {
      var idx' := idx + [next(Crop(idx, contextSize))];
      var g := Generated(next, idx', n - 1, contextSize);
      GeneratedPrefix(next, idx', n - 1, contextSize);
      assert g[..|idx|] == g[..|idx'|][..|idx|];
      assert g[|idx|] == g[..|idx'|][|idx|];
    }
  }

  /** The prompt is kept unchanged as a prefix, exactly `n` tokens follow it, and each of them
      is `next` applied to the cropped sequence generated before it. */
  lemma {:induction false} GeneratedShape(next: seq<int> -> int, idx: seq<int>, n: nat, contextSize: int)
    ensures |Generated(next, idx, n, contextSize)| == |idx| + n
    ensures Generated(next, idx, n, contextSize)[..|idx|] == idx
    ensures forall j :: |idx| <= j < |idx| + n ==>
      Generated(next, idx, n, contextSize)[j] == next(Crop(Generated(next, idx, n, contextSize)[..j], contextSize))
    decreases n
  {
    GeneratedPrefix(next, idx, n, contextSize);
    if n > 0 {
      var idx' := idx + [next(Crop(idx, contextSize))];
      var g := Generated(next, idx, n, contextSize);
      assert g == Generated(next, idx', n - 1, contextSize);
      GeneratedShape(next, idx', n - 1, contextSize);
      forall j | |idx| <= j < |idx| + n
        ensures g[j] == next(Crop(g[..j], contextSize))
      {
        if j == |idx| {
          assert g[..j] == idx;
        }
      }
    }
  }

  /** Generating `a + b` tokens is generating `a` tokens and then `b` more from the result. */
  lemma {:induction false} GeneratedCompose(next: seq<int> -> int, idx: seq<int>, a: nat, b: nat, contextSize: int)
    ensures Generated(next, idx, a + b, contextSize)
      == Generated(next, Generated(next, idx, a, contextSize), b, contextSize)
    decreases a
  {
    if a > 0 {
      GeneratedCompose(next, idx + [next(Crop(idx, contextSize))], a - 1, b, contextSize);
    }
  }

  /** With a positive context size every model call sees at most `contextSize` tokens: the
      last `contextSize` of the sequence so far, or all of it while it is shorter. */
  lemma ContextWindowOfEachCall(next: seq<int> -> int, idx: seq<int>, n: nat, contextSize: int, j: nat)
    requires contextSize > 0 && |idx| <= j < |idx| + n
    ensures |Generated(next, idx, n, contextSize)| == |idx| + n
    ensures var g := Generated(next, idx, n, contextSize);
      var seen := Crop(g[..j], contextSize);
      && |seen| == Min(contextSize, j)
      && seen == g[j - |seen|..j]
      && g[j] == next(seen)
  {
    GeneratedShape(next, idx, n, contextSize);
  }
}
