/** The optimizer parameter groups built in `main`: named parameters whose
    name contains none of the `no_decay` patterns get the configured weight
    decay, the others none. Parameters are opaque values of type `T`. */
module ParamGroups {

  /** One entry of `named_parameters()`: the dotted name and the parameter. */
  datatype NamedParameter<T> = NamedParameter(name: string, param: T)

  /** One entry of `optimizer_parameters`: the `params` list and its `weight_decay`. */
  datatype ParamGroup<T> = ParamGroup(params: seq<T>, weightDecay: real)

  /** `no_decay`. */
  const NoDecay: seq<string> := ["bias", "LayerNorm.bias", "LayerNorm.weight"]

  /** `sub` occurs in `s` starting at position `i`. */
  predicate OccursAt(s: string, sub: string, i: int)
  {
    0 <= i <= |s| - |sub| && s[i..i + |sub|] == sub
  }

  /** Python's `sub in s` on strings: `sub` occurs in `s` at some position. */
  predicate Contains(s: string, sub: string)
  {
    exists i :: 0 <= i <= |s| - |sub| && OccursAt(s, sub, i)
  }

  /** `any(nd in n for nd in no_decay)`. */
  predicate Exempt(name: string)
  {
    exists nd :: nd in NoDecay && Contains(name, nd)
  }

  /** `[p for n, p in param_optimizer if not any(nd in n for nd in no_decay)]`. */
  function Decayed<T>(ps: seq<NamedParameter<T>>): seq<T>
  {
    if ps == [] then []
    else (if !Exempt(ps[0].name) then [ps[0].param] else []) + Decayed(ps[1..])
  }

  /** `[p for n, p in param_optimizer if any(nd in n for nd in no_decay)]`. */
  function NotDecayed<T>(ps: seq<NamedParameter<T>>): seq<T>
  {
    if ps == [] then []
    else (if Exempt(ps[0].name) then [ps[0].param] else []) + NotDecayed(ps[1..])
  }

  /** `optimizer_parameters`: the decayed group with `weightDecay`, then the rest with `0.0`.
      Between them the two groups hold every parameter once. */
  function GroupParameters<T>(ps: seq<NamedParameter<T>>, weightDecay: real): (groups: seq<ParamGroup<T>>)
    ensures |groups| == 2
    ensures groups[0].weightDecay == weightDecay && groups[1].weightDecay == 0.0
    ensures |groups[0].params| + |groups[1].params| == |ps|
  {
    PartitionSizes(ps);
    [ParamGroup(Decayed(ps), weightDecay), ParamGroup(NotDecayed(ps), 0.0)]
  }

  /** Every parameter lands in exactly one of the two lists. */
  lemma {:induction false} PartitionSizes<T>(ps: seq<NamedParameter<T>>)
    ensures |Decayed(ps)| + |NotDecayed(ps)| == |ps|
  {
    if ps != [] {
      PartitionSizes(ps[1..]);
    }
  }

  /** One step of each comprehension: the head parameter goes to exactly one list. */
  lemma Unfold<T>(x: NamedParameter<T>, rest: seq<NamedParameter<T>>)
    ensures Decayed([x] + rest) == (if !Exempt(x.name) then [x.param] else []) + Decayed(rest)
    ensures NotDecayed([x] + rest) == (if Exempt(x.name) then [x.param] else []) + NotDecayed(rest)
  {
    assert ([x] + rest)[0] == x && ([x] + rest)[1..] == rest;
  }

  /** Both comprehensions distribute over concatenation. */
  lemma {:induction false} SplitAppend<T>(a: seq<NamedParameter<T>>, b: seq<NamedParameter<T>>)
    ensures Decayed(a + b) == Decayed(a) + Decayed(b)
    ensures NotDecayed(a + b) == NotDecayed(a) + NotDecayed(b)
    decreases |a|
  {
    if a == [] {
      assert a + b == b;
    } else {
      var x, tail := a[0], a[1..];
      assert a == [x] + tail;
      assert a + b == [x] + (tail + b);
      SplitAppend(tail, b);
      Unfold(x, tail + b);
      Unfold(x, tail);
      var d := if !Exempt(x.name) then [x.param] else [];
      var e := if Exempt(x.name) then [x.param] else [];
      assert d + (Decayed(tail) + Decayed(b)) == (d + Decayed(tail)) + Decayed(b);
      assert e + (NotDecayed(tail) + NotDecayed(b)) == (e + NotDecayed(tail)) + NotDecayed(b);
    }
  }

  /** The split is a stable partition: parameter `k` goes to the decayed group exactly when
      its name matches no `no_decay` pattern, and it sits there after precisely the earlier
      parameters of the same group, so each group keeps the original order. */
  lemma StablePartition<T>(ps: seq<NamedParameter<T>>, k: nat)
    requires k < |ps|
    ensures |Decayed(ps[..k])| + |NotDecayed(ps[..k])| == k
    ensures !Exempt(ps[k].name) ==>
      |Decayed(ps[..k])| < |Decayed(ps)| && Decayed(ps)[|Decayed(ps[..k])|] == ps[k].param
    ensures Exempt(ps[k].name) ==>
      |NotDecayed(ps[..k])| < |NotDecayed(ps)| && NotDecayed(ps)[|NotDecayed(ps[..k])|] == ps[k].param
  {
    assert ps == ps[..k] + ps[k..];
    SplitAppend(ps[..k], ps[k..]);
    PartitionSizes(ps[..k]);
  }

  /** Python's `in` on strings is transitive: a name containing `LayerNorm.bias` contains `bias`. */
  lemma ContainsTransitive(s: string, mid: string, sub: string)
    requires Contains(s, mid) && Contains(mid, sub)
    ensures Contains(s, sub)
  {
    var i :| 0 <= i <= |s| - |mid| && OccursAt(s, mid, i);
    var j :| 0 <= j <= |mid| - |sub| && OccursAt(mid, sub, j);
    forall t | 0 <= t < |sub|
      ensures s[i + j + t] == sub[t]
    {
      assert sub[t] == mid[j + t] == s[i..i + |mid|][j + t];
    }
    assert OccursAt(s, sub, i + j);
  }

  /** The `LayerNorm.bias` pattern is redundant: a parameter is exempt from weight decay
      exactly when its name contains `bias` or `LayerNorm.weight`. */
  lemma ExemptMeaning(name: string)
    ensures Exempt(name) <==> Contains(name, "bias") || Contains(name, "LayerNorm.weight")
  {
    assert NoDecay[0] == "bias" && NoDecay[2] == "LayerNorm.weight";
    if Contains(name, "LayerNorm.bias") {
      assert OccursAt("LayerNorm.bias", "bias", 10);
      ContainsTransitive(name, "LayerNorm.bias", "bias");
    }
  }

  /** A name that contains neither `bi` nor `L` is decayed, since `bias` starts with `bi` and
      `LayerNorm.weight` with `L`. */
  lemma DecayedWithoutBiOrL(name: string)
    requires !Contains(name, "bi") && 'L' !in name
    ensures !Exempt(name)
  {
    if Contains(name, "bias") {
      assert OccursAt("bias", "bi", 0);
      ContainsTransitive(name, "bias", "bi");
    }
    forall i | 0 <= i <= |name| - 16
      ensures !OccursAt(name, "LayerNorm.weight", i)
    {
      assert name[i..i + 16][0] == name[i] != 'L';
    }
    ExemptMeaning(name);
  }

  /** The prefix of every name `model.module.named_parameters()` yields: `model.module` is
      the `torch.compile` wrapper, which holds the model under the attribute `_orig_mod`. */
  const CompiledPrefix: string := "_orig_mod."

  /** A name in which no `b` is directly followed by `i` and no `L` occurs is decayed. */
  lemma DecayedByCharacters(name: string)
    requires forall i :: 0 <= i < |name| ==> name[i] != 'L'
    requires forall i :: 0 <= i < |name| - 1 && name[i] == 'b' ==> name[i + 1] != 'i'
    ensures !Exempt(name)
  {
    forall i | 0 <= i <= |name| - 2
      ensures !OccursAt(name, "bi", i)
    {
      assert name[i..i + 2][0] == name[i] && name[i..i + 2][1] == name[i + 1];
    }
    DecayedWithoutBiOrL(name);
  }

  /** The layer norms of this model are `LayerNorm` modules with parameters `scale` and
      `shift`, registered as `trf_blocks.<k>.norm1`, `trf_blocks.<k>.norm2` and `final_norm`
      and named behind the compile wrapper's `_orig_mod.`; no `no_decay` pattern matches
      those names, so all of them receive weight decay. */
  lemma LayerNormParametersDecayed(index: string, field: string)
    requires forall i :: 0 <= i < |index| ==> '0' <= index[i] <= '9'
    requires field in ["norm1.scale", "norm1.shift", "norm2.scale", "norm2.shift"]
    ensures !Exempt(CompiledPrefix + "trf_blocks." + index + "." + field)
    ensures !Exempt(CompiledPrefix + "final_norm.scale") && !Exempt(CompiledPrefix + "final_norm.shift")
  {
    var prefix := CompiledPrefix + "trf_blocks.";
    assert prefix == "_orig_mod.trf_blocks.";
    var name := prefix + index + "." + field;
    forall i | 0 <= i < |name|
      ensures name[i] != 'L' && (name[i] == 'b' ==> i == 14)
    {
      if i < |prefix| {
        assert name[i] == prefix[i];
      } else if i < |prefix| + |index| {
        assert name[i] == index[i - |prefix|];
      } else if i == |prefix| + |index| {
        assert name[i] == '.';
      } else {
        assert name[i] == field[i - |prefix| - |index| - 1];
      }
    }
    forall i | 0 <= i < |name| - 1 && name[i] == 'b'
      ensures name[i + 1] != 'i'
    {
      assert name[i + 1] == prefix[15] == 'l';
    }
    DecayedByCharacters(name);
    FinalNormDecayed("final_norm.scale");
    FinalNormDecayed("final_norm.shift");
  }

  /** The parameters of `final_norm`, whose names contain no `b` at all, are decayed. */
  lemma FinalNormDecayed(field: string)
    requires field in ["final_norm.scale", "final_norm.shift"]
    ensures !Exempt(CompiledPrefix + field)
  {
    var name := CompiledPrefix + field;
    forall i | 0 <= i < |name|
      ensures name[i] != 'L' && name[i] != 'b'
    {
      if i < |CompiledPrefix| {
        assert name[i] == CompiledPrefix[i];
      } else {
        assert name[i] == field[i - |CompiledPrefix|];
      }
    }
    DecayedByCharacters(name);
  }
}
