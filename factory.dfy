/**
 * The optimiser factory: the name-based split of every model's parameters into
 * those that get weight decay and those that do not, the choice of pretraining
 * or finetuning hyperparameters, and the dispatch on the optimiser's name.
 */
module Factory {
  import opened Wrappers
  import opened LarsUpdate
  import opened Lars

  /** A parameter as a model lists it, under its dotted name. */
  datatype NamedParam = NamedParam(name: string, param: Parameter)

  /** A model, reduced to its named parameters in registration order. */
  type Model = seq<NamedParam>

  /** The configuration fields the factory reads; the learning rates are already batch-scaled. */
  datatype Args = Args(
    scaledLearningRate: real,
    scaledFinetuneLearningRate: real,
    weightDecay: real,
    finetuneWeightDecay: real,
    optimiser: string,
    finetuneOptimiser: string)

  /** What the factory builds; Adam and SGD are recorded by their arguments only. */
  datatype Optimiser =
    | Adam(params: seq<Parameter>, lr: real, weightDecay: real)
    | Sgd(params: seq<Parameter>, lr: real, weightDecay: real, momentum: real, nesterov: bool)
    | LarsOpt(lars: LarsOptimiser)

  /** The optimiser name is none of the three known ones; the message names `args.optimiser`. */
  datatype Error = NotImplemented(optimiser: string)

  /** The hyperparameters picked for a mode. */
  datatype Hyper = Hyper(lr: real, weightDecay: real, optimiser: string)

  // ---------------------------------------------------------------------------
  // Substring test and the skip list
  // ---------------------------------------------------------------------------

  /** `t` occurs in `s` starting at position `i`. */
  predicate OccursAt(s: string, t: string, i: int)
  {
    0 <= i && i + |t| <= |s| && s[i..i + |t|] == t
  }

  /** Python's `t in s` on strings: a case-sensitive substring search. */
  function Contains(s: string, t: string): (b: bool)
    ensures b <==> exists i :: OccursAt(s, t, i)
    decreases |s|
  {
    if |s| < |t| then false
    else if s[..|t|] == t then
      assert OccursAt(s, t, 0);
      true
    else
      var b := Contains(s[1..], t);
      if b then
        var i :| OccursAt(s[1..], t, i);
        assert s[i + 1..i + 1 + |t|] == s[1..][i..i + |t|];
        assert OccursAt(s, t, i + 1);
        true
      else
        assert !OccursAt(s, t, 0);
        assert forall i :: 0 < i && OccursAt(s, t, i) ==> OccursAt(s[1..], t, i - 1) by {
          forall i | 0 < i && OccursAt(s, t, i)
            ensures OccursAt(s[1..], t, i - 1)
          {
            assert s[1..][i - 1..i - 1 + |t|] == s[i..i + |t|];
          }
        }
        false
  }

  const SkipList: seq<string> := ["bn", "bias"]

  /** Python's `any(skip in name for skip in skips)`. */
  function AnyContains(name: string, skips: seq<string>): (b: bool)
    ensures b <==> exists k :: 0 <= k < |skips| && Contains(name, skips[k])
  {
    if |skips| == 0 then false
    else
      var b := Contains(name, skips[0]) || AnyContains(name, skips[1..]);
      assert forall k :: 1 <= k < |skips| ==> skips[1..][k - 1] == skips[k];
      b
  }

  /** A parameter is kept out of weight decay when its name contains an entry of the skip list. */
  predicate IsSkipped(name: string, skips: seq<string>)
  {
    AnyContains(name, skips)
  }

  // ---------------------------------------------------------------------------
  // The partition, as functions over the stream of named parameters
  // ---------------------------------------------------------------------------

  /** The parameters of a list of named parameters, in order. */
  function Params(ps: seq<NamedParam>): (r: seq<Parameter>)
    ensures |r| == |ps| && forall i :: 0 <= i < |ps| ==> r[i] == ps[i].param
  {
    seq(|ps|, i requires 0 <= i < |ps| => ps[i].param)
  }

  /** Every model's named parameters, model after model. */
  function Flatten(models: seq<Model>): seq<NamedParam>
  {
    if |models| == 0 then [] else Flatten(models[..|models| - 1]) + models[|models| - 1]
  }

  /** The entries, in order, whose skip test comes out as `skipped`. */
  function Select(ps: seq<NamedParam>, skips: seq<string>, skipped: bool): (r: seq<NamedParam>)
    ensures |r| <= |ps|
    ensures forall k :: 0 <= k < |r| ==> IsSkipped(r[k].name, skips) == skipped
  {
    if |ps| == 0 then []
    else
      var last := ps[|ps| - 1];
      Select(ps[..|ps| - 1], skips, skipped) +
        (if IsSkipped(last.name, skips) == skipped then [last] else [])
  }

  /** The entries that get weight decay: `m_noskip`, and over all models `reduced_params`. */
  function Kept(ps: seq<NamedParam>, skips: seq<string>): seq<NamedParam>
  {
    Select(ps, skips, false)
  }

  /** The entries kept out of weight decay: `m_skip`, and over all models `removed_params`. */
  function Dropped(ps: seq<NamedParam>, skips: seq<string>): seq<NamedParam>
  {
    Select(ps, skips, true)
  }

  /** The order LARS receives: the decayed entries, then the rest. */
  function LarsOrder(ps: seq<NamedParam>, skips: seq<string>): (r: seq<NamedParam>)
    ensures |r| == |ps|
  {
    PartitionIsPermutation(ps, skips);
    Kept(ps, skips) + Dropped(ps, skips)
  }

  /** Choosing the hyperparameters: `"pretrain"` picks the pretraining ones, any other mode the finetuning ones. */
  function Hyperparameters(mode: string, args: Args): (h: Hyper)
    ensures mode == "pretrain" ==>
      h.lr == args.scaledLearningRate && h.weightDecay == args.weightDecay &&
      h.optimiser == args.optimiser
    ensures mode != "pretrain" ==>
      h.lr == args.scaledFinetuneLearningRate && h.weightDecay == args.finetuneWeightDecay &&
      h.optimiser == args.finetuneOptimiser
  {
    if mode == "pretrain" then Hyper(args.scaledLearningRate, args.weightDecay, args.optimiser)
    else Hyper(args.scaledFinetuneLearningRate, args.finetuneWeightDecay, args.finetuneOptimiser)
  }

  // ---------------------------------------------------------------------------
  // Properties of the partition
  // ---------------------------------------------------------------------------

  lemma {:induction false} FlattenAppend(models: seq<Model>, j: int)
    requires 0 <= j < |models|
    ensures Flatten(models[..j + 1]) == Flatten(models[..j]) + models[j]
  {
    assert models[..j + 1][..j] == models[..j];
  }

  /** Selection distributes over concatenation, so each half keeps the stream's order. */
  lemma {:induction false} SelectAppend(a: seq<NamedParam>, b: seq<NamedParam>, skips: seq<string>,
                                        skipped: bool)
    ensures Select(a + b, skips, skipped) == Select(a, skips, skipped) + Select(b, skips, skipped)
    decreases |b|
  {
    if |b| == 0 {
      assert a + b == a;
    } else {
      var b' := b[..|b| - 1];
      assert (a + b)[..|a + b| - 1] == a + b';
      assert (a + b)[|a + b| - 1] == b[|b| - 1];
      SelectAppend(a, b', skips, skipped);
    }
  }

  /** Splitting the stream splits both halves of the partition the same way. */
  lemma PartitionAppend(a: seq<NamedParam>, b: seq<NamedParam>, skips: seq<string>)
    ensures Kept(a + b, skips) == Kept(a, skips) + Kept(b, skips)
    ensures Dropped(a + b, skips) == Dropped(a, skips) + Dropped(b, skips)
  {
    SelectAppend(a, b, skips, false);
    SelectAppend(a, b, skips, true);
  }

  lemma ParamsAppend(a: seq<NamedParam>, b: seq<NamedParam>)
    ensures Params(a + b) == Params(a) + Params(b)
  {
  }

  /** Every entry lands in exactly one half: the halves together are a permutation of the stream. */
  lemma {:induction false} PartitionIsPermutation(ps: seq<NamedParam>, skips: seq<string>)
    ensures multiset(Kept(ps, skips)) + multiset(Dropped(ps, skips)) == multiset(ps)
    ensures |Kept(ps, skips)| + |Dropped(ps, skips)| == |ps|
  {
    if |ps| != 0 {
      var init, last := ps[..|ps| - 1], ps[|ps| - 1];
      PartitionIsPermutation(init, skips);
      assert multiset(ps) == multiset(init) + multiset{last} by {
        assert ps == init + [last];
      }
      if IsSkipped(last.name, skips) {
        assert Kept(ps, skips) == Kept(init, skips);
        assert Dropped(ps, skips) == Dropped(init, skips) + [last];
      } else {
        assert Kept(ps, skips) == Kept(init, skips) + [last];
        assert Dropped(ps, skips) == Dropped(init, skips);
      }
    }
  }

  /** An entry is in a half exactly when it is in the stream and its skip test selects that half. */
  lemma {:induction false} SelectMembers(ps: seq<NamedParam>, skips: seq<string>, skipped: bool,
                                         e: NamedParam)
    ensures e in Select(ps, skips, skipped) <==> e in ps && IsSkipped(e.name, skips) == skipped
  {
    if |ps| != 0 {
      var init := ps[..|ps| - 1];
      SelectMembers(init, skips, skipped, e);
      assert ps == init + [ps[|ps| - 1]];
    }
  }

  /** An entry gets weight decay exactly when it is in the stream under a name that is not skipped. */
  lemma KeptMembers(ps: seq<NamedParam>, skips: seq<string>, e: NamedParam)
    ensures e in Kept(ps, skips) <==> e in ps && !IsSkipped(e.name, skips)
    ensures e in Dropped(ps, skips) <==> e in ps && IsSkipped(e.name, skips)
  {
    SelectMembers(ps, skips, false, e);
    SelectMembers(ps, skips, true, e);
  }

  /** A stream with no skipped name is kept whole, in its own order. */
  lemma {:induction false} NothingSkippedKeepsAll(ps: seq<NamedParam>, skips: seq<string>)
    requires forall i :: 0 <= i < |ps| ==> !IsSkipped(ps[i].name, skips)
    ensures Kept(ps, skips) == ps && Dropped(ps, skips) == []
  {
    if |ps| != 0 {
      var init := ps[..|ps| - 1];
      NothingSkippedKeepsAll(init, skips);
      assert ps == init + [ps[|ps| - 1]];
    }
  }

  /**
   * In the LARS order the first `|Kept(ps, skips)|` positions are exactly those whose
   * names are not skipped: the split by name becomes a split by position.
   */
  lemma LarsOrderIsPositional(ps: seq<NamedParam>, skips: seq<string>)
    ensures |LarsOrder(ps, skips)| == |ps|
    ensures forall i :: 0 <= i < |ps| ==>
      (i < |Kept(ps, skips)| <==> !IsSkipped(LarsOrder(ps, skips)[i].name, skips))
  {
    PartitionIsPermutation(ps, skips);
    var ord := LarsOrder(ps, skips);
    forall i | 0 <= i < |ps|
      ensures i < |Kept(ps, skips)| <==> !IsSkipped(ord[i].name, skips)
    {
      KeptMembers(ps, skips, ord[i]);
      if i < |Kept(ps, skips)| {
        assert ord[i] == Kept(ps, skips)[i];
      } else {
        assert ord[i] == Dropped(ps, skips)[i - |Kept(ps, skips)|];
      }
    }
  }

  /**
   * When every parameter handed to LARS has a gradient, weight decay reaches
   * exactly the parameters whose names are not skipped.
   */
  lemma DecayFollowsNames(models: seq<Model>, skips: seq<string>, a: Attributes, slots: seq<Slot>)
    requires a.lenReduced == |Kept(Flatten(models), skips)|
    requires |slots| == |Flatten(models)|
    requires forall i :: 0 <= i < |slots| ==> slots[i].grad.Some?
    ensures forall i :: 0 <= i < |slots| ==>
      (DecaysAt(a, slots, i) <==> !IsSkipped(LarsOrder(Flatten(models), skips)[i].name, skips))
  {
    LarsOrderIsPositional(Flatten(models), skips);
    forall i | 0 <= i < |slots|
      ensures DecaysAt(a, slots, i) <==> !IsSkipped(LarsOrder(Flatten(models), skips)[i].name, skips)
    {
      DecayIsPositionalWhenAllGradsPresent(a, slots, i);
    }
  }

  /** A string none of whose characters starts `t` does not contain `t`. */
  lemma FirstCharAbsent(s: string, t: string)
    requires |t| > 0 && forall i :: 0 <= i < |s| ==> s[i] != t[0]
    ensures !Contains(s, t)
  {
    forall i | 0 <= i
      ensures !OccursAt(s, t, i)
    {
      if i + |t| <= |s| {
        assert s[i..i + |t|][0] == s[i];
      }
    }
  }

  /** `t` occurs at `i` when it matches there character by character. */
  lemma MatchesAt(s: string, t: string, i: int)
    requires 0 <= i && i + |t| <= |s|
    requires forall k :: 0 <= k < |t| ==> s[i + k] == t[k]
    ensures Contains(s, t)
  {
    assert OccursAt(s, t, i);
  }

  /** A convolution weight is decayed: neither skip entry occurs in its name. */
  lemma ConvWeightIsKept()
    ensures !IsSkipped("conv.weight", SkipList)
  {
    FirstCharAbsent("conv.weight", "bn");
    FirstCharAbsent("conv.weight", "bias");
    assert SkipList[1..][1..] == [];
  }

  /** A batch-norm weight is not decayed: its name starts with `bn`. */
  lemma BnWeightIsSkipped()
    ensures IsSkipped("bn.weight", SkipList)
  {
    MatchesAt("bn.weight", "bn", 0);
  }

  /** A bias is not decayed: its name contains `bias`. */
  lemma FcBiasIsSkipped()
    ensures IsSkipped("fc.bias", SkipList)
  {
    MatchesAt("fc.bias", "bias", 3);
    assert SkipList[1..] == ["bias"];
  }

  /** Appending one entry to the stream appends it to the half its name selects. */
  lemma PartitionSnoc(ps: seq<NamedParam>, skips: seq<string>, e: NamedParam)
    ensures Kept(ps + [e], skips) == Kept(ps, skips) + (if IsSkipped(e.name, skips) then [] else [e])
    ensures Dropped(ps + [e], skips) == Dropped(ps, skips) + (if IsSkipped(e.name, skips) then [e] else [])
  {
    assert (ps + [e])[..|ps|] == ps;
  }

  /** Three entries whose names are decayed, skipped and skipped split as one against two. */
  lemma PartitionOfThree(skips: seq<string>, e0: NamedParam, e1: NamedParam, e2: NamedParam)
    requires !IsSkipped(e0.name, skips) && IsSkipped(e1.name, skips) && IsSkipped(e2.name, skips)
    ensures Kept([e0, e1, e2], skips) == [e0] && Dropped([e0, e1, e2], skips) == [e1, e2]
  {
    var ps := [e0, e1, e2];
    assert ps[..2] == [e0, e1] && [e0, e1][..1] == [e0] && [e0][..0] == [];
    assert Select([e0], skips, false) == [e0] && Select([e0], skips, true) == [];
    assert Select([e0, e1], skips, false) == [e0] && Select([e0, e1], skips, true) == [e1];
    assert Select(ps, skips, false) == [e0] && Select(ps, skips, true) == [e1, e2];
  }

  /** One more entry of a model, as the inner loop of the factory sees it. */
  lemma PartitionStep(m: Model, skips: seq<string>, i: int)
    requires 0 <= i < |m|
    ensures Params(Kept(m[..i + 1], skips)) ==
      Params(Kept(m[..i], skips)) + (if IsSkipped(m[i].name, skips) then [] else [m[i].param])
    ensures Params(Dropped(m[..i + 1], skips)) ==
      Params(Dropped(m[..i], skips)) + (if IsSkipped(m[i].name, skips) then [m[i].param] else [])
  {
    assert m[..i + 1] == m[..i] + [m[i]];
    PartitionSnoc(m[..i], skips, m[i]);
    ParamsAppend(Kept(m[..i], skips), if IsSkipped(m[i].name, skips) then [] else [m[i]]);
    ParamsAppend(Dropped(m[..i], skips), if IsSkipped(m[i].name, skips) then [m[i]] else []);
  }

  /** The example network: a convolution weight is decayed, a batch-norm weight and a bias are not. */
  lemma ExamplePartition(e0: NamedParam, e1: NamedParam, e2: NamedParam)
    requires e0.name == "conv.weight" && e1.name == "bn.weight" && e2.name == "fc.bias"
    ensures Kept([e0, e1, e2], SkipList) == [e0]
    ensures Dropped([e0, e1, e2], SkipList) == [e1, e2]
  {
    ConvWeightIsKept();
    BnWeightIsSkipped();
    FcBiasIsSkipped();
    PartitionOfThree(SkipList, e0, e1, e2);
  }

  // ---------------------------------------------------------------------------
  // The factory
  // ---------------------------------------------------------------------------

  /**
   * Builds the optimiser named by the mode's hyperparameters. Adam and SGD get
   * every parameter in model order; LARS gets the decayed parameters followed by
   * the others, with `lenReduced` marking the boundary.
   */
  method GetOptimiser(models: seq<Model>, mode: string, args: Args)
    returns (r: Result<Optimiser, Error>)
    ensures var h := Hyperparameters(mode, args);
      r.Failure? <==> h.optimiser !in {"adam", "sgd", "lars"}
    ensures r.Failure? ==> r.error == NotImplemented(args.optimiser)
    ensures var h := Hyperparameters(mode, args);
      h.optimiser == "adam" ==>
        r == Success(Adam(Params(Flatten(models)), h.lr, h.weightDecay))
    ensures var h := Hyperparameters(mode, args);
      h.optimiser == "sgd" ==>
        r == Success(Sgd(Params(Flatten(models)), h.lr, h.weightDecay, 0.9, true))
    ensures var h := Hyperparameters(mode, args);
      h.optimiser == "lars" ==>
        r.Success? && r.value.LarsOpt? && fresh(r.value.lars) &&
        r.value.lars.epoch == 0 && r.value.lars.state == map[] && r.value.lars.lr == h.lr &&
        r.value.lars.paramGroups ==
          [Group(Params(LarsOrder(Flatten(models), SkipList)), h.lr, 0.9, true, h.weightDecay, true, 0.001,
                 |Kept(Flatten(models), SkipList)|)] &&
        r.value.lars.Attrs() ==
          Attributes(0.9, h.weightDecay, true, true, 0.001, |Kept(Flatten(models), SkipList)|)
  {
    var skipLists := SkipList;
    var paramsModels: seq<Parameter> := [];
    var reducedParams: seq<Parameter> := [];
    var removedParams: seq<Parameter> := [];
    for j := 0 to |models|
      invariant paramsModels == Params(Flatten(models[..j]))
      invariant reducedParams == Params(Kept(Flatten(models[..j]), skipLists))
      invariant removedParams == Params(Dropped(Flatten(models[..j]), skipLists))
    {
      var m := models[j];
      var mSkip: seq<Parameter> := [];
      var mNoskip: seq<Parameter> := [];
      paramsModels := paramsModels + Params(m);
      for i := 0 to |m|
        invariant mSkip == Params(Dropped(m[..i], skipLists))
        invariant mNoskip == Params(Kept(m[..i], skipLists))
      {
        PartitionStep(m, skipLists, i);
        if IsSkipped(m[i].name, skipLists) {
          mSkip := mSkip + [m[i].param];
        } else {
          mNoskip := mNoskip + [m[i].param];
        }
      }
      assert m[..|m|] == m;
      FlattenAppend(models, j);
      PartitionAppend(Flatten(models[..j]), m, skipLists);
      ParamsAppend(Flatten(models[..j]), m);
      ParamsAppend(Kept(Flatten(models[..j]), skipLists), Kept(m, skipLists));
      ParamsAppend(Dropped(Flatten(models[..j]), skipLists), Dropped(m, skipLists));
      reducedParams := reducedParams + mNoskip;
      removedParams := removedParams + mSkip;
    }
    assert models[..|models|] == models;
    ParamsAppend(Kept(Flatten(models), SkipList), Dropped(Flatten(models), SkipList));

    var lr: real;
    var wd: real;
    var opt: string;
    if mode == "pretrain" {
      lr := args.scaledLearningRate;
      wd := args.weightDecay;
      opt := args.optimiser;
    } else {
      lr := args.scaledFinetuneLearningRate;
      wd := args.finetuneWeightDecay;
      opt := args.finetuneOptimiser;
    }

    if opt == "adam" {
      r := Success(Adam(paramsModels, lr, wd));
    } else if opt == "sgd" {
      r := Success(Sgd(paramsModels, lr, wd, 0.9, true));
    } else if opt == "lars" {
      var lars := new LarsOptimiser(reducedParams + removedParams, lr, |reducedParams|,
                                    weightDecay := wd, eta := 0.001, useNesterov := true);
      r := Success(LarsOpt(lars));
    } else {
      r := Failure(NotImplemented(args.optimiser));
    }
  }
}
