/**
 * The arithmetic of one LARS step on scalar parameters, as pure functions.
 *
 * A parameter is a single real. The trust ratio's norm quotient (`||w|| / ||g||`
 * in the classic branch, `||w|| / ||update||` in the other) is an opaque
 * function argument `ratio`; the step multiplies it by the optimiser's `eta`.
 */
module LarsUpdate {
  import opened Wrappers

  /** The optimiser's own attributes that the step reads (`self.momentum`, `self.weight_decay`, ...). */
  datatype Attributes = Attributes(
    momentum: real,
    weightDecay: real,
    useNesterov: bool,
    classicMomentum: bool,
    eta: real,
    lenReduced: int)

  /** Norm quotient of a parameter and a direction, standing for `||w|| / ||d||`. */
  type NormRatio = (real, real) -> real

  /** One parameter as a step sees it: value, gradient if any, momentum buffer if created. */
  datatype Slot = Slot(data: real, grad: Option<real>, buffer: Option<real>)

  /** What a gradient-bearing parameter holds after its update. */
  datatype Updated = Updated(data: real, grad: real, buffer: real)

  /**
   * The trust ratio `eta * ||w|| / ||d||`. The guard that would fall back to 1.0
   * tests that both norms are at least zero; that holds for every norm that is not
   * NaN, and exact real arithmetic produces no NaN, so the fallback is not modelled.
   */
  function TrustRatio(eta: real, ratio: NormRatio, w: real, d: real): real
  {
    eta * ratio(w, d)
  }

  /** The gradient plus L2 decay `weightDecay * w` when `decay`, else the gradient unchanged. */
  function DecayedGrad(a: Attributes, decay: bool, w: real, g: real): real
  {
    if decay then g + a.weightDecay * w else g
  }

  /** The group's learning rate scaled by a trust ratio. */
  function ScaledRate(lr: real, trust: real): real
  {
    lr * trust
  }

  /** One step of the momentum recurrence: decay the buffer, then add the new contribution. */
  function NextBuffer(v: real, momentum: real, contribution: real): real {
    v * momentum + contribution
  }

  /**
   * The direction a parameter moves along: with Nesterov, `self.momentum` times
   * the new buffer plus the fresh contribution; otherwise the new buffer itself.
   */
  function Direction(a: Attributes, buffer: real, contribution: real): real
  {
    if a.useNesterov then a.momentum * buffer + contribution else buffer
  }

  /** Move `w` against direction `d` with step size `scaledLr`. */
  function Descend(w: real, scaledLr: real, d: real): real
  {
    w - scaledLr * d
  }

  /**
   * The classic branch once the scaled learning rate is known: the buffer grows
   * by `scaledLr * g`, and the parameter moves back by the direction itself.
   */
  function ClassicMove(a: Attributes, momentum: real, w: real, g: real, v: real,
                       scaledLr: real): Updated
  {
    var v' := NextBuffer(v, momentum, scaledLr * g);
    Updated(w - Direction(a, v', scaledLr * g), g, v')
  }

  /**
   * The non-classic branch: the buffer grows by the gradient itself, and the whole
   * direction is scaled by the trust ratio computed against that direction.
   */
  function AdaptiveMove(a: Attributes, lr: real, momentum: real, w: real, g: real, v: real,
                        ratio: NormRatio): Updated
  {
    var v' := NextBuffer(v, momentum, g);
    var update := Direction(a, v', g);
    Updated(Descend(w, ScaledRate(lr, TrustRatio(a.eta, ratio, w, update)), update), g, v')
  }

  /**
   * The update of one parameter that has a gradient. `lr` and `momentum` are the
   * group's values; decay, Nesterov's coefficient and `eta` come from `a`.
   * `decay` says whether the parameter is among those that get weight decay.
   * The classic branch scales the gradient by the trust ratio of the gradient;
   * the other scales the whole step by the trust ratio of the step.
   */
  function Update(a: Attributes, lr: real, momentum: real, decay: bool,
                  w: real, g: real, v: real, ratio: NormRatio): Updated
  {
    var g' := DecayedGrad(a, decay, w, g);
    if a.classicMomentum then
      ClassicMove(a, momentum, w, g', v, ScaledRate(lr, TrustRatio(a.eta, ratio, w, g')))
    else
      AdaptiveMove(a, lr, momentum, w, g', v, ratio)
  }

  /** The gradient used is the stored one plus L2 decay `weightDecay * w` exactly when `decay`. */
  lemma UpdateDecaysGradient(a: Attributes, lr: real, momentum: real, decay: bool,
                             w: real, g: real, v: real, ratio: NormRatio)
    ensures var u := Update(a, lr, momentum, decay, w, g, v, ratio);
      u.grad == if decay then g + a.weightDecay * w else g
  {
  }

  /**
   * Classic momentum: the buffer grows by the trust-scaled gradient; without
   * Nesterov the parameter moves back by the whole new buffer, with Nesterov by
   * `self.momentum` times the new buffer plus the fresh contribution.
   */
  lemma ClassicUpdate(a: Attributes, lr: real, momentum: real, decay: bool,
                      w: real, g: real, v: real, ratio: NormRatio)
    requires a.classicMomentum
    ensures var u := Update(a, lr, momentum, decay, w, g, v, ratio);
      && u.buffer - v * momentum == lr * TrustRatio(a.eta, ratio, w, u.grad) * u.grad
      && (!a.useNesterov ==> u.data == w - u.buffer)
      && (a.useNesterov ==> w - u.data == a.momentum * u.buffer + (u.buffer - v * momentum))
  {
  }

  /**
   * The first classic step without Nesterov (buffer still zero) never moves the
   * parameter along the decayed gradient, given a non-negative rate, `eta` and
   * norm quotient: the move and the gradient never have opposite signs.
   */
  lemma ClassicStepOpposesGradient(a: Attributes, lr: real, momentum: real, decay: bool,
                                   w: real, g: real, ratio: NormRatio)
    requires a.classicMomentum && !a.useNesterov
    requires 0.0 <= lr && 0.0 <= a.eta && 0.0 <= ratio(w, DecayedGrad(a, decay, w, g))
    ensures var u := Update(a, lr, momentum, decay, w, g, 0.0, ratio);
      (w - u.data) * u.grad >= 0.0
  {
    var g' := DecayedGrad(a, decay, w, g);
    var t := TrustRatio(a.eta, ratio, w, g');
    var u := Update(a, lr, momentum, decay, w, g, 0.0, ratio);
    ClassicUpdate(a, lr, momentum, decay, w, g, 0.0, ratio);
    assert u.grad == g';
    assert 0.0 <= t;
    var s := lr * t;
    assert 0.0 <= s;
    assert w - u.data == s * g';
    assert (w - u.data) * u.grad == s * (g' * g');
    assert 0.0 <= g' * g';
  }

  /**
   * Non-classic momentum: the buffer grows by the raw gradient and the parameter
   * moves along the update direction, scaled by the trust ratio of that direction.
   */
  lemma AdaptiveUpdate(a: Attributes, lr: real, momentum: real, decay: bool,
                       w: real, g: real, v: real, ratio: NormRatio)
    requires !a.classicMomentum
    ensures var u := Update(a, lr, momentum, decay, w, g, v, ratio);
      && u.buffer - v * momentum == u.grad
      && w - u.data == lr * TrustRatio(a.eta, ratio, w, Direction(a, u.buffer, u.grad))
                       * Direction(a, u.buffer, u.grad)
  {
  }

  /** Number of parameters in `slots` that have a gradient. */
  function GradCount(slots: seq<Slot>): (n: nat)
    ensures n <= |slots|
  {
    if |slots| == 0 then 0
    else GradCount(slots[..|slots| - 1]) + (if slots[|slots| - 1].grad.Some? then 1 else 0)
  }

  /**
   * Whether the parameter at position `i` gets weight decay: it has a gradient and
   * fewer than `lenReduced` gradient-bearing parameters precede it.
   */
  predicate DecaysAt(a: Attributes, slots: seq<Slot>, i: nat)
    requires i < |slots|
  {
    slots[i].grad.Some? && GradCount(slots[..i]) < a.lenReduced
  }

  /** The step applied to one parameter: untouched without a gradient, else updated. */
  function SlotStep(a: Attributes, lr: real, momentum: real, decay: bool,
                    x: Slot, ratio: NormRatio): (y: Slot)
    ensures x.grad.None? ==> y == x
    ensures x.grad.Some? ==> y.grad.Some? && y.buffer.Some?
  {
    match x.grad
    case None => x
    case Some(g) =>
      var u := Update(a, lr, momentum, decay, x.data, g, x.buffer.GetOr(0.0), ratio);
      Slot(u.data, Some(u.grad), Some(u.buffer))
  }

  /** On a parameter's first gradient-bearing step its buffer is created as zero. */
  lemma LazyBufferStartsAtZero(a: Attributes, lr: real, momentum: real, decay: bool,
                               x: Slot, ratio: NormRatio)
    requires x.grad.Some? && x.buffer.None?
    ensures SlotStep(a, lr, momentum, decay, x, ratio)
         == SlotStep(a, lr, momentum, decay, x.(buffer := Some(0.0)), ratio)
  {
  }

  /**
   * The step over one parameter group, by position: each parameter is stepped with
   * decay decided by how many gradient-bearing parameters precede it.
   */
  function GroupStep(a: Attributes, lr: real, momentum: real,
                     slots: seq<Slot>, ratio: NormRatio): (r: seq<Slot>)
    ensures |r| == |slots|
    ensures forall i :: 0 <= i < |slots| && slots[i].grad.None? ==> r[i] == slots[i]
    ensures forall i :: 0 <= i < |slots| && slots[i].grad.Some? ==>
      r[i].grad.Some? && r[i].buffer.Some?
  {
    seq(|slots|, i requires 0 <= i < |slots| =>
      SlotStep(a, lr, momentum, DecaysAt(a, slots, i), slots[i], ratio))
  }

  /**
   * The same step as the source's loop computes it: walk the group in order,
   * threading `counter`, which grows only on gradient-bearing parameters.
   */
  function Scan(a: Attributes, lr: real, momentum: real, slots: seq<Slot>,
                counter: nat, ratio: NormRatio): (r: seq<Slot>)
    ensures |r| == |slots|
  {
    if |slots| == 0 then []
    else if slots[0].grad.None? then [slots[0]] + Scan(a, lr, momentum, slots[1..], counter, ratio)
    else [SlotStep(a, lr, momentum, counter < a.lenReduced, slots[0], ratio)]
         + Scan(a, lr, momentum, slots[1..], counter + 1, ratio)
  }

  // ---------------------------------------------------------------------------
  // Which parameters get weight decay

  lemma {:induction false} GradCountAppend(s: seq<Slot>, t: seq<Slot>)
    ensures GradCount(s + t) == GradCount(s) + GradCount(t)
    decreases |t|
  {
    if |t| > 0 {
      assert (s + t)[..|s + t| - 1] == s + t[..|t| - 1];
      GradCountAppend(s, t[..|t| - 1]);
    } else {
      assert s + t == s;
    }
  }

  /** Walking one position further counts that position's gradient, if it has one. */
  lemma GradCountStep(slots: seq<Slot>, i: nat)
    requires i < |slots|
    ensures GradCount(slots[..i + 1]) == GradCount(slots[..i]) + if slots[i].grad.Some? then 1 else 0
  {
    assert slots[..i + 1][..i] == slots[..i];
  }

  /** A sequence that agrees with the group step at every position is the group step. */
  lemma GroupStepByPosition(a: Attributes, lr: real, momentum: real, slots: seq<Slot>,
                            ratio: NormRatio, r: seq<Slot>)
    requires |r| == |slots|
    requires forall k :: 0 <= k < |slots| ==>
      r[k] == SlotStep(a, lr, momentum, DecaysAt(a, slots, k), slots[k], ratio)
    ensures r == GroupStep(a, lr, momentum, slots, ratio)
  {
  }

  /** A gradient-bearing parameter at `i` is counted before every later position `j`. */
  lemma GradCountGrows(slots: seq<Slot>, i: nat, j: nat)
    requires i < j <= |slots|
    ensures GradCount(slots[..i]) + (if slots[i].grad.Some? then 1 else 0) <= GradCount(slots[..j])
  {
    assert slots[..j] == slots[..i] + [slots[i]] + slots[i + 1..j];
    GradCountAppend(slots[..i] + [slots[i]], slots[i + 1..j]);
    GradCountAppend(slots[..i], [slots[i]]);
    assert ([] + [slots[i]])[..0] == [];
  }

  /**
   * Decay goes to a leading run of the gradient-bearing parameters: when one gets
   * decay, so does every gradient-bearing parameter before it.
   */
  lemma DecayIsPrefixClosed(a: Attributes, slots: seq<Slot>, i: nat, j: nat)
    requires i < j < |slots|
    requires slots[i].grad.Some? && DecaysAt(a, slots, j)
    ensures DecaysAt(a, slots, i)
  {
    GradCountGrows(slots, i, j);
  }

  /**
   * Skipped gradients only push decay further along: a gradient-bearing parameter
   * at a position below `lenReduced` always gets decay.
   */
  lemma DecayCoversLeadingPositions(a: Attributes, slots: seq<Slot>, i: nat)
    requires i < |slots| && slots[i].grad.Some? && i < a.lenReduced
    ensures DecaysAt(a, slots, i)
  {
    assert |slots[..i]| == i;
  }

  /** How many parameters of `slots` get weight decay. */
  function DecayCount(a: Attributes, slots: seq<Slot>): nat
  {
    if |slots| == 0 then 0
    else DecayCount(a, slots[..|slots| - 1])
         + (if DecaysAt(a, slots, |slots| - 1) then 1 else 0)
  }

  lemma {:induction false} DecaysAtPrefix(a: Attributes, slots: seq<Slot>, i: nat, n: nat)
    requires i < n <= |slots|
    ensures DecaysAt(a, slots[..n], i) == DecaysAt(a, slots, i)
  {
    assert slots[..n][..i] == slots[..i];
  }

  /**
   * Exactly `lenReduced` parameters get weight decay, or all gradient-bearing
   * ones when there are fewer: the first `lenReduced` that HAVE a gradient.
   */
  lemma {:induction false} DecayCountIsBounded(a: Attributes, slots: seq<Slot>)
    ensures DecayCount(a, slots) ==
      if a.lenReduced <= 0 then 0
      else if GradCount(slots) < a.lenReduced then GradCount(slots)
      else a.lenReduced
  {
    if |slots| > 0 {
      var init := slots[..|slots| - 1];
      assert slots[..|slots| - 1] == init;
      DecayCountIsBounded(a, init);
    }
  }

  /** With every gradient present, decay goes to exactly the positions below `lenReduced`. */
  lemma {:induction false} GradCountAllPresent(slots: seq<Slot>)
    requires forall k :: 0 <= k < |slots| ==> slots[k].grad.Some?
    ensures GradCount(slots) == |slots|
  {
    if |slots| > 0 {
      GradCountAllPresent(slots[..|slots| - 1]);
    }
  }

  lemma DecayIsPositionalWhenAllGradsPresent(a: Attributes, slots: seq<Slot>, i: nat)
    requires forall k :: 0 <= k < |slots| ==> slots[k].grad.Some?
    requires i < |slots|
    ensures DecaysAt(a, slots, i) <==> i < a.lenReduced
  {
    GradCountAllPresent(slots[..i]);
  }

  /**
   * A missing gradient among the leading parameters pushes decay past position
   * `lenReduced`: with `lenReduced == 1` and no gradient at position 0, the
   * parameter at position 1 gets decay.
   */
  lemma DecayPassesLenReduced(a: Attributes, w0: real, w1: real, g1: real)
    requires a.lenReduced == 1
    ensures DecaysAt(a, [Slot(w0, None, None), Slot(w1, Some(g1), None)], 1)
  {
    var slots := [Slot(w0, None, None), Slot(w1, Some(g1), None)];
    assert slots[..1][..0] == [];
  }

  // ---------------------------------------------------------------------------
  // The loop and the positional definition agree

  /** Position `i` of the scan is the step with the counter advanced past the gradients before it. */
  lemma {:induction false} ScanAt(a: Attributes, lr: real, momentum: real, slots: seq<Slot>,
                                  counter: nat, ratio: NormRatio, i: nat)
    requires i < |slots|
    ensures |Scan(a, lr, momentum, slots, counter, ratio)| == |slots|
    ensures Scan(a, lr, momentum, slots, counter, ratio)[i] ==
      SlotStep(a, lr, momentum, counter + GradCount(slots[..i]) < a.lenReduced, slots[i], ratio)
    decreases |slots|
  {
    var c' := if slots[0].grad.Some? then counter + 1 else counter;
    if |slots| > 1 {
      ScanAt(a, lr, momentum, slots[1..], c', ratio, if i == 0 then 0 else i - 1);
    }
    if i > 0 {
      assert slots[..i] == [slots[0]] + slots[1..][..i - 1];
      GradCountAppend([slots[0]], slots[1..][..i - 1]);
      assert [slots[0]][..0] == [];
    }
  }

  /** The source's counter-threaded loop computes the positional step. */
  lemma ScanIsGroupStep(a: Attributes, lr: real, momentum: real, slots: seq<Slot>, ratio: NormRatio)
    ensures Scan(a, lr, momentum, slots, 0, ratio) == GroupStep(a, lr, momentum, slots, ratio)
  {
    var r := Scan(a, lr, momentum, slots, 0, ratio);
    var q := GroupStep(a, lr, momentum, slots, ratio);
    if |slots| > 0 {
      ScanAt(a, lr, momentum, slots, 0, ratio, 0);
    }
    forall i | 0 <= i < |slots| ensures r[i] == q[i] {
      ScanAt(a, lr, momentum, slots, 0, ratio, i);
    }
    if |slots| == 0 {
      assert r == [];
    }
  }

  // ---------------------------------------------------------------------------
  // The momentum buffer accumulates discounted contributions

  /** The buffer after a parameter's gradient-bearing steps, created at zero on the first. */
  function BufferAfter(momentum: real, contributions: seq<real>): real
  {
    if |contributions| == 0 then 0.0
    else NextBuffer(BufferAfter(momentum, contributions[..|contributions| - 1]),
                    momentum, contributions[|contributions| - 1])
  }

  function Pow(x: real, k: nat): real
  {
    if k == 0 then 1.0 else x * Pow(x, k - 1)
  }

  /** Sum over `t` of `momentum^(n-1-t) * contributions[t]`, `n` the number of steps. */
  function DiscountedSum(momentum: real, contributions: seq<real>): real
  {
    if |contributions| == 0 then 0.0
    else Pow(momentum, |contributions| - 1) * contributions[0]
         + DiscountedSum(momentum, contributions[1..])
  }

  lemma {:induction false} DiscountedSumSnoc(momentum: real, cs: seq<real>, c: real)
    ensures DiscountedSum(momentum, cs + [c]) == DiscountedSum(momentum, cs) * momentum + c
    decreases |cs|
  {
    if |cs| == 0 {
      assert cs + [c] == [c];
      assert DiscountedSum(momentum, [c]) == Pow(momentum, 0) * c + DiscountedSum(momentum, []);
    } else {
      var p := Pow(momentum, |cs| - 1);
      var rest := DiscountedSum(momentum, cs[1..]);
      assert (cs + [c])[1..] == cs[1..] + [c];
      assert |cs + [c]| - 1 == |cs|;
      calc {
        DiscountedSum(momentum, cs + [c]);
        Pow(momentum, |cs|) * cs[0] + DiscountedSum(momentum, cs[1..] + [c]);
        { DiscountedSumSnoc(momentum, cs[1..], c); }
        Pow(momentum, |cs|) * cs[0] + (rest * momentum + c);
        { assert Pow(momentum, |cs|) == momentum * p; }
        (momentum * p) * cs[0] + (rest * momentum + c);
        { MulRearrange(momentum, p, cs[0], rest); }
        (p * cs[0] + rest) * momentum + c;
        DiscountedSum(momentum, cs) * momentum + c;
      }
    }
  }

  lemma MulRearrange(m: real, p: real, x: real, r: real)
    ensures (m * p) * x + r * m == (p * x + r) * m
  {
  }

  /** The momentum buffer is the exponentially weighted sum of all contributions so far. */
  lemma {:induction false} BufferIsDiscountedSum(momentum: real, contributions: seq<real>)
    ensures BufferAfter(momentum, contributions) == DiscountedSum(momentum, contributions)
  {
    var n := |contributions|;
    if n > 0 {
      var init := contributions[..n - 1];
      var c := contributions[n - 1];
      assert init + [c] == contributions;
      calc {
        BufferAfter(momentum, contributions);
        NextBuffer(BufferAfter(momentum, init), momentum, c);
        { BufferIsDiscountedSum(momentum, init); }
        NextBuffer(DiscountedSum(momentum, init), momentum, c);
        { DiscountedSumSnoc(momentum, init, c); }
        DiscountedSum(momentum, init + [c]);
      }
    }
  }

  /** What one gradient-bearing step adds to the decayed buffer. */
  function Contribution(a: Attributes, lr: real, decay: bool, w: real, g: real,
                        ratio: NormRatio): real
  {
    var g' := DecayedGrad(a, decay, w, g);
    if a.classicMomentum then ScaledRate(lr, TrustRatio(a.eta, ratio, w, g')) * g' else g'
  }

  /** A gradient-bearing step moves the buffer (zero when missing) by one `NextBuffer` step. */
  lemma SlotStepBuffer(a: Attributes, lr: real, momentum: real, decay: bool,
                       x: Slot, ratio: NormRatio)
    requires x.grad.Some?
    ensures SlotStep(a, lr, momentum, decay, x, ratio).buffer ==
      Some(NextBuffer(x.buffer.GetOr(0.0), momentum,
                      Contribution(a, lr, decay, x.data, x.grad.value, ratio)))
  {
  }

  /**
   * One parameter stepped `|grads|` times; before step `t` the backward pass has
   * left the gradient `grads[t]`, and `decays[t]` says whether it gets decay.
   */
  function Steps(a: Attributes, lr: real, momentum: real, x: Slot,
                 grads: seq<real>, decays: seq<bool>, ratio: NormRatio): Slot
    requires |decays| == |grads|
  {
    if |grads| == 0 then x
    else
      var n := |grads| - 1;
      var y := Steps(a, lr, momentum, x, grads[..n], decays[..n], ratio);
      SlotStep(a, lr, momentum, decays[n], y.(grad := Some(grads[n])), ratio)
  }

  /** The contribution of each of those steps, taken at the parameter's value before it. */
  function Contributions(a: Attributes, lr: real, momentum: real, x: Slot,
                         grads: seq<real>, decays: seq<bool>, ratio: NormRatio): (r: seq<real>)
    requires |decays| == |grads|
    ensures |r| == |grads|
  {
    if |grads| == 0 then []
    else
      var n := |grads| - 1;
      var y := Steps(a, lr, momentum, x, grads[..n], decays[..n], ratio);
      Contributions(a, lr, momentum, x, grads[..n], decays[..n], ratio)
        + [Contribution(a, lr, decays[n], y.data, grads[n], ratio)]
  }

  /**
   * Stepping a parameter that has no buffer yet leaves, after one or more steps,
   * a buffer equal to the fold of its contributions and so to their discounted sum.
   */
  lemma {:induction false} RepeatedStepsAccumulate(a: Attributes, lr: real, momentum: real, x: Slot,
                                                   grads: seq<real>, decays: seq<bool>,
                                                   ratio: NormRatio)
    requires |decays| == |grads| && x.buffer.None?
    ensures var y := Steps(a, lr, momentum, x, grads, decays, ratio);
      var cs := Contributions(a, lr, momentum, x, grads, decays, ratio);
      && (|grads| > 0 ==> y.buffer == Some(BufferAfter(momentum, cs)))
      && y.buffer.GetOr(0.0) == DiscountedSum(momentum, cs)
  {
    var cs := Contributions(a, lr, momentum, x, grads, decays, ratio);
    if |grads| > 0 {
      var n := |grads| - 1;
      var y := Steps(a, lr, momentum, x, grads[..n], decays[..n], ratio);
      RepeatedStepsAccumulate(a, lr, momentum, x, grads[..n], decays[..n], ratio);
      SlotStepBuffer(a, lr, momentum, decays[n], y.(grad := Some(grads[n])), ratio);
      assert cs[..n] == Contributions(a, lr, momentum, x, grads[..n], decays[..n], ratio);
    }
    BufferIsDiscountedSum(momentum, cs);
  }

  // ---------------------------------------------------------------------------
  // A worked example

  /**
   * Classic momentum without Nesterov, one parameter 2.0 with gradient 0.5,
   * lr 0.1, eta 0.001, momentum 0.9, no decay: when the norm quotient is
   * 2.0 / 0.5 = 4.0, the buffer becomes 0.0002 and the parameter 1.9998.
   */
  lemma ClassicExample(ratio: NormRatio)
    requires ratio(2.0, 0.5) == 4.0
    ensures GroupStep(Attributes(0.9, 0.0, false, true, 0.001, 1), 0.1, 0.9,
                      [Slot(2.0, Some(0.5), None)], ratio)
         == [Slot(1.9998, Some(0.5), Some(0.0002))]
  {
    var a := Attributes(0.9, 0.0, false, true, 0.001, 1);
    var slots := [Slot(2.0, Some(0.5), None)];
    assert slots[..0] == [];
    assert DecaysAt(a, slots, 0);
  }
}
