/**
 * The LARS optimiser object: an epoch counter, a momentum buffer per parameter,
 * and a step that updates every gradient-bearing parameter in place.
 */
module Lars {
  import opened Wrappers
  import opened LarsUpdate

  /** A model parameter: a scalar value and, once backpropagation ran, a gradient. */
  class Parameter {
    var data: real
    var grad: Option<real>

    constructor (data: real, grad: Option<real>)
      ensures this.data == data && this.grad == grad
    {
      this.data := data;
      this.grad := grad;
    }
  }

  /** A parameter group: its parameters and the hyperparameters stored with them. */
  datatype Group = Group(
    params: seq<Parameter>,
    lr: real,
    momentum: real,
    useNesterov: bool,
    weightDecay: real,
    classicMomentum: bool,
    eta: real,
    lenReduced: int)

  /** No parameter occurs twice in `ps`. */
  ghost predicate Distinct(ps: seq<Parameter>)
  {
    forall i, j :: 0 <= i < j < |ps| ==> ps[i] != ps[j]
  }

  /** Every parameter belongs to at most one position of one group. */
  ghost predicate Separate(groups: seq<Group>)
  {
    (forall k :: 0 <= k < |groups| ==> Distinct(groups[k].params)) &&
    (forall k, l, p :: 0 <= k < l < |groups| && p in groups[k].params ==> p !in groups[l].params)
  }

  class LarsOptimiser {
    /** Steps taken without an explicit epoch. */
    var epoch: int
    /** The momentum buffer of each parameter that has had a gradient. */
    var state: map<Parameter, real>
    var paramGroups: seq<Group>

    const lr: real
    const momentum: real
    const weightDecay: real
    const useNesterov: bool
    const classicMomentum: bool
    const eta: real
    const lenReduced: int

    /** The optimiser's attributes that the step reads instead of the group's. */
    function Attrs(): Attributes
    {
      Attributes(momentum, weightDecay, useNesterov, classicMomentum, eta, lenReduced)
    }

    ghost predicate Valid()
      reads this
    {
      Separate(paramGroups)
    }

    ghost function AllParams(): set<Parameter>
      reads this
    {
      set k, p | 0 <= k < |paramGroups| && p in paramGroups[k].params :: p
    }

    /** A parameter together with its momentum buffer, if one exists. */
    ghost function SlotOf(p: Parameter): Slot
      reads this, p
    {
      Slot(p.data, p.grad, if p in state then Some(state[p]) else None)
    }

    ghost function SlotsOf(ps: seq<Parameter>): (r: seq<Slot>)
      reads this, set p | p in ps
      ensures |r| == |ps|
      ensures forall i :: 0 <= i < |ps| ==> r[i] == SlotOf(ps[i])
    {
      if |ps| == 0 then [] else SlotsOf(ps[..|ps| - 1]) + [SlotOf(ps[|ps| - 1])]
    }

    /** One group holding `params`, with the optimiser's settings as the group's hyperparameters. */
    constructor (params: seq<Parameter>, lr: real, lenReduced: int, momentum: real := 0.9,
                 useNesterov: bool := false, weightDecay: real := 0.0,
                 classicMomentum: bool := true, eta: real := 0.001)
      ensures epoch == 0 && state == map[]
      ensures paramGroups ==
        [Group(params, lr, momentum, useNesterov, weightDecay, classicMomentum, eta, lenReduced)]
      ensures this.lr == lr && this.momentum == momentum && this.weightDecay == weightDecay
      ensures this.useNesterov == useNesterov && this.classicMomentum == classicMomentum
      ensures this.eta == eta && this.lenReduced == lenReduced
      ensures Distinct(params) ==> Valid()
    {
      epoch := 0;
      paramGroups :=
        [Group(params, lr, momentum, useNesterov, weightDecay, classicMomentum, eta, lenReduced)];
      state := map[];
      this.lr := lr;
      this.momentum := momentum;
      this.weightDecay := weightDecay;
      this.useNesterov := useNesterov;
      this.classicMomentum := classicMomentum;
      this.eta := eta;
      this.lenReduced := lenReduced;
    }

    /**
     * One optimisation step. `closure` is the value the loss closure returns when
     * called; `ratio` gives the norm quotient of the trust ratio.
     */
    method Step(epochArg: Option<int>, closure: Option<real>, ratio: NormRatio)
      returns (loss: Option<real>)
      requires Valid()
      modifies this`epoch, this`state, AllParams()
      ensures loss == closure
      ensures epoch == if epochArg.None? then old(epoch) + 1 else old(epoch)
      ensures forall k :: 0 <= k < |paramGroups| ==>
        SlotsOf(paramGroups[k].params) ==
          GroupStep(Attrs(), paramGroups[k].lr, paramGroups[k].momentum,
                    old(SlotsOf(paramGroups[k].params)), ratio)
      ensures forall q :: q !in AllParams() ==>
        (q in state <==> q in old(state)) && (q in state ==> state[q] == old(state)[q])
    {
      loss := None;
      if closure.Some? {
        loss := Some(closure.value);
      }
      if epochArg.None? {
        epoch := epoch + 1;
      }
      for k := 0 to |paramGroups|
        invariant epoch == if epochArg.None? then old(epoch) + 1 else old(epoch)
        invariant forall l :: 0 <= l < k ==>
          SlotsOf(paramGroups[l].params) ==
            GroupStep(Attrs(), paramGroups[l].lr, paramGroups[l].momentum,
                      old(SlotsOf(paramGroups[l].params)), ratio)
        invariant forall l :: k <= l < |paramGroups| ==>
          SlotsOf(paramGroups[l].params) == old(SlotsOf(paramGroups[l].params))
        invariant forall q :: q !in AllParams() ==>
          (q in state <==> q in old(state)) && (q in state ==> state[q] == old(state)[q])
      {
        StepGroupAt(k, ratio);
      }
    }

    /** The walk over group `k`, and what it leaves alone: the other groups and every other buffer. */
    method StepGroupAt(k: int, ratio: NormRatio)
      requires Valid() && 0 <= k < |paramGroups|
      modifies this`state, set p | p in paramGroups[k].params
      ensures SlotsOf(paramGroups[k].params) ==
        GroupStep(Attrs(), paramGroups[k].lr, paramGroups[k].momentum,
                  old(SlotsOf(paramGroups[k].params)), ratio)
      ensures forall l :: 0 <= l < |paramGroups| && l != k ==>
        SlotsOf(paramGroups[l].params) == old(SlotsOf(paramGroups[l].params))
      ensures forall q :: q !in AllParams() ==>
        (q in state <==> q in old(state)) && (q in state ==> state[q] == old(state)[q])
    {
      var group := paramGroups[k];
      StepGroup(group, ratio);
      forall l | 0 <= l < |paramGroups| && l != k
        ensures SlotsOf(paramGroups[l].params) == old(SlotsOf(paramGroups[l].params))
      {
        var ps := paramGroups[l].params;
        forall i | 0 <= i < |ps|
          ensures SlotOf(ps[i]) == old(SlotOf(ps[i]))
        {
          assert ps[i] in paramGroups[l].params;
        }
      }
      forall q | q !in AllParams()
        ensures q !in group.params
      {
        assert forall p :: p in group.params ==> p in AllParams();
      }
    }

    /** The step's walk over one group. */
    method StepGroup(group: Group, ratio: NormRatio)
      requires Distinct(group.params)
      modifies this`state, set p | p in group.params
      ensures SlotsOf(group.params) ==
        GroupStep(Attrs(), group.lr, group.momentum, old(SlotsOf(group.params)), ratio)
      ensures forall q :: q !in group.params ==>
        (q in state <==> q in old(state)) && (q in state ==> state[q] == old(state)[q])
    {
      var learningRate := group.lr;
      var momentum := group.momentum;
      var ps := group.params;
      ghost var before := SlotsOf(ps);
      var counter: nat := 0;
      for i := 0 to |ps|
        invariant counter == GradCount(before[..i])
        invariant forall k :: 0 <= k < i ==>
          SlotOf(ps[k]) == SlotStep(Attrs(), learningRate, momentum, DecaysAt(Attrs(), before, k),
                                    before[k], ratio)
        invariant forall k :: i <= k < |ps| ==> SlotOf(ps[k]) == before[k]
        invariant forall q :: q !in ps ==>
          (q in state <==> q in old(state)) && (q in state ==> state[q] == old(state)[q])
      {
        var p := ps[i];
        GradCountStep(before, i);
        if p.grad.None? {
          continue;
        }
        assert DecaysAt(Attrs(), before, i) == (counter < lenReduced);
        label pre:
        StepParam(p, counter < lenReduced, learningRate, momentum, ratio);
        forall k | 0 <= k < |ps| && k != i
          ensures SlotOf(ps[k]) == old@pre(SlotOf(ps[k]))
        {
          assert ps[k] != p;
        }
        counter := counter + 1;
      }
      GroupStepByPosition(Attrs(), learningRate, momentum, before, ratio, SlotsOf(ps));
    }

    /**
     * The update of one parameter that has a gradient; `decay` is the outcome of
     * the decay counter test, `learningRate` and `momentum` the group's values.
     */
    method StepParam(p: Parameter, decay: bool, learningRate: real, momentum: real,
                     ratio: NormRatio)
      requires p.grad.Some?
      modifies this`state, p
      ensures SlotOf(p) == SlotStep(Attrs(), learningRate, momentum, decay, old(SlotOf(p)), ratio)
      ensures p in state && state == old(state)[p := state[p]]
    {
      var param := p.data;
      var grad := p.grad.value;
      if decay {
        grad := grad + weightDecay * param;
        p.grad := Some(grad);
      }
      var nextV: real;
      if p !in state {
        nextV := 0.0;
        state := state[p := nextV];
      } else {
        nextV := state[p];
      }
      assert grad == DecayedGrad(Attrs(), decay, param, old(p.grad).value);
      if classicMomentum {
        ClassicMomentumStep(p, grad, nextV, learningRate, momentum, ratio);
      } else {
        AdaptiveMomentumStep(p, grad, nextV, learningRate, momentum, ratio);
      }
    }

    /** Classic momentum: trust ratio of the gradient, then buffer, then parameter. */
    method ClassicMomentumStep(p: Parameter, grad: real, v: real, learningRate: real,
                               momentum: real, ratio: NormRatio)
      requires classicMomentum
      modifies this`state, p`data
      ensures var u := ClassicMove(Attrs(), momentum, old(p.data), grad, v,
                                   ScaledRate(learningRate, TrustRatio(eta, ratio, old(p.data), grad)));
        p.data == u.data && state == old(state)[p := u.buffer]
    {
      var param := p.data;
      var trustRatio := TrustRatio(eta, ratio, param, grad);
      var scaledLr := learningRate * trustRatio;
      var nextV := v * momentum + scaledLr * grad;
      assert scaledLr == ScaledRate(learningRate, TrustRatio(eta, ratio, param, grad));
      assert nextV == NextBuffer(v, momentum, scaledLr * grad);
      ghost var u := ClassicMove(Attrs(), momentum, param, grad, v, scaledLr);
      state := state[p := nextV];
      var update := if useNesterov then this.momentum * nextV + scaledLr * grad else nextV;
      p.data := p.data - update;
      assert p.data == u.data && nextV == u.buffer;
    }

    /** Non-classic momentum: buffer, then direction, then its trust ratio and the move. */
    method AdaptiveMomentumStep(p: Parameter, grad: real, v: real, learningRate: real,
                                momentum: real, ratio: NormRatio)
      requires !classicMomentum
      modifies this`state, p`data
      ensures var u := AdaptiveMove(Attrs(), learningRate, momentum, old(p.data), grad, v, ratio);
        p.data == u.data && state == old(state)[p := u.buffer]
    {
      var param := p.data;
      var nextV := v * momentum + grad;
      state := state[p := nextV];
      var update := if useNesterov then this.momentum * nextV + grad else nextV;
      var trustRatio := TrustRatio(eta, ratio, param, update);
      var scaledLr := learningRate * trustRatio;
      p.data := p.data - scaledLr * update;
      assert nextV == NextBuffer(v, momentum, grad);
      assert update == Direction(Attrs(), nextV, grad);
      assert p.data == Descend(param, scaledLr, update);
    }
  }
}
