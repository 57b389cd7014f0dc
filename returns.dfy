/** Monte Carlo return targets: one training target per recorded step of an episode. */
module Returns {
  import opened Config
  import opened Encoding

  /** d raised to the power j. */
  function Pow(d: real, j: nat): real
  {
    if j == 0 then 1.0 else d * Pow(d, j - 1)
  }

  /**
   * The discounted return of a step followed by m - 1 more steps: each of the m steps
   * earns reward 1, and the reward j steps later is weighted by d^j.
   */
  function DiscountedSum(m: nat, d: real): real
  {
    if m == 0 then 0.0 else DiscountedSum(m - 1, d) + Pow(d, m - 1)
  }

  /** The value `current_reward` holds after k iterations of the target loop: it starts at 1 and becomes prev * d + 1. */
  function Reward(k: nat, d: real): (r: real)
    ensures 0.0 <= d ==> 1.0 <= r
  {
    if k == 0 then 1.0
    else
      var previous := Reward(k - 1, d);
      assert 0.0 <= d ==> 0.0 <= previous * d;
      previous * d + 1.0
  }

  /**
   * The targets of an episode of n steps: the loop prepends Reward(0), Reward(1), ... in turn,
   * so step i (counted from the front) receives Reward(n - 1 - i).
   */
  function Targets(n: nat, d: real): (targets: seq<real>)
    ensures |targets| == n
    ensures 0.0 <= d ==> forall i :: 0 <= i < n ==> targets[i] >= 1.0
  {
    seq(n, i requires 0 <= i < n => Reward(n - 1 - i, d))
  }

  /** One target per step; the last is 1 and each earlier one is the next one times d, plus 1. */
  lemma TargetsRecurrence(n: nat, d: real)
    ensures |Targets(n, d)| == n
    ensures n > 0 ==> Targets(n, d)[n - 1] == 1.0
    ensures forall i :: 0 <= i < n - 1 ==> Targets(n, d)[i] == Targets(n, d)[i + 1] * d + 1.0
  {
    if n > 0 {
      assert Targets(n, d)[n - 1] == Reward(0, d);
    }
    forall i | 0 <= i < n - 1
      ensures Targets(n, d)[i] == Targets(n, d)[i + 1] * d + 1.0
    {
      assert Targets(n, d)[i] == Reward(n - 1 - i, d);
      assert Targets(n, d)[i + 1] == Reward(n - 1 - (i + 1), d);
    }
  }

  /** Without discount, current_reward after k iterations is k + 1. */
  lemma {:induction false} RewardUndiscounted(k: nat)
    ensures Reward(k, 1.0) == (k + 1) as real
  {
    if k > 0 {
      RewardUndiscounted(k - 1);
    }
  }

  /** Without discount, step i of an n-step episode is trained towards n - i, the steps left. */
  lemma UndiscountedTargets(n: nat)
    ensures |Targets(n, 1.0)| == n
    ensures forall i :: 0 <= i < n ==> Targets(n, 1.0)[i] == (n - i) as real
  {
    forall i | 0 <= i < n
      ensures Targets(n, 1.0)[i] == (n - i) as real
    {
      RewardUndiscounted(n - 1 - i);
    }
  }

  /** Without discount the targets are positive whole numbers that strictly decrease towards the end. */
  lemma UndiscountedTargetsDecrease(n: nat)
    ensures forall i, j :: 0 <= i < j < n ==> Targets(n, 1.0)[i] > Targets(n, 1.0)[j] >= 1.0
  {
    UndiscountedTargets(n);
  }

  /** Peeling the first step off a discounted sum. */
  lemma {:induction false} DiscountedSumFront(m: nat, d: real)
    ensures DiscountedSum(m + 1, d) == 1.0 + d * DiscountedSum(m, d)
  {
    if m > 0 {
      DiscountedSumFront(m - 1, d);
      calc {
        DiscountedSum(m + 1, d);
        DiscountedSum(m, d) + Pow(d, m);
        1.0 + d * DiscountedSum(m - 1, d) + d * Pow(d, m - 1);
        1.0 + d * (DiscountedSum(m - 1, d) + Pow(d, m - 1));
        1.0 + d * DiscountedSum(m, d);
      }
    }
  }

  /** The recurrence computes exactly the discounted sum of k + 1 unit rewards. */
  lemma {:induction false} RewardIsDiscountedSum(k: nat, d: real)
    ensures Reward(k, d) == DiscountedSum(k + 1, d)
  {
    if k > 0 {
      RewardIsDiscountedSum(k - 1, d);
      DiscountedSumFront(k, d);
    } else {
      DiscountedSumFront(0, d);
    }
  }

  /** Each target is the discounted return from its step to the end of the episode. */
  lemma TargetsAreReturns(n: nat, d: real)
    ensures |Targets(n, d)| == n
    ensures forall i :: 0 <= i < n ==> Targets(n, d)[i] == DiscountedSum(n - i, d)
  {
    forall i | 0 <= i < n
      ensures Targets(n, d)[i] == DiscountedSum(n - i, d)
    {
      RewardIsDiscountedSum(n - 1 - i, d);
    }
  }

  /** For a decay in [0, 1] every power stays in [0, 1]. */
  lemma {:induction false} PowInUnit(d: real, j: nat)
    requires 0.0 <= d <= 1.0
    ensures 0.0 <= Pow(d, j) <= 1.0
  {
    if j > 0 {
      PowInUnit(d, j - 1);
      var p := Pow(d, j - 1);
      assert Pow(d, j) == d * p;
      assert 0.0 <= d * p by {
        assert 0.0 <= d && 0.0 <= p;
      }
      assert d * p <= p by {
        assert 0.0 <= (1.0 - d) * p;
      }
    }
  }

  /** For a decay in [0, 1] the return of m steps lies between 1 and m. */
  lemma {:induction false} DiscountedSumBounds(m: nat, d: real)
    requires 0.0 <= d <= 1.0
    ensures m > 0 ==> 1.0 <= DiscountedSum(m, d)
    ensures DiscountedSum(m, d) <= m as real
  {
    if m > 0 {
      DiscountedSumBounds(m - 1, d);
      PowInUnit(d, m - 1);
      if m == 1 {
        assert Pow(d, 0) == 1.0;
      }
    }
  }

  /**
   * The first loop of train_model: for every recorded state it prepends current_reward
   * to the answers, then multiplies current_reward by REWARD_DECAY and adds 1.
   */
  method ComputeTargets(states: seq<Observation>) returns (answers: seq<real>)
    ensures answers == Targets(|states|, REWARD_DECAY)
    ensures |answers| == |states|
    ensures forall i :: 0 <= i < |answers| ==> answers[i] == (|states| - i) as real
  {
    answers := [];
    var currentReward := 1.0;
    for i := 0 to |states|
      invariant answers == Targets(i, REWARD_DECAY)
      invariant currentReward == Reward(i, REWARD_DECAY)
    {
      answers := [currentReward] + answers;
      currentReward := currentReward * REWARD_DECAY;
      currentReward := currentReward + 1.0;
    }
    UndiscountedTargets(|states|);
  }
}
