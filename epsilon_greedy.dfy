/** The epsilon-greedy decision rule and the schedule of its exploration parameter. */
module EpsilonGreedy {
  import opened Config
  import opened Encoding

  /** The predicted value of action `a`. */
  function Value(a: Action, valueLeft: real, valueRight: real): real
  {
    if a == 0 then valueLeft else valueRight
  }

  /** The greedy action: left only when its value is strictly higher, so ties go right. */
  function Greedy(valueLeft: real, valueRight: real): (a: Action)
    ensures Value(a, valueLeft, valueRight) >= Value(1 - a, valueLeft, valueRight)
    ensures a == 0 <==> valueLeft > valueRight
  {
    if valueLeft > valueRight then 0 else 1
  }

  /**
   * A draw explores when it falls below 1/epsilon, the exploration probability: a draw of
   * 0 or less always explores, and once epsilon is at least 1 a draw of 1 or more never does.
   */
  predicate Explores(variation: real, epsilon: real)
    requires epsilon != 0.0
    ensures epsilon > 0.0 && variation <= 0.0 ==> Explores(variation, epsilon)
    ensures epsilon >= 1.0 && variation >= 1.0 ==> !Explores(variation, epsilon)
  {
    ReciprocalInUnit(epsilon);
    variation < 1.0 / epsilon
  }

  /** The reciprocal of a positive epsilon is positive, and at most 1 once epsilon is at least 1. */
  lemma ReciprocalInUnit(epsilon: real)
    requires epsilon != 0.0
    ensures epsilon > 0.0 ==> 1.0 / epsilon > 0.0
    ensures epsilon >= 1.0 ==> 1.0 / epsilon <= 1.0
  {
    if epsilon > 0.0 {
      assert (1.0 / epsilon) * epsilon == 1.0;
    }
  }

  /**
   * The choice made by the policy: compare the two values first, then the draw;
   * the non-greedy action when the draw explores, the greedy one otherwise.
   */
  function Choose(valueLeft: real, valueRight: real, variation: real, epsilon: real): (a: Action)
    requires epsilon != 0.0
    ensures a == Greedy(valueLeft, valueRight) <==> !Explores(variation, epsilon)
    ensures a == 1 - Greedy(valueLeft, valueRight) <==> Explores(variation, epsilon)
  {
    if valueLeft > valueRight then
      if variation < 1.0 / epsilon then 1 else 0
    else
      if variation < 1.0 / epsilon then 0 else 1
  }

  /** Without exploring the policy picks an action of highest value; exploring, one of lowest value. */
  lemma ChooseByValue(valueLeft: real, valueRight: real, variation: real, epsilon: real)
    requires epsilon != 0.0
    ensures var a := Choose(valueLeft, valueRight, variation, epsilon);
      if Explores(variation, epsilon) then Value(a, valueLeft, valueRight) <= Value(1 - a, valueLeft, valueRight)
      else Value(a, valueLeft, valueRight) >= Value(1 - a, valueLeft, valueRight)
  {
  }

  /** Forcing the draw below 1/epsilon gives the non-greedy action; at or above it, the greedy one. */
  lemma ForcedDraws(valueLeft: real, valueRight: real, epsilon: real)
    requires epsilon > 0.0
    ensures Choose(valueLeft, valueRight, 0.0, epsilon) == (if valueLeft > valueRight then 1 else 0)
    ensures Choose(valueLeft, valueRight, 1.0 / epsilon, epsilon) == (if valueLeft > valueRight then 0 else 1)
  {
  }

  /** The exploration parameter after one policy call with draw `variation`. */
  function NextEpsilon(epsilon: real, variation: real): (e: real)
    requires epsilon != 0.0
    ensures e == epsilon || e == epsilon + EPSILON_INCREMENT
    ensures e > epsilon <==> Explores(variation, epsilon)
  {
    if Explores(variation, epsilon) then epsilon + EPSILON_INCREMENT else epsilon
  }

  /** The exploration parameter after a sequence of policy calls with the given draws, in order. */
  function EpsilonAfter(epsilon: real, draws: seq<real>): (e: real)
    requires epsilon > 0.0
    ensures epsilon <= e <= epsilon + |draws| as real * EPSILON_INCREMENT
  {
    if draws == [] then epsilon
    else NextEpsilon(EpsilonAfter(epsilon, draws[..|draws| - 1]), draws[|draws| - 1])
  }

  /** Number of exploring calls among a sequence of policy calls with the given draws. */
  function Explorations(epsilon: real, draws: seq<real>): nat
    requires epsilon > 0.0
  {
    if draws == [] then 0
    else
      var prev := EpsilonAfter(epsilon, draws[..|draws| - 1]);
      Explorations(epsilon, draws[..|draws| - 1]) + (if Explores(draws[|draws| - 1], prev) then 1 else 0)
  }

  /** Epsilon grows by exactly 1/100 per exploring call and by nothing otherwise. */
  lemma {:induction false} EpsilonCountsExplorations(epsilon: real, draws: seq<real>)
    requires epsilon > 0.0
    ensures EpsilonAfter(epsilon, draws) == epsilon + Explorations(epsilon, draws) as real * EPSILON_INCREMENT
    ensures Explorations(epsilon, draws) <= |draws|
  {
    if draws != [] {
      EpsilonCountsExplorations(epsilon, draws[..|draws| - 1]);
    }
  }

  /** Epsilon never decreases over consecutive calls, so the exploration probability never increases. */
  lemma EpsilonMonotone(epsilon: real, draws: seq<real>, later: seq<real>)
    requires epsilon > 0.0
    ensures EpsilonAfter(epsilon, draws) <= EpsilonAfter(epsilon, draws + later)
    ensures 1.0 / EpsilonAfter(epsilon, draws + later) <= 1.0 / EpsilonAfter(epsilon, draws)
  {
    EpsilonAfterConcat(epsilon, draws, later);
    ReciprocalAntitone(EpsilonAfter(epsilon, draws), EpsilonAfter(epsilon, draws + later));
  }

  /** Taking reciprocals reverses the order of positive reals. */
  lemma ReciprocalAntitone(a: real, b: real)
    requires 0.0 < a <= b
    ensures 1.0 / b <= 1.0 / a
  {
    assert (1.0 / b) * b == 1.0;
    assert (1.0 / a) * a == 1.0;
  }

  /** Running two batches of calls one after the other is running their concatenation. */
  lemma {:induction false} EpsilonAfterConcat(epsilon: real, draws: seq<real>, later: seq<real>)
    requires epsilon > 0.0
    ensures EpsilonAfter(epsilon, draws + later) == EpsilonAfter(EpsilonAfter(epsilon, draws), later)
  {
    if later == [] {
      assert draws + later == draws;
    } else {
      var all := draws + later;
      assert all[..|all| - 1] == draws + later[..|later| - 1];
      EpsilonAfterConcat(epsilon, draws, later[..|later| - 1]);
    }
  }

  /** Starting from its initial value, epsilon stays at least 2 whatever the draws. */
  lemma EpsilonStaysAboveInitial(draws: seq<real>)
    ensures EpsilonAfter(INITIAL_EPSILON, draws) >= 2.0
  {
  }
}
