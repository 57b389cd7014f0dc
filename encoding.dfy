/** Observations, actions and the model input that pairs them. */
module Encoding {
  import opened Config

  /** One observation of the environment: a vector of features. */
  type Observation = seq<real>

  /** The two moves: 0 pushes the cart left, 1 pushes it right. */
  type Action = a: nat | a <= 1

  /** The one-hot vector of an action: [1, 0] for left, [0, 1] for right. */
  function OneHot(a: Action): (v: seq<real>)
    ensures |v| == 2
    ensures v[a] == 1.0 && v[1 - a] == 0.0
  {
    if a == 0 then [1.0, 0.0] else [0.0, 1.0]
  }

  /** The model input for taking action `a` in observation `s`: the observation followed by the one-hot. */
  function ModelInput(s: Observation, a: Action): (x: seq<real>)
    ensures |x| == |s| + 2
    ensures x[..|s|] == s && x[|s|..] == OneHot(a)
  {
    s + OneHot(a)
  }

  /** Reads the action back from the last two entries of a model input. */
  function ActionOf(x: seq<real>): Action
    requires |x| >= 2
  {
    if x[|x| - 2] == 1.0 then 0 else 1
  }

  /** Encoding an observation-action pair loses nothing: both parts can be read back. */
  lemma ModelInputRoundTrip(s: Observation, a: Action)
    ensures |ModelInput(s, a)| == |s| + 2
    ensures ModelInput(s, a)[..|s|] == s
    ensures ActionOf(ModelInput(s, a)) == a
  {
    assert ModelInput(s, a)[|s|..] == OneHot(a);
  }

  /** Two model inputs built from observations of the same width are equal only for equal pairs. */
  lemma ModelInputInjective(s: Observation, a: Action, s': Observation, a': Action)
    requires |s| == |s'|
    requires ModelInput(s, a) == ModelInput(s', a')
    ensures s == s' && a == a'
  {
    ModelInputRoundTrip(s, a);
    ModelInputRoundTrip(s', a');
  }

  /** With a full observation the model input has the width the network is built for. */
  lemma ModelInputWidth(s: Observation, a: Action)
    requires |s| == INPUT_SIZE
    ensures |ModelInput(s, a)| == INPUT_SIZE + 2
  {
  }

  /** The training inputs of an episode: state i paired with action i, for every state. */
  function ModelInputs(states: seq<Observation>, actions: seq<Action>): (inputs: seq<seq<real>>)
    requires |states| <= |actions|
    ensures |inputs| == |states|
    ensures forall i :: 0 <= i < |inputs| ==>
      |inputs[i]| == |states[i]| + 2 && inputs[i][..|states[i]|] == states[i] && ActionOf(inputs[i]) == actions[i]
  {
    assert forall i :: 0 <= i < |states| ==> ActionOf(ModelInput(states[i], actions[i])) == actions[i] by {
      forall i | 0 <= i < |states| {
        ModelInputRoundTrip(states[i], actions[i]);
      }
    }
    seq(|states|, i requires 0 <= i < |states| => ModelInput(states[i], actions[i]))
  }

  /**
   * The second loop of train_model: appends, state by state, the state followed by the
   * one-hot of the action taken in it. Action i must exist for every state i.
   */
  method BuildInputs(states: seq<Observation>, actions: seq<Action>) returns (inputs: seq<seq<real>>)
    requires |states| <= |actions|
    ensures |inputs| == |states|
    ensures forall i :: 0 <= i < |inputs| ==>
      |inputs[i]| == |states[i]| + 2 && inputs[i][..|states[i]|] == states[i] && ActionOf(inputs[i]) == actions[i]
    ensures inputs == ModelInputs(states, actions)
  {
    inputs := [];
    for i := 0 to |states|
      invariant |inputs| == i
      invariant forall k :: 0 <= k < i ==> inputs[k] == ModelInput(states[k], actions[k])
    {
      inputs := inputs + [states[i] + OneHot(actions[i])];
    }
  }
}
