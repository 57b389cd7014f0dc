/**
 * The CartPole agent: the object that chooses moves, trains its value model at the end of
 * each episode and checkpoints the model's weights. The value model itself is opaque; the
 * agent records every call it makes to it (load, fit, save) in `log`.
 */
module Agent {
  import opened Config
  import opened Encoding
  import opened Returns
  import opened EpsilonGreedy
  import opened Checkpoints

  /** A call made to the value model. */
  datatype Event =
    | LoadWeights(file: string)
    | FitModel(inputs: seq<seq<real>>, targets: seq<real>)
    | SaveWeights(file: string)

  /** The environment's answer to a step: the next observation and whether the episode is over. */
  datatype Outcome = Outcome(observation: Observation, done: bool)

  /** The random draws of the first n policy calls of episode i. */
  function Draws(i: nat, n: nat, draw: (nat, nat) -> real): seq<real>
  {
    seq(n, t requires 0 <= t < n => draw(i, t))
  }

  /** One more policy call of episode i moves epsilon on by that call's draw. */
  lemma EpsilonAfterNextDraw(epsilon: real, i: nat, t: nat, draw: (nat, nat) -> real)
    requires epsilon > 0.0
    ensures EpsilonAfter(epsilon, Draws(i, t + 1, draw)) == NextEpsilon(EpsilonAfter(epsilon, Draws(i, t, draw)), draw(i, t))
  {
    assert Draws(i, t + 1, draw)[..t] == Draws(i, t, draw);
  }

  /** The files written by the save calls of a log, in order. */
  function SavedFiles(log: seq<Event>): seq<string>
  {
    if log == [] then []
    else SavedFiles(log[..|log| - 1]) + (if log[|log| - 1].SaveWeights? then [log[|log| - 1].file] else [])
  }

  /**
   * Concatenation of logs is associative. Dafny knows this already; calling it names the
   * regrouping for the episode loop's invariant, which keeps that proof fast.
   */
  lemma AppendAssociates(a: seq<Event>, b: seq<Event>, c: seq<Event>)
    ensures a + b + c == a + (b + c)
  {
  }

  /** Saved files of two consecutive stretches of a log. */
  lemma {:induction false} SavedFilesAppend(a: seq<Event>, b: seq<Event>)
    ensures SavedFiles(a + b) == SavedFiles(a) + SavedFiles(b)
  {
    if b != [] {
      assert (a + b)[..|a + b| - 1] == a + b[..|b| - 1];
      SavedFilesAppend(a, b[..|b| - 1]);
    } else {
      assert a + b == a;
    }
  }

  /** The file checkpointed at the end of episode i, if the index is due. */
  function EpisodeCheckpoint(base: string, i: nat): (files: seq<string>)
    ensures |files| <= 1 && forall f :: f in files ==> f == CheckpointPath(base, i)
  {
    if Due(i) then [CheckpointPath(base, i)] else []
  }

  /** Episode i is checkpointed exactly when its index is among the save indices of the first i + 1 episodes. */
  lemma EpisodeCheckpointDue(base: string, i: nat)
    ensures EpisodeCheckpoint(base, i) != [] <==> i in SaveIndices(i + 1, SAVE_FREQUENCY)
  {
    SaveIndicesMembers(i + 1, SAVE_FREQUENCY);
  }

  /** The save call that ends episode i, if the index is due for a checkpoint. */
  function SaveOf(base: string, i: nat): (events: seq<Event>)
    ensures SavedFiles(events) == EpisodeCheckpoint(base, i)
    ensures forall e :: e in events ==> e.SaveWeights?
  {
    var save := [SaveWeights(CheckpointPath(base, i))];
    assert save[..0] == [];
    if Due(i) then save else []
  }

  /** The files checkpointed by the first n episodes of a run, in order. */
  function RunCheckpoints(base: string, n: nat): (files: seq<string>)
    ensures |files| == |SaveIndices(n, SAVE_FREQUENCY)|
  {
    if n == 0 then [] else RunCheckpoints(base, n - 1) + EpisodeCheckpoint(base, n - 1)
  }

  /** A fit on one finished episode of N steps: N inputs, targets N, N-1, ..., 1, and N within the step cap. */
  ghost predicate TrainedOnEpisode(e: Event)
  {
    && e.FitModel?
    && 1 <= |e.targets| <= STEP_CAP
    && |e.inputs| == |e.targets|
    && forall k :: 0 <= k < |e.targets| ==> e.targets[k] == (|e.targets| - k) as real
  }

  /** The calls made during episode i: a fit when the episode finished, then the checkpoint when due. */
  ghost predicate EpisodeRecord(events: seq<Event>, i: nat, base: string)
  {
    || events == SaveOf(base, i)
    || (|events| >= 1 && TrainedOnEpisode(events[0]) && events[1..] == SaveOf(base, i))
  }

  /** The only file an episode's calls save to is its own checkpoint, when due. */
  lemma EpisodeSaves(events: seq<Event>, i: nat, base: string)
    requires EpisodeRecord(events, i, base)
    ensures SavedFiles(events) == EpisodeCheckpoint(base, i)
  {
    var save := SaveOf(base, i);
    if events != save {
      assert events == [events[0]] + save;
      SavedFilesAppend([events[0]], save);
      assert [events[0]][..0] == [];
    }
  }

  /** The load call a training run starts with: none when no weights file is given. */
  function LoadOf(file: string): (events: seq<Event>)
    ensures events == [] <==> file == ""
    ensures |events| <= 1
    ensures forall e :: e in events ==> e == LoadWeights(file)
  {
    if |file| != 0 then [LoadWeights(file)] else []
  }

  /** Loading weights saves nothing. */
  lemma LoadSavesNothing(file: string)
    ensures SavedFiles(LoadOf(file)) == []
  {
    assert [LoadWeights(file)][..0] == [];
  }

  /** The checkpoints of n episodes go to the files of the indices 0, F, 2F, ... below n, ceil(n / F) of them. */
  lemma {:induction false} RunCheckpointsAt(base: string, n: nat)
    ensures |RunCheckpoints(base, n)| == |SaveIndices(n, SAVE_FREQUENCY)| == (n + SAVE_FREQUENCY - 1) / SAVE_FREQUENCY
    ensures forall k :: 0 <= k < |RunCheckpoints(base, n)| ==>
      RunCheckpoints(base, n)[k] == CheckpointPath(base, SaveIndices(n, SAVE_FREQUENCY)[k])
  {
    SaveIndicesShape(n, SAVE_FREQUENCY);
    if n > 0 {
      RunCheckpointsAt(base, n - 1);
    }
  }

  /** The checkpoints of a run go to pairwise distinct files. */
  lemma RunCheckpointsDistinct(base: string, n: nat)
    ensures forall a, b :: 0 <= a < b < |RunCheckpoints(base, n)| ==> RunCheckpoints(base, n)[a] != RunCheckpoints(base, n)[b]
  {
    var files := RunCheckpoints(base, n);
    var indices := SaveIndices(n, SAVE_FREQUENCY);
    RunCheckpointsAt(base, n);
    SaveIndicesShape(n, SAVE_FREQUENCY);
    forall a, b | 0 <= a < b < |files|
      ensures files[a] != files[b]
    {
      CheckpointPathsDistinct(base, indices[a], indices[b]);
    }
  }

  /** An episode in progress: the observations so far, the moves taken, epsilon, and whether it is over. */
  datatype Play = Play(states: seq<Observation>, actions: seq<Action>, epsilon: real, done: bool)

  /**
   * The first t steps of episode i, starting from exploration parameter `epsilon`: each step
   * asks the model for the value of both moves in the last observation, lets the policy choose
   * with the step's draw, and hands the move to the environment. Once the environment answers
   * `done` no further step is taken.
   */
  function Rollout(i: nat, t: nat, epsilon: real, reset: nat -> Observation, step: (nat, nat, Action) -> Outcome,
                   predict: (nat, seq<real>) -> real, draw: (nat, nat) -> real): (r: Play)
    requires epsilon > 0.0
    ensures |r.states| == |r.actions| + 1 && |r.actions| <= t
    ensures !r.done ==> |r.actions| == t
    ensures r.done ==> |r.actions| >= 1
    ensures r.epsilon >= epsilon
  {
    if t == 0 then Play([reset(i)], [], epsilon, false)
    else
      var p := Rollout(i, t - 1, epsilon, reset, step, predict, draw);
      if p.done then p
      else
        var observation := p.states[|p.states| - 1];
        var action := Choose(predict(i, ModelInput(observation, 0)), predict(i, ModelInput(observation, 1)),
                             draw(i, t - 1), p.epsilon);
        var outcome := step(i, t - 1, action);
        Play(p.states + [outcome.observation], p.actions + [action], NextEpsilon(p.epsilon, draw(i, t - 1)), outcome.done)
  }

  /** An episode that is over stays as it is, however many more steps are allowed. */
  lemma {:induction false} RolloutSettles(i: nat, t: nat, u: nat, epsilon: real, reset: nat -> Observation,
                                          step: (nat, nat, Action) -> Outcome, predict: (nat, seq<real>) -> real,
                                          draw: (nat, nat) -> real)
    requires epsilon > 0.0 && t <= u
    requires Rollout(i, t, epsilon, reset, step, predict, draw).done
    ensures Rollout(i, u, epsilon, reset, step, predict, draw) == Rollout(i, t, epsilon, reset, step, predict, draw)
  {
    if u > t {
      RolloutSettles(i, t, u - 1, epsilon, reset, step, predict, draw);
    }
  }

  /**
   * Observations and moves grow in lockstep: the first observation is the reset one and each
   * later one is the environment's answer to the move before it.
   */
  lemma {:induction false} RolloutTransitions(i: nat, t: nat, epsilon: real, reset: nat -> Observation,
                                              step: (nat, nat, Action) -> Outcome, predict: (nat, seq<real>) -> real,
                                              draw: (nat, nat) -> real)
    requires epsilon > 0.0
    ensures var r := Rollout(i, t, epsilon, reset, step, predict, draw);
      && r.states[0] == reset(i)
      && forall k :: 0 <= k < |r.actions| ==> r.states[k + 1] == step(i, k, r.actions[k]).observation
  {
    if t > 0 {
      var p := Rollout(i, t - 1, epsilon, reset, step, predict, draw);
      RolloutTransitions(i, t - 1, epsilon, reset, step, predict, draw);
      if !p.done {
        var r := Rollout(i, t, epsilon, reset, step, predict, draw);
        forall k | 0 <= k < |r.actions|
          ensures r.states[k + 1] == step(i, k, r.actions[k]).observation
        {
          if k < t - 1 {
            assert r.states[k + 1] == p.states[k + 1] && r.actions[k] == p.actions[k];
          }
        }
      }
    }
  }

  /** No answer before the last move's answer said the episode was over. */
  lemma {:induction false} RolloutRuns(i: nat, t: nat, epsilon: real, reset: nat -> Observation,
                                       step: (nat, nat, Action) -> Outcome, predict: (nat, seq<real>) -> real,
                                       draw: (nat, nat) -> real)
    requires epsilon > 0.0
    ensures var r := Rollout(i, t, epsilon, reset, step, predict, draw);
      forall k :: 0 <= k < |r.actions| - 1 ==> !step(i, k, r.actions[k]).done
  {
    if t > 0 {
      var p := Rollout(i, t - 1, epsilon, reset, step, predict, draw);
      RolloutRuns(i, t - 1, epsilon, reset, step, predict, draw);
      RolloutEnds(i, t - 1, epsilon, reset, step, predict, draw);
      if !p.done {
        var r := Rollout(i, t, epsilon, reset, step, predict, draw);
        assert |p.actions| == t - 1 && r.actions[..t - 1] == p.actions;
        forall k | 0 <= k < |r.actions| - 1
          ensures !step(i, k, r.actions[k]).done
        {
          assert r.actions[k] == p.actions[k];
          if k < t - 2 {
            assert !step(i, k, p.actions[k]).done;
          } else {
            assert p.done == step(i, k, p.actions[k]).done;
          }
        }
      }
    }
  }

  /** The episode is over exactly when the last move's answer said so. */
  lemma {:induction false} RolloutEnds(i: nat, t: nat, epsilon: real, reset: nat -> Observation,
                                       step: (nat, nat, Action) -> Outcome, predict: (nat, seq<real>) -> real,
                                       draw: (nat, nat) -> real)
    requires epsilon > 0.0
    ensures var r := Rollout(i, t, epsilon, reset, step, predict, draw);
      |r.actions| >= 1 ==> r.done == step(i, |r.actions| - 1, r.actions[|r.actions| - 1]).done
  {
    if t > 0 {
      var p := Rollout(i, t - 1, epsilon, reset, step, predict, draw);
      if p.done {
        RolloutEnds(i, t - 1, epsilon, reset, step, predict, draw);
      } else {
        var r := Rollout(i, t, epsilon, reset, step, predict, draw);
        assert |r.actions| == t && r.actions[t - 1] == r.actions[|r.actions| - 1];
      }
    }
  }

  /** The episode ends with the epsilon that all its draws leave behind. */
  lemma {:induction false} RolloutEpsilon(i: nat, t: nat, epsilon: real, reset: nat -> Observation,
                                          step: (nat, nat, Action) -> Outcome, predict: (nat, seq<real>) -> real,
                                          draw: (nat, nat) -> real)
    requires epsilon > 0.0
    ensures Rollout(i, t, epsilon, reset, step, predict, draw).epsilon
      == EpsilonAfter(epsilon, Draws(i, |Rollout(i, t, epsilon, reset, step, predict, draw).actions|, draw))
  {
    if t > 0 {
      RolloutEpsilon(i, t - 1, epsilon, reset, step, predict, draw);
      if !Rollout(i, t - 1, epsilon, reset, step, predict, draw).done {
        EpsilonAfterNextDraw(epsilon, i, t - 1, draw);
      }
    }
  }

  /** Move k is the policy's choice on observation k with draw k, at the epsilon the first k draws leave behind. */
  ghost predicate ChosenAt(i: nat, epsilon: real, predict: (nat, seq<real>) -> real, draw: (nat, nat) -> real,
                           states: seq<Observation>, actions: seq<Action>, k: nat)
    requires epsilon > 0.0 && k < |actions| && k < |states|
  {
    actions[k] == Choose(predict(i, ModelInput(states[k], 0)), predict(i, ModelInput(states[k], 1)),
                         draw(i, k), EpsilonAfter(epsilon, Draws(i, k, draw)))
  }

  /** Every move is the policy's choice at its step. */
  ghost predicate FollowsPolicy(i: nat, epsilon: real, predict: (nat, seq<real>) -> real, draw: (nat, nat) -> real,
                                states: seq<Observation>, actions: seq<Action>)
    requires epsilon > 0.0 && |states| == |actions| + 1
  {
    forall k: nat :: k < |actions| ==> ChosenAt(i, epsilon, predict, draw, states, actions, k)
  }

  /** The move a step adds is the policy's choice at that step. */
  lemma RolloutLastChoice(i: nat, t: nat, epsilon: real, reset: nat -> Observation,
                          step: (nat, nat, Action) -> Outcome, predict: (nat, seq<real>) -> real,
                          draw: (nat, nat) -> real)
    requires epsilon > 0.0 && t > 0
    requires !Rollout(i, t - 1, epsilon, reset, step, predict, draw).done
    ensures ChosenAt(i, epsilon, predict, draw, Rollout(i, t, epsilon, reset, step, predict, draw).states,
                     Rollout(i, t, epsilon, reset, step, predict, draw).actions, t - 1)
  {
    RolloutEpsilon(i, t - 1, epsilon, reset, step, predict, draw);
  }

  /** Every move of an episode is the policy's choice at the epsilon its earlier draws left behind. */
  lemma {:induction false} RolloutChoices(i: nat, t: nat, epsilon: real, reset: nat -> Observation,
                                          step: (nat, nat, Action) -> Outcome, predict: (nat, seq<real>) -> real,
                                          draw: (nat, nat) -> real)
    requires epsilon > 0.0
    ensures FollowsPolicy(i, epsilon, predict, draw, Rollout(i, t, epsilon, reset, step, predict, draw).states,
                          Rollout(i, t, epsilon, reset, step, predict, draw).actions)
  {
    if t > 0 {
      var p := Rollout(i, t - 1, epsilon, reset, step, predict, draw);
      RolloutChoices(i, t - 1, epsilon, reset, step, predict, draw);
      if !p.done {
        var r := Rollout(i, t, epsilon, reset, step, predict, draw);
        RolloutLastChoice(i, t, epsilon, reset, step, predict, draw);
        assert r.states[..t] == p.states && r.actions[..t - 1] == p.actions;
        forall k: nat | k < |r.actions|
          ensures ChosenAt(i, epsilon, predict, draw, r.states, r.actions, k)
        {
          if k < t - 1 {
            assert ChosenAt(i, epsilon, predict, draw, p.states, p.actions, k);
            assert r.actions[k] == p.actions[k] && r.states[k] == p.states[k];
          }
        }
      }
    }
  }

  /**
   * The calls episode i makes to the network when it starts from `epsilon`: when the
   * environment ended it with `done`, a fit on its moves and the observations they were taken
   * in, with the return targets; then the checkpoint, when the index is due.
   */
  function EpisodeCalls(i: nat, epsilon: real, base: string, reset: nat -> Observation, step: (nat, nat, Action) -> Outcome,
                        predict: (nat, seq<real>) -> real, draw: (nat, nat) -> real): (calls: seq<Event>)
    requires epsilon > 0.0
    ensures |calls| <= 2
    ensures forall k :: 0 <= k < |calls| ==> calls[k].FitModel? || calls[k].SaveWeights?
    ensures forall k :: 0 <= k < |calls| ==>
      (calls[k].FitModel? <==> k == 0 && Rollout(i, STEP_CAP, epsilon, reset, step, predict, draw).done)
  {
    var r := Rollout(i, STEP_CAP, epsilon, reset, step, predict, draw);
    var fit := if r.done then [FitModel(ModelInputs(r.states[..|r.actions|], r.actions), Targets(|r.actions|, REWARD_DECAY))] else [];
    fit + SaveOf(base, i)
  }

  /**
   * The calls of an episode: a fit exactly when the episode ended with `done`, on as many
   * examples as moves (at most the step cap) with targets N, ..., 1; then the checkpoint when due.
   */
  lemma EpisodeCallsRecord(i: nat, epsilon: real, base: string, reset: nat -> Observation, step: (nat, nat, Action) -> Outcome,
                           predict: (nat, seq<real>) -> real, draw: (nat, nat) -> real)
    requires epsilon > 0.0
    ensures EpisodeRecord(EpisodeCalls(i, epsilon, base, reset, step, predict, draw), i, base)
    ensures EpisodeCalls(i, epsilon, base, reset, step, predict, draw) != SaveOf(base, i)
        <==> Rollout(i, STEP_CAP, epsilon, reset, step, predict, draw).done
  {
    var r := Rollout(i, STEP_CAP, epsilon, reset, step, predict, draw);
    var calls := EpisodeCalls(i, epsilon, base, reset, step, predict, draw);
    if r.done {
      var n := |r.actions|;
      UndiscountedTargets(n);
      assert calls[0] == FitModel(ModelInputs(r.states[..n], r.actions), Targets(n, REWARD_DECAY));
      assert TrainedOnEpisode(calls[0]);
      assert calls[1..] == SaveOf(base, i);
      assert |calls| == |SaveOf(base, i)| + 1;
    } else {
      assert calls == SaveOf(base, i);
    }
  }

  /** An episode's calls save only to its own checkpoint, and only when its index is due. */
  lemma EpisodeCallsSaves(i: nat, epsilon: real, base: string, reset: nat -> Observation, step: (nat, nat, Action) -> Outcome,
                          predict: (nat, seq<real>) -> real, draw: (nat, nat) -> real)
    requires epsilon > 0.0
    ensures SavedFiles(EpisodeCalls(i, epsilon, base, reset, step, predict, draw)) == EpisodeCheckpoint(base, i)
  {
    EpisodeCallsRecord(i, epsilon, base, reset, step, predict, draw);
    EpisodeSaves(EpisodeCalls(i, epsilon, base, reset, step, predict, draw), i, base);
  }

  /** The exploration parameter after the first n episodes of a run that starts from `epsilon`. */
  function RunEpsilon(n: nat, epsilon: real, reset: nat -> Observation, step: (nat, nat, Action) -> Outcome,
                      predict: (nat, seq<real>) -> real, draw: (nat, nat) -> real): (e: real)
    requires epsilon > 0.0
    ensures e >= epsilon
  {
    if n == 0 then epsilon
    else Rollout(n - 1, STEP_CAP, RunEpsilon(n - 1, epsilon, reset, step, predict, draw), reset, step, predict, draw).epsilon
  }

  /** The calls the first n episodes of a run make, each episode starting from the epsilon the one before left. */
  function RunCalls(n: nat, epsilon: real, base: string, reset: nat -> Observation, step: (nat, nat, Action) -> Outcome,
                    predict: (nat, seq<real>) -> real, draw: (nat, nat) -> real): (calls: seq<Event>)
    requires epsilon > 0.0
    ensures |calls| <= 2 * n
    ensures forall e :: e in calls ==> e.FitModel? || e.SaveWeights?
  {
    if n == 0 then []
    else
      RunCalls(n - 1, epsilon, base, reset, step, predict, draw)
      + EpisodeCalls(n - 1, RunEpsilon(n - 1, epsilon, reset, step, predict, draw), base, reset, step, predict, draw)
  }

  /** One more episode: it starts from the epsilon the run has reached and appends its calls. */
  lemma RunStep(m: nat, epsilon: real, base: string, reset: nat -> Observation, step: (nat, nat, Action) -> Outcome,
                predict: (nat, seq<real>) -> real, draw: (nat, nat) -> real)
    requires epsilon > 0.0
    ensures RunEpsilon(m + 1, epsilon, reset, step, predict, draw)
         == Rollout(m, STEP_CAP, RunEpsilon(m, epsilon, reset, step, predict, draw), reset, step, predict, draw).epsilon
    ensures RunCalls(m + 1, epsilon, base, reset, step, predict, draw)
         == RunCalls(m, epsilon, base, reset, step, predict, draw)
            + EpisodeCalls(m, RunEpsilon(m, epsilon, reset, step, predict, draw), base, reset, step, predict, draw)
  {
  }

  /** Saved files of a log that adds one episode's calls to those of the episodes before it. */
  lemma CheckpointsSnoc(earlier: seq<Event>, episode: seq<Event>, base: string, m: nat)
    requires SavedFiles(earlier) == RunCheckpoints(base, m)
    requires SavedFiles(episode) == EpisodeCheckpoint(base, m)
    ensures SavedFiles(earlier + episode) == RunCheckpoints(base, m + 1)
  {
    SavedFilesAppend(earlier, episode);
  }

  /** Over a run the checkpoints go, in order, to the files of the episodes that were due. */
  lemma {:induction false} RunCallsSaves(n: nat, epsilon: real, base: string, reset: nat -> Observation,
                                         step: (nat, nat, Action) -> Outcome, predict: (nat, seq<real>) -> real,
                                         draw: (nat, nat) -> real)
    requires epsilon > 0.0
    ensures SavedFiles(RunCalls(n, epsilon, base, reset, step, predict, draw)) == RunCheckpoints(base, n)
    decreases n
  {
    if n > 0 {
      var m: nat := n - 1;
      var before := RunEpsilon(m, epsilon, reset, step, predict, draw);
      RunCallsSaves(m, epsilon, base, reset, step, predict, draw);
      EpisodeCallsSaves(m, before, base, reset, step, predict, draw);
      CheckpointsSnoc(RunCalls(m, epsilon, base, reset, step, predict, draw),
                      EpisodeCalls(m, before, base, reset, step, predict, draw), base, m);
    }
  }

  /**
   * The files a training run saves to, after the optional load: exactly the checkpoints of the
   * due episodes, in index order, after whatever was saved before the run.
   */
  lemma RunLogSaves(before: seq<Event>, file: string, n: nat, epsilon: real, base: string, reset: nat -> Observation,
                    step: (nat, nat, Action) -> Outcome, predict: (nat, seq<real>) -> real, draw: (nat, nat) -> real)
    requires epsilon > 0.0
    ensures SavedFiles(before + LoadOf(file) + RunCalls(n, epsilon, base, reset, step, predict, draw))
      == SavedFiles(before) + RunCheckpoints(base, n)
  {
    var calls := RunCalls(n, epsilon, base, reset, step, predict, draw);
    RunCallsSaves(n, epsilon, base, reset, step, predict, draw);
    LoadSavesNothing(file);
    var start := before + LoadOf(file);
    SavedFilesAppend(before, LoadOf(file));
    assert SavedFiles(start) == SavedFiles(before);
    SavedFilesAppend(start, calls);
  }

  class CartPoleAI {
    /** Directory the checkpoints are written under. */
    const path: string
    /** The exploration parameter: a policy call explores with probability 1/epsilon. */
    var epsilon: real
    /** The calls made to the value model so far, in order. */
    var log: seq<Event>

    /** Epsilon never drops below its initial value, so 1/epsilon is always defined. */
    ghost predicate Valid()
      reads this
    {
      epsilon >= INITIAL_EPSILON
    }

    constructor (path: string)
      ensures Valid()
      ensures this.path == path && epsilon == INITIAL_EPSILON && log == []
    {
      this.path := path;
      epsilon := INITIAL_EPSILON;
      log := [];
    }

    /**
     * Chooses a move from the model's predicted values of both moves and a uniform draw
     * in [0, 1): the greedy move unless the draw falls below 1/epsilon, in which case the
     * other move, and epsilon grows by 1/100.
     */
    method Policy(valueLeft: real, valueRight: real, variation: real) returns (action: Action)
      requires Valid()
      modifies this`epsilon
      ensures Valid()
      ensures action == Choose(valueLeft, valueRight, variation, old(epsilon))
      ensures Explores(variation, old(epsilon)) ==> action != Greedy(valueLeft, valueRight) && epsilon == old(epsilon) + EPSILON_INCREMENT
      ensures !Explores(variation, old(epsilon)) ==> action == Greedy(valueLeft, valueRight) && epsilon == old(epsilon)
      ensures epsilon == NextEpsilon(old(epsilon), variation)
    {
      if valueLeft > valueRight {
        if variation < 1.0 / epsilon {
          epsilon := epsilon + EPSILON_INCREMENT;
          return 1;
        } else {
          return 0;
        }
      } else {
        if variation < 1.0 / epsilon {
          epsilon := epsilon + EPSILON_INCREMENT;
          return 0;
        } else {
          return 1;
        }
      }
    }

    /** Fits the model on one episode: the return targets and the state-action inputs. */
    method TrainModel(states: seq<Observation>, actions: seq<Action>)
      requires |states| <= |actions|
      modifies this`log
      ensures log == old(log) + [FitModel(ModelInputs(states, actions), Targets(|states|, REWARD_DECAY))]
    {
      var answers := ComputeTargets(states);
      var inputs := BuildInputs(states, actions);
      log := log + [FitModel(inputs, answers)];
    }

    /** Writes the model's weights to `file`. */
    method Save(file: string)
      modifies this`log
      ensures log == old(log) + [SaveWeights(file)]
    {
      log := log + [SaveWeights(file)];
    }

    /** Reads the model's weights from `file`. */
    method Load(file: string)
      modifies this`log
      ensures log == old(log) + [LoadWeights(file)]
    {
      log := log + [LoadWeights(file)];
    }

    /**
     * The moves of one episode, up to the step cap or the first `done`. The environment is
     * `reset` (the first observation of episode i) and `step` (its answer to move t of
     * episode i); the model's predictions in episode i are `predict`, and the t-th random
     * draw is `draw(i, t)`. The observations and moves grow in lockstep, one more
     * observation than moves.
     */
    method PlayEpisode(i: nat, reset: nat -> Observation, step: (nat, nat, Action) -> Outcome,
                       predict: (nat, seq<real>) -> real, draw: (nat, nat) -> real)
      returns (states: seq<Observation>, actions: seq<Action>, done: bool)
      requires Valid()
      modifies this`epsilon
      ensures Valid()
      ensures Play(states, actions, epsilon, done) == Rollout(i, STEP_CAP, old(epsilon), reset, step, predict, draw)
    {
      var observation := reset(i);
      states := [observation];
      actions := [];
      done := false;
      var t := 0;
      while t < STEP_CAP && !done
        invariant 0 <= t <= STEP_CAP && Valid()
        invariant Play(states, actions, epsilon, done) == Rollout(i, t, old(epsilon), reset, step, predict, draw)
        invariant observation == states[|states| - 1]
      {
        var valueLeft := predict(i, ModelInput(observation, 0));
        var valueRight := predict(i, ModelInput(observation, 1));
        var action := Policy(valueLeft, valueRight, draw(i, t));
        var outcome := step(i, t, action);
        observation := outcome.observation;
        states := states + [observation];
        actions := actions + [action];
        done := outcome.done;
        t := t + 1;
      }
      if t < STEP_CAP {
        RolloutSettles(i, t, STEP_CAP, old(epsilon), reset, step, predict, draw);
      }
    }

    /**
     * One episode of the training loop: play it, and when it ended with `done` drop the
     * last observation, which no move was taken in, and fit the model on the rest. An
     * episode cut off at the step cap is not trained on.
     */
    method RunEpisode(i: nat, reset: nat -> Observation, step: (nat, nat, Action) -> Outcome,
                      predict: (nat, seq<real>) -> real, draw: (nat, nat) -> real)
      returns (states: seq<Observation>, actions: seq<Action>, trained: bool)
      requires Valid()
      modifies this`epsilon, this`log
      ensures Valid()
      ensures epsilon == Rollout(i, STEP_CAP, old(epsilon), reset, step, predict, draw).epsilon
      ensures trained == Rollout(i, STEP_CAP, old(epsilon), reset, step, predict, draw).done
      ensures 1 <= |actions| <= STEP_CAP
      ensures trained ==> |states| == |actions|
      ensures !trained ==> |states| == |actions| + 1 && |actions| == STEP_CAP
      ensures forall k :: 0 <= k < |actions| - 1 ==> !step(i, k, actions[k]).done
      ensures trained == step(i, |actions| - 1, actions[|actions| - 1]).done
      ensures var r := Rollout(i, STEP_CAP, old(epsilon), reset, step, predict, draw);
        actions == r.actions && states == r.states[..|states|]
      ensures log == old(log) + (if trained then [FitModel(ModelInputs(states, actions), Targets(|states|, REWARD_DECAY))] else [])
    {
      var done;
      states, actions, done := PlayEpisode(i, reset, step, predict, draw);
      RolloutRuns(i, STEP_CAP, old(epsilon), reset, step, predict, draw);
      RolloutEnds(i, STEP_CAP, old(epsilon), reset, step, predict, draw);
      trained := false;
      if done {
        states := states[..|states| - 1];
        TrainModel(states, actions);
        trained := true;
      }
    }

    /**
     * One pass of the training run's loop: run episode i, then save the weights when the
     * index is a multiple of SAVE_FREQUENCY.
     */
    method TrainEpisode(i: nat, reset: nat -> Observation, step: (nat, nat, Action) -> Outcome,
                        predict: (nat, seq<real>) -> real, draw: (nat, nat) -> real)
      requires Valid()
      modifies this`epsilon, this`log
      ensures Valid()
      ensures epsilon == Rollout(i, STEP_CAP, old(epsilon), reset, step, predict, draw).epsilon
      ensures log == old(log) + EpisodeCalls(i, old(epsilon), path, reset, step, predict, draw)
    {
      var states, actions, trained := RunEpisode(i, reset, step, predict, draw);
      ghost var r := Rollout(i, STEP_CAP, old(epsilon), reset, step, predict, draw);
      ghost var fit := if r.done then [FitModel(ModelInputs(r.states[..|r.actions|], r.actions), Targets(|r.actions|, REWARD_DECAY))] else [];
      assert log == old(log) + fit;
      ghost var played := log;
      if Due(i) {
        Save(CheckpointPath(path, i));
      }
      assert log == played + SaveOf(path, i);
      AppendAssociates(old(log), fit, SaveOf(path, i));
    }

    /** The first n episodes of the run's loop, each starting from the epsilon the one before left. */
    method RunEpisodes(n: nat, reset: nat -> Observation, step: (nat, nat, Action) -> Outcome,
                       predict: (nat, seq<real>) -> real, draw: (nat, nat) -> real)
      requires Valid()
      modifies this`epsilon, this`log
      ensures Valid()
      ensures epsilon == RunEpsilon(n, old(epsilon), reset, step, predict, draw)
      ensures log == old(log) + RunCalls(n, old(epsilon), path, reset, step, predict, draw)
    {
      for iEpisode := 0 to n
        invariant Valid()
        invariant epsilon == RunEpsilon(iEpisode, old(epsilon), reset, step, predict, draw)
        invariant log == old(log) + RunCalls(iEpisode, old(epsilon), path, reset, step, predict, draw)
      {
        TrainEpisode(iEpisode, reset, step, predict, draw);
        RunStep(iEpisode, old(epsilon), path, reset, step, predict, draw);
        AppendAssociates(old(log), RunCalls(iEpisode, old(epsilon), path, reset, step, predict, draw),
                         EpisodeCalls(iEpisode, RunEpsilon(iEpisode, old(epsilon), reset, step, predict, draw), path,
                                      reset, step, predict, draw));
      }
    }

    /**
     * The training run: loads weights first when a file is given, then runs TOTAL_EPISODES
     * episodes, each starting from the epsilon the one before left, and checkpoints after
     * every episode whose index is a multiple of SAVE_FREQUENCY.
     */
    method TrainingRun(pathForWeights: string, reset: nat -> Observation, step: (nat, nat, Action) -> Outcome,
                       predict: (nat, seq<real>) -> real, draw: (nat, nat) -> real)
      requires Valid()
      modifies this`epsilon, this`log
      ensures Valid()
      ensures epsilon == RunEpsilon(TOTAL_EPISODES, old(epsilon), reset, step, predict, draw)
      ensures log == old(log) + LoadOf(pathForWeights) + RunCalls(TOTAL_EPISODES, old(epsilon), path, reset, step, predict, draw)
      ensures SavedFiles(log) == SavedFiles(old(log)) + RunCheckpoints(path, TOTAL_EPISODES)
    {
      if |pathForWeights| != 0 {
        Load(pathForWeights);
      }
      RunEpisodes(TOTAL_EPISODES, reset, step, predict, draw);
      RunLogSaves(old(log), pathForWeights, TOTAL_EPISODES, old(epsilon), path, reset, step, predict, draw);
    }
  }

  /**
   * An environment that ends every episode on its third step: the agent fits the model
   * once, on three examples with targets 3, 2, 1.
   */
  method ThreeStepEpisode() returns (examples: nat, targets: seq<real>)
    ensures examples == 3 && targets == [3.0, 2.0, 1.0]
  {
    var agent := new CartPoleAI("checkpoints");
    var step := (_, t: nat, _) => Outcome([0.0, 0.0, 0.0, 0.0], t == 2);
    var states, actions, trained := agent.RunEpisode(0, _ => [0.0, 0.0, 0.0, 0.0], step, (_, _) => 0.0, (_, _) => 0.5);
    assert |actions| >= 3;
    assert step(0, 2, actions[2]).done;
    assert |actions| == 3;
    assert agent.log == [FitModel(ModelInputs(states, actions), Targets(3, REWARD_DECAY))];
    examples := |agent.log[0].inputs|;
    targets := agent.log[0].targets;
    UndiscountedTargets(3);
  }
}
