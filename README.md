# CartPole Monte Carlo trainer in Dafny

This project models the training core of `CartPole_MonteCarlo.py`. That script teaches a
value network to play the CartPole game by Monte Carlo learning.

The agent (`CartPoleAI`) works as follows:
- It picks each move with an epsilon-greedy policy over the network's predicted value of both moves.
- It records every observation and move of an episode.
- When the environment reports the episode over, it fits the network on the episode's
  state-action pairs. The targets are the episode's returns, counted from the end.
- After every episode whose index is a multiple of `SAVE_FREQUENCY`, it writes the network's
  weights to a numbered checkpoint file.

Modules, one per concern of the script:

- `Config` (`config.dfy`): the run-wide constants.
  - `SAVE_FREQUENCY` = 100, `TOTAL_EPISODES` = 10000, `INPUT_SIZE` = 4, `REWARD_DECAY` = 1.
  - The step cap of 200 per episode.
  - The initial epsilon of 2 and its increment of 1/100.
- `Encoding` (`encoding.dfy`): observations, the two actions, and the network input.
  - The input is an observation followed by the one-hot of an action.
  - The second loop of `train_model` builds these inputs.
- `Returns` (`returns.dfy`): the first loop of `train_model`, which computes the targets.
  - `Targets` is its closed form.
  - Lemmas relate the targets to discounted returns.
- `EpsilonGreedy` (`epsilon_greedy.dfy`): the decision rule of `policy` and the schedule of epsilon.
- `Checkpoints` (`checkpoints.dfy`): the `%d` file names of checkpoints and the episode indices that are due.
- `Agent` (`agent.dfy`): the class `CartPoleAI`, with the fields that change in place.
  - `epsilon`, and a `log` of the calls made to the network (load, fit, save).
  - Methods `Policy`, `TrainModel`, `Save`, `Load`, and the episode loop of `main`.
  - `main`'s loop is split into four methods: `PlayEpisode` (the inner `for t` loop),
    `RunEpisode` (pop and train on `done`), `TrainEpisode` (one pass of the outer loop,
    including the checkpoint) and `RunEpisodes` (the outer loop).
  - `TrainingRun` is `main` itself: the optional load, then `RunEpisodes` over all episodes.
  - `Rollout` is the functional specification of one episode; `PlayEpisode` is proved equal to it.
  - `EpisodeCalls` is the specification of the network calls of one episode. `RunEpsilon` and
    `RunCalls` chain episodes, each starting from the epsilon the one before left.

The environment, the network's predictions and the random draws are parameters of the
episode methods:
- `reset(i)` is the first observation of episode `i`.
- `step(i, t, a)` is the environment's answer to move `a` at step `t` of episode `i`.
  - In the real environment the answer also depends on the episode's earlier moves.
  - A per-step function loses nothing here. The earlier moves of episode `i` are themselves fixed by the same parameters, so every actual run of the environment is described by some `step`.
- `predict(i, x)` is the network's value for input `x` during episode `i`. The weights only
  change at the fit that ends an episode, so within an episode a prediction depends only on
  its input.
- `draw(i, t)` is the `random.random()` value of step `t`.

## Model

| member | source | states |
|---|---|---|
| Encoding.OneHot | CartPole_MonteCarlo.py:140 | The one-hot of an action has two entries: 1 at the action's own position and 0 at the other. |
| Encoding.ModelInput | CartPole_MonteCarlo.py:100-101 | The network input for an observation and a move is two entries wider than the observation. It starts with the observation and ends with the move's one-hot. |
| Encoding.ModelInputRoundTrip | CartPole_MonteCarlo.py:100-101 | An input is the observation followed by the one-hot, two entries wider than the observation. The observation and the action can both be read back from it. |
| Encoding.ModelInputInjective | CartPole_MonteCarlo.py:144-145 | Two inputs built from observations of equal width are equal only when their observations and actions are equal. |
| Encoding.ModelInputWidth | CartPole_MonteCarlo.py:71 | An input built from a 4-feature observation has width INPUT_SIZE + 2, the width the network's first layer takes. |
| Encoding.ModelInputs | CartPole_MonteCarlo.py:142-147 | The `inputs` list has one input per state. Input i is two entries wider than state i, starts with state i, and gives back action i. |
| Encoding.BuildInputs | CartPole_MonteCarlo.py:140-147 | Gives one input per state. Input i is state i followed by the one-hot of action i: the right width, with the state as prefix and action i recoverable. |
| Returns.Reward | CartPole_MonteCarlo.py:129-134 | `current_reward` after k iterations is at least 1 whenever the decay is not negative. |
| Returns.Targets | CartPole_MonteCarlo.py:129-134 | An n-step episode has n targets, each at least 1 whenever the decay is not negative. |
| Returns.ComputeTargets | CartPole_MonteCarlo.py:127-134 | Gives one target per state, equal to the closed form `Targets`. With REWARD_DECAY = 1, target i is the number of steps left, `len - i`. |
| Returns.TargetsRecurrence | CartPole_MonteCarlo.py:129-134 | There are n targets. The last is 1, and each earlier one is the next one times the decay, plus 1. |
| Returns.RewardUndiscounted | CartPole_MonteCarlo.py:129-134 | With decay 1, `current_reward` is k + 1 after k iterations. |
| Returns.UndiscountedTargets | CartPole_MonteCarlo.py:127-134 | With decay 1, an n-step episode's targets are n, n-1, ..., 1. |
| Returns.UndiscountedTargetsDecrease | CartPole_MonteCarlo.py:127-134 | With decay 1, the targets strictly decrease along the episode and are all at least 1. |
| Returns.DiscountedSumFront | CartPole_MonteCarlo.py:43-46 | The return of m + 1 steps is the first reward plus the decay times the return of the remaining m steps. |
| Returns.RewardIsDiscountedSum | CartPole_MonteCarlo.py:129-134 | After k iterations, `current_reward` is the discounted return of k + 1 unit rewards. |
| Returns.TargetsAreReturns | CartPole_MonteCarlo.py:121-134 | Each target is the Monte Carlo return from its step to the end of the episode, the sum of decay^j. |
| Returns.DiscountedSumBounds | CartPole_MonteCarlo.py:43-46 | For a decay in [0, 1], the return of m >= 1 steps lies between 1 and m. |
| EpsilonGreedy.Greedy | CartPole_MonteCarlo.py:108-119 | The greedy move has a value at least the other's. It is left (0) exactly when left's value is strictly higher, so ties go right. |
| EpsilonGreedy.Explores | CartPole_MonteCarlo.py:109-115 | The test `variation < 1/self.epsilon`. A draw of 0 or less always explores. Once epsilon is at least 1, a draw of 1 or more never does, so 1/epsilon is the exploration probability. |
| EpsilonGreedy.Choose | CartPole_MonteCarlo.py:108-119 | The policy takes the greedy move exactly when the draw does not fall below 1/epsilon, and the other move exactly when it does. |
| EpsilonGreedy.ChooseByValue | CartPole_MonteCarlo.py:108-119 | Without exploring, the chosen move's value is at least the other's. When exploring, it is at most the other's. |
| EpsilonGreedy.NextEpsilon | CartPole_MonteCarlo.py:109-110 | One policy call leaves epsilon unchanged or adds 1/100. It grows exactly when the call explores, that is, when the draw falls below 1/epsilon (lines 115-116 do the same). |
| EpsilonGreedy.ForcedDraws | CartPole_MonteCarlo.py:106-119 | A draw of 0 always gives the non-greedy move. A draw of exactly 1/epsilon gives the greedy move. |
| EpsilonGreedy.EpsilonAfter | CartPole_MonteCarlo.py:109-116 | After n policy calls, epsilon lies between its start value and start + n/100. |
| EpsilonGreedy.EpsilonCountsExplorations | CartPole_MonteCarlo.py:109-116 | Epsilon grows by exactly 1/100 per exploring call and by nothing on other calls. |
| EpsilonGreedy.EpsilonMonotone | CartPole_MonteCarlo.py:109-116 | Over further calls epsilon never decreases, so the exploration probability 1/epsilon never increases. |
| EpsilonGreedy.EpsilonAfterConcat | CartPole_MonteCarlo.py:109-116 | Running two batches of calls in turn gives the same epsilon as running their concatenation. |
| EpsilonGreedy.EpsilonStaysAboveInitial | CartPole_MonteCarlo.py:60 | From its initial value of 2, epsilon stays at least 2, so 1/epsilon is always defined. |
| Checkpoints.DecimalString | CartPole_MonteCarlo.py:206 | `%d` of an index is never empty. It is one character long exactly when the index is below 10. |
| Checkpoints.CheckpointPath | CartPole_MonteCarlo.py:206 | The checkpoint file is the agent's directory, then `/`, then the fixed stem, then the index's digits. Its length is the sum of those parts. |
| Checkpoints.DecimalStringDigits | CartPole_MonteCarlo.py:206 | `%d` of a non-negative index is a non-empty string of digits with no leading zero. |
| Checkpoints.ParseDecimalString | CartPole_MonteCarlo.py:206 | Reading the `%d` spelling back gives the index. |
| Checkpoints.DecimalStringInjective | CartPole_MonteCarlo.py:206 | Distinct indices are spelled differently. |
| Checkpoints.CheckpointPathsDistinct | CartPole_MonteCarlo.py:206 | Checkpoint files of different episodes have different names, so no checkpoint overwrites another. |
| Checkpoints.Due | CartPole_MonteCarlo.py:205 | An episode index is due exactly when it is a whole multiple of SAVE_FREQUENCY. |
| Checkpoints.SaveIndices | CartPole_MonteCarlo.py:171-205 | Every index the run checkpoints below n is below n and divisible by the frequency. `SaveIndicesMembers` gives the converse. |
| Checkpoints.SaveIndicesMembers | CartPole_MonteCarlo.py:205 | An index below n is checkpointed exactly when SAVE_FREQUENCY divides it. |
| Checkpoints.SaveIndicesShape | CartPole_MonteCarlo.py:171-205 | The k-th checkpointed index is k * SAVE_FREQUENCY, and n episodes have ceil(n / SAVE_FREQUENCY) of them. |
| Checkpoints.RunCheckpointCount | CartPole_MonteCarlo.py:31-34 | A full run of 10000 episodes writes ceil(10000 / 100) = 100 checkpoints. |
| Agent.LoadOf | CartPole_MonteCarlo.py:168-169 | The run starts with no call when no weights file is given. Otherwise it starts with exactly one load, of that file: at most one call, and only that file's load. |
| Agent.EpisodeCheckpoint | CartPole_MonteCarlo.py:205-206 | An episode writes at most one checkpoint, and only to its own file. |
| Agent.EpisodeCheckpointDue | CartPole_MonteCarlo.py:205 | An episode writes a checkpoint exactly when its index is one of the due indices. |
| Agent.SaveOf | CartPole_MonteCarlo.py:205-206 | The end of an episode makes only save calls. The files they save are exactly the episode's checkpoint, when due. |
| Agent.RunCheckpoints | CartPole_MonteCarlo.py:171-206 | The first n episodes write one checkpoint file per due index below n. |
| Agent.EpisodeSaves | CartPole_MonteCarlo.py:203-206 | An episode's calls save only to that episode's own checkpoint, and only when its index is due. |
| Agent.LoadSavesNothing | CartPole_MonteCarlo.py:168-169 | The optional initial load writes no file. |
| Agent.RunLogSaves | CartPole_MonteCarlo.py:167-206 | After the optional load and n episodes, the files written are those written before, then exactly the checkpoint files of the due indices, in index order. |
| Agent.RunCheckpointsAt | CartPole_MonteCarlo.py:205-206 | The checkpoints of n episodes go to the files of indices 0, 100, 200, ..., ceil(n / 100) of them. |
| Agent.RunCheckpointsDistinct | CartPole_MonteCarlo.py:205-206 | The checkpoint files of a run are pairwise distinct. |
| Agent.Rollout | CartPole_MonteCarlo.py:172-201 | After t steps of an episode: one more observation than moves, at most t moves, and exactly t moves unless `done` came. Epsilon has not decreased. |
| Agent.RolloutSettles | CartPole_MonteCarlo.py:192-201 | Once `done` has come, more allowed steps change nothing; the loop breaks. |
| Agent.RolloutTransitions | CartPole_MonteCarlo.py:172-187 | Observations and moves grow in lockstep. The first observation is the reset one, and each later one is the environment's answer to the move before it. |
| Agent.RolloutRuns | CartPole_MonteCarlo.py:184-201 | No environment answer before the last move's reported `done`. |
| Agent.RolloutEnds | CartPole_MonteCarlo.py:184-201 | The episode is over exactly when the last move's answer reported `done`. |
| Agent.RolloutEpsilon | CartPole_MonteCarlo.py:106-116 | An episode ends with the epsilon that all its draws, in order, leave behind. |
| Agent.RolloutChoices | CartPole_MonteCarlo.py:99-119 | Move k is the policy's choice on observation k's two predicted values with draw k, at the epsilon left by draws 0..k-1. |
| Agent.EpisodeCalls | CartPole_MonteCarlo.py:192-206 | An episode makes at most two network calls, each a fit or a save. A call is a fit exactly when it comes first and the episode's rollout ended with `done`. `EpisodeCallsRecord` states the fit's targets. |
| Agent.RunCalls | CartPole_MonteCarlo.py:171-206 | The first n episodes of the loop make at most 2n calls, and every one is a fit or a save: the loop never loads. |
| Agent.EpisodeCallsRecord | CartPole_MonteCarlo.py:192-206 | An episode's calls are a fit, exactly when the rollout ended with `done`, followed by the checkpoint save when due. The fit has as many inputs as targets, between 1 and 200 of them, with targets N, N-1, ..., 1. |
| Agent.EpisodeCallsSaves | CartPole_MonteCarlo.py:199-206 | The only file an episode's calls save to is that episode's checkpoint, and only when its index is due. |
| Agent.RunEpsilon | CartPole_MonteCarlo.py:171-182 | Epsilon after any number of episodes is at least its value at the start of the run. |
| Agent.RunCallsSaves | CartPole_MonteCarlo.py:171-206 | The saves of the first n episodes, each starting from the epsilon the previous one left, go in order to the checkpoints of the due indices below n. |
| Agent.CartPoleAI.constructor | CartPole_MonteCarlo.py:49-62 | A new agent keeps its checkpoint directory, starts with epsilon 2, and has made no call to the network. |
| Agent.CartPoleAI.Policy | CartPole_MonteCarlo.py:99-119 | Returns `Choose` of the two values, the draw and the current epsilon. When exploring, the move is not the greedy one and epsilon grows by 1/100; otherwise the move is greedy and epsilon is unchanged. |
| Agent.CartPoleAI.TrainModel | CartPole_MonteCarlo.py:124-155 | Appends exactly one fit, on the episode's state-action inputs with the return targets, to the log. |
| Agent.CartPoleAI.Save | CartPole_MonteCarlo.py:158-159 | Appends exactly one save of the given file to the log. |
| Agent.CartPoleAI.Load | CartPole_MonteCarlo.py:162-163 | Appends exactly one load of the given file to the log. |
| Agent.CartPoleAI.PlayEpisode | CartPole_MonteCarlo.py:172-192 | The observations, moves, final epsilon and `done` flag of the step loop equal `Rollout` over the step cap. |
| Agent.CartPoleAI.RunEpisode | CartPole_MonteCarlo.py:172-201 | Between 1 and 200 moves, no `done` before the last move, and training exactly when the last move's answer was `done`. In that case the last observation is dropped, the states and moves match in number, and one fit on them is logged. Otherwise nothing is logged. Moves and states are the rollout's, and epsilon ends as the rollout leaves it. |
| Agent.CartPoleAI.TrainEpisode | CartPole_MonteCarlo.py:171-206 | One pass of the episode loop leaves epsilon as the episode's rollout leaves it. It logs `EpisodeCalls`: a fit on the rollout's state-action inputs with the return targets, exactly when the rollout ended with `done`, then the save to the episode's checkpoint exactly when its index is due. |
| Agent.CartPoleAI.RunEpisodes | CartPole_MonteCarlo.py:171-206 | The first n passes of the episode loop, each starting from the epsilon the previous one left. The log gains each episode's calls in order, and epsilon ends where the chain of rollouts leaves it. |
| Agent.CartPoleAI.TrainingRun | CartPole_MonteCarlo.py:167-206 | The log gains the optional load, then the calls of 10000 episodes in order, each episode's fit stated on its own rollout from the epsilon the previous one left. Epsilon ends where that chain leaves it. The files saved over the run are exactly the checkpoints of indices 0, 100, ..., 9900. |
| Agent.ThreeStepEpisode | CartPole_MonteCarlo.py:124-134 | An environment that answers `done` on the third step leads to one fit, on 3 examples with targets 3, 2, 1. |

## Left out

- The Keras network is not part of this model: its construction (`create_model`), `predict` and `fit`.
  - Predictions are the parameter `predict`.
  - A fit, a save and a load are recorded in the agent's `log` as events carrying their inputs, targets or file name.
- The gym environment is not part of this model.
  - It is the parameters `reset` and `step`.
  - The `reward` and `info` that `env.step` also returns are unused by the script and not modelled.
- `random.random()` is the parameter `draw`. Its range [0, 1) is not assumed anywhere; no contract needs it.
- Rendering (`display_img`), the `debugging` prints and the "Episode finished" message are not modelled: they are output only.
- `learning_rate`, `LAYER_SIZE` and the `verbose` argument only configure the network and are not modelled.
- The weight files (h5py) are not modelled. Their contents are outside the model; only which file is saved or loaded, and in which order, is modelled.
- The module-level driver that builds an agent with fixed settings and calls `main` (lines 208-214) is not modelled.
- Arithmetic is on exact reals.
  - Epsilon's `+= 1/100` and the comparison `variation < 1/epsilon` are modelled without floating-point rounding.
  - `1/self.epsilon` and `1/100` are taken as true division, as in Python 3. Under Python 2 both would be integer divisions giving 0: the draw would never fall below 0, the agent would never explore, and epsilon would stay 2. The model follows the Python 3 reading.
  - The targets are exact: with `REWARD_DECAY = 1` they are small integers in the script too.
- In the script the fit happens inside the step loop, just before `break`. The model fits after the loop, in `RunEpisode`. Nothing happens in between, so the order of effects is the same.
- An episode that reaches the 200-step cap without `done` is not trained on: no observation is popped and no fit is made. This follows the code; in CartPole-v0 the environment itself reports `done` by step 200.
