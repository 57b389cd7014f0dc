/** Run-wide constants of the CartPole Monte Carlo trainer. */
module Config {
  /** A checkpoint is written on every episode index that is a multiple of this. */
  const SAVE_FREQUENCY: nat := 100

  /** Number of episodes in one training run. */
  const TOTAL_EPISODES: nat := 10000

  /** Number of features in one observation (cart position and velocity, pole angle and angular velocity). */
  const INPUT_SIZE: nat := 4

  /** Weight of the delayed reward relative to the immediate one; 1 weighs every future step equally. */
  const REWARD_DECAY: real := 1.0

  /** Largest number of steps an episode may take. */
  const STEP_CAP: nat := 200

  /** Value of the exploration parameter when the agent is created. */
  const INITIAL_EPSILON: real := 2.0

  /** Amount the exploration parameter grows by on each exploring choice (1/100). */
  const EPSILON_INCREMENT: real := 0.01
}
