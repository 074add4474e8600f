/**
 * The environment and the agent as the experience gatherers of agent/gather.py and
 * agent/gathering.py see them. Both are outside the model: the environment is known only
 * through what `reset` and `step` return, and the agent through `act` and `critic`.
 */
module Rollouts {

  /** A flattened observation (`tf.reshape(state, [-1])`). */
  type Observation = seq<real>

  type Action = seq<real>

  /** What `env.step` returns, without the `info` dictionary. */
  datatype Outcome = Outcome(observation: Observation, reward: real, done: bool)

  /**
   * `reset(k)` is the observation the `k`-th reset returns, and `step(k, i, a)` the outcome of
   * the `i`-th step after that reset when the agent takes action `a`. `maxEpisodeSteps` is
   * the episode length the environment's time limit enforces.
   */
  datatype Environment = Environment(
    reset: nat -> Observation,
    step: (nat, nat, Action) -> Outcome,
    maxEpisodeSteps: nat)

  /** Every episode reports `done` by its `maxEpisodeSteps`-th step at the latest. */
  ghost predicate EndsEpisodes(env: Environment)
  {
    forall k: nat, i: nat, a: Action :: i + 1 >= env.maxEpisodeSteps ==> env.step(k, i, a).done
  }

  /**
   * `act` returns an action and its probability; `critic` the predicted value of a state;
   * `discount` and `lam` are the agent's GAE parameters.
   */
  datatype Agent = Agent(
    act: Observation -> (Action, real),
    critic: Observation -> real,
    discount: real,
    lam: real)

  /** The number of `true` entries. */
  function CountTrue(bs: seq<bool>): (n: nat)
    ensures n <= |bs|
  {
    if bs == [] then 0 else CountTrue(bs[..|bs| - 1]) + (if bs[|bs| - 1] then 1 else 0)
  }

  lemma CountTrueSnoc(bs: seq<bool>, b: bool)
    ensures CountTrue(bs + [b]) == CountTrue(bs) + (if b then 1 else 0)
  {
    assert (bs + [b])[..|bs|] == bs;
  }

  function Sum(xs: seq<nat>): nat
  {
    if xs == [] then 0 else Sum(xs[..|xs| - 1]) + xs[|xs| - 1]
  }

  lemma SumSnoc(xs: seq<nat>, x: nat)
    ensures Sum(xs + [x]) == Sum(xs) + x
  {
    assert (xs + [x])[..|xs|] == xs;
  }

  function SumReal(xs: seq<real>): real
  {
    if xs == [] then 0.0 else SumReal(xs[..|xs| - 1]) + xs[|xs| - 1]
  }
}
