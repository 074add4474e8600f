/**
 * The bookkeeping of `ContinuousGatherer.gather` in agent/gather.py: a fixed number of
 * environment steps, reset whenever an episode ends, with the gatherer's frame and episode
 * statistics and the returns and advantages of the gathered data set.
 *
 * `estimate_advantage`, the standard deviation and the z-score standardisation are numerics
 * outside the model and enter as the opaque functions of a `Statistics` value.
 */
module Gather {
  import opened Rollouts
  import opened Sequences

  datatype Statistics = Statistics(
    estimateAdvantage: (seq<real>, seq<real>, seq<bool>, real, real) -> seq<real>,
    stdev: seq<real> -> real,
    zscore: seq<real> -> seq<real>)

  /** `estimate_advantage` returns one advantage per reward. */
  ghost predicate AdvantagePerReward(stats: Statistics)
  {
    forall rewards, values, terminals, gamma, lam ::
      |stats.estimateAdvantage(rewards, values, terminals, gamma, lam)| == |rewards|
  }

  /** `Gatherer.normalize_advantages`: the z-scores when normalising, the input itself otherwise. */
  function NormalizeAdvantages(normalize: bool, advantages: seq<real>, stats: Statistics): (r: seq<real>)
    ensures !normalize ==> r == advantages
    ensures normalize ==> r == stats.zscore(advantages)
  {
    if normalize then stats.zscore(advantages) else advantages
  }

  /** `statistics.mean`. */
  function Mean(xs: seq<real>): real
    requires xs != []
  {
    SumReal(xs) / |xs| as real
  }

  /**
   * The state of the gathering loop after `t` steps: the trajectories, the lengths and
   * returns of the episodes completed so far, the position `timestep` in the current episode
   * (1 on its first step), the reward collected in it, and the state the agent acts on next.
   */
  datatype Rollout = Rollout(
    states: seq<Observation>,
    actions: seq<Action>,
    rewards: seq<real>,
    probabilities: seq<real>,
    terminals: seq<bool>,
    lengths: seq<nat>,
    episodeReturns: seq<real>,
    timestep: nat,
    episodeReturn: real,
    state: Observation)

  /**
   * One step of the loop: act on the current state; a `done` records the episode's length
   * and return and resets the environment, otherwise the observation becomes the next state.
   */
  function NextRollout(env: Environment, agent: Agent, prev: Rollout): (r: Rollout)
    requires prev.timestep >= 1
    ensures |r.states| == |prev.states| + 1 && |r.actions| == |prev.actions| + 1
    ensures |r.rewards| == |prev.rewards| + 1 && |r.probabilities| == |prev.probabilities| + 1
    ensures |r.terminals| == |prev.terminals| + 1 && r.timestep >= 1
    ensures |r.episodeReturns| - |prev.episodeReturns| == |r.lengths| - |prev.lengths|
    ensures r.terminals == prev.terminals + [r.terminals[|prev.terminals|]]
    ensures r.terminals[|prev.terminals|] ==> r.lengths == prev.lengths + [prev.timestep] && r.timestep == 1
    ensures !r.terminals[|prev.terminals|] ==> r.lengths == prev.lengths && r.timestep == prev.timestep + 1
  {
    var choice := agent.act(prev.state);
    var o := env.step(|prev.lengths|, prev.timestep - 1, choice.0);
    var states, actions := prev.states + [prev.state], prev.actions + [choice.0];
    var rewards, probabilities := prev.rewards + [o.reward], prev.probabilities + [choice.1];
    var terminals := prev.terminals + [o.done];
    if o.done then
      Rollout(states, actions, rewards, probabilities, terminals, prev.lengths + [prev.timestep],
              prev.episodeReturns + [prev.episodeReturn + o.reward], 1, 0.0, env.reset(|prev.lengths| + 1))
    else
      Rollout(states, actions, rewards, probabilities, terminals, prev.lengths,
              prev.episodeReturns, prev.timestep + 1, prev.episodeReturn + o.reward, o.observation)
  }

  /** The loop state after `t` steps, starting from the first reset. */
  function RolloutAfter(env: Environment, agent: Agent, t: nat): (r: Rollout)
    ensures |r.states| == t && |r.actions| == t && |r.rewards| == t
    ensures |r.probabilities| == t && |r.terminals| == t
    ensures |r.episodeReturns| == |r.lengths| && r.timestep >= 1
  {
    if t == 0 then Rollout([], [], [], [], [], [], [], 1, 0.0, env.reset(0))
    else NextRollout(env, agent, RolloutAfter(env, agent, t - 1))
  }

  /** `[agent.critic(s) for s in states]`. */
  function ValuePredictions(agent: Agent, states: seq<Observation>): (values: seq<real>)
    ensures |values| == |states|
    ensures forall t :: 0 <= t < |states| ==> values[t] == agent.critic(states[t])
  {
    seq(|states|, t requires 0 <= t < |states| => agent.critic(states[t]))
  }

  /** One episode is completed for every step that reported `done`. */
  lemma {:induction false} RolloutEpisodeCount(env: Environment, agent: Agent, t: nat)
    ensures |RolloutAfter(env, agent, t).lengths| == CountTrue(RolloutAfter(env, agent, t).terminals)
  {
    if t > 0 {
      RolloutEpisodeCount(env, agent, t - 1);
      StepEpisodeCount(env, agent, RolloutAfter(env, agent, t - 1));
    }
  }

  /** One step records an episode exactly when it records a `done`. */
  lemma StepEpisodeCount(env: Environment, agent: Agent, prev: Rollout)
    requires prev.timestep >= 1 && |prev.lengths| == CountTrue(prev.terminals)
    ensures |NextRollout(env, agent, prev).lengths| == CountTrue(NextRollout(env, agent, prev).terminals)
  {
    var r := NextRollout(env, agent, prev);
    CountTrueSnoc(prev.terminals, r.terminals[|prev.terminals|]);
  }

  /**
   * The completed episode lengths and the steps of the current episode account for every step;
   * so the recorded lengths sum to at most the number of steps taken.
   */
  lemma {:induction false} RolloutLengthSum(env: Environment, agent: Agent, t: nat)
    ensures Sum(RolloutAfter(env, agent, t).lengths) + RolloutAfter(env, agent, t).timestep - 1 == t
    ensures Sum(RolloutAfter(env, agent, t).lengths) <= t
  {
    if t > 0 {
      RolloutLengthSum(env, agent, t - 1);
      StepLengthSum(env, agent, RolloutAfter(env, agent, t - 1));
    }
  }

  /** One step adds one to the completed lengths plus the steps of the current episode. */
  lemma StepLengthSum(env: Environment, agent: Agent, prev: Rollout)
    requires prev.timestep >= 1
    ensures Sum(NextRollout(env, agent, prev).lengths) + NextRollout(env, agent, prev).timestep
         == Sum(prev.lengths) + prev.timestep + 1
  {
    SumSnoc(prev.lengths, prev.timestep);
  }

  /** Every completed episode lasted at least one step. */
  lemma {:induction false} RolloutEpisodesNonEmpty(env: Environment, agent: Agent, t: nat)
    ensures forall j :: 0 <= j < |RolloutAfter(env, agent, t).lengths| ==> RolloutAfter(env, agent, t).lengths[j] >= 1
  {
    if t > 0 {
      RolloutEpisodesNonEmpty(env, agent, t - 1);
    }
  }

  /** The data set one gathering yields. */
  datatype Dataset = Dataset(
    state: seq<Observation>,
    action: seq<Action>,
    actionProb: seq<real>,
    returnValues: seq<real>,
    advantage: seq<real>)

  class ContinuousGatherer {
    const horizon: nat
    const normalize: bool
    var totalFrames: nat
    var episodeRewardHistory: seq<real>
    var episodeLengthHistory: seq<nat>
    var lastEpisodesCompleted: nat
    var stepsDuringLastGather: nat
    var meanEpisodeRewardPerGathering: seq<real>
    var stdevEpisodeRewardPerGathering: seq<real>

    /** The base class's statistics start empty; the continuous gatherer always normalises. */
    constructor (horizon: nat)
      ensures this.horizon == horizon && normalize
      ensures totalFrames == 0 && lastEpisodesCompleted == 0 && stepsDuringLastGather == 0
      ensures episodeRewardHistory == [] && episodeLengthHistory == []
      ensures meanEpisodeRewardPerGathering == [] && stdevEpisodeRewardPerGathering == []
    {
      this.horizon := horizon;
      normalize := true;
      totalFrames := 0;
      episodeRewardHistory := [];
      episodeLengthHistory := [];
      lastEpisodesCompleted := 0;
      stepsDuringLastGather := 0;
      meanEpisodeRewardPerGathering := [];
      stdevEpisodeRewardPerGathering := [];
    }

    /**
     * `gather`: `horizon` steps; every step counts as a frame, every `done` completes an
     * episode whose length and return join the histories, and the mean and standard deviation
     * of this gathering's episode returns are recorded (0 when there are too few episodes).
     * The value of the final state is predicted too, so that each return is the step's
     * advantage plus the value of its state.
     */
    method Gather(env: Environment, agent: Agent, stats: Statistics) returns (data: Dataset)
      requires AdvantagePerReward(stats)
      modifies this
      ensures var r := RolloutAfter(env, agent, horizon);
              && totalFrames == old(totalFrames) + horizon
              && stepsDuringLastGather == horizon
              && lastEpisodesCompleted == |r.lengths|
              && episodeLengthHistory == old(episodeLengthHistory) + r.lengths
              && episodeRewardHistory == old(episodeRewardHistory) + r.episodeReturns
              && meanEpisodeRewardPerGathering
                 == old(meanEpisodeRewardPerGathering) + [if |r.lengths| < 1 then 0.0 else Mean(r.episodeReturns)]
              && stdevEpisodeRewardPerGathering
                 == old(stdevEpisodeRewardPerGathering) + [if |r.lengths| <= 1 then 0.0 else stats.stdev(r.episodeReturns)]
      ensures var r := RolloutAfter(env, agent, horizon);
              var values := ValuePredictions(agent, r.states + [r.state]);
              var advantages := stats.estimateAdvantage(r.rewards, values, r.terminals, agent.discount, agent.lam);
              && data.state == r.states && data.action == r.actions && data.actionProb == r.probabilities
              && |data.returnValues| == horizon
              && (forall t :: 0 <= t < horizon ==> data.returnValues[t] == advantages[t] + values[t])
              && data.advantage == NormalizeAdvantages(normalize, advantages, stats)
    {
      var r := Collect(env, agent);

      var recent := episodeRewardHistory[|episodeRewardHistory| - lastEpisodesCompleted..];
      assert recent == r.episodeReturns;
      meanEpisodeRewardPerGathering := meanEpisodeRewardPerGathering
        + [if lastEpisodesCompleted < 1 then 0.0 else Mean(recent)];
      stdevEpisodeRewardPerGathering := stdevEpisodeRewardPerGathering
        + [if lastEpisodesCompleted <= 1 then 0.0 else stats.stdev(recent)];

      var valuePredictions := ValuePredictions(agent, r.states + [r.state]);
      var advantages := stats.estimateAdvantage(r.rewards, valuePredictions, r.terminals,
                                                agent.discount, agent.lam);
      var returnValues := seq(|advantages|, t requires 0 <= t < |advantages| => advantages[t] + valuePredictions[t]);
      data := Dataset(r.states, r.actions, r.probabilities, returnValues,
                      NormalizeAdvantages(normalize, advantages, stats));
    }

    /** The stepping loop of `gather`. */
    method Collect(env: Environment, agent: Agent) returns (rollout: Rollout)
      modifies this`totalFrames, this`stepsDuringLastGather, this`lastEpisodesCompleted
      modifies this`episodeLengthHistory, this`episodeRewardHistory
      ensures rollout == RolloutAfter(env, agent, horizon)
      ensures totalFrames == old(totalFrames) + horizon && stepsDuringLastGather == horizon
      ensures lastEpisodesCompleted == |rollout.lengths|
      ensures episodeLengthHistory == old(episodeLengthHistory) + rollout.lengths
      ensures episodeRewardHistory == old(episodeRewardHistory) + rollout.episodeReturns
    {
      lastEpisodesCompleted := 0;
      stepsDuringLastGather := 0;
      ghost var frames0, lengths0, rewards0 := totalFrames, episodeLengthHistory, episodeRewardHistory;

      rollout := Rollout([], [], [], [], [], [], [], 1, 0.0, env.reset(0));
      for t := 0 to horizon
        invariant rollout == RolloutAfter(env, agent, t)
        invariant lastEpisodesCompleted == |rollout.lengths|
        invariant episodeLengthHistory == lengths0 + rollout.lengths
        invariant episodeRewardHistory == rewards0 + rollout.episodeReturns
        invariant totalFrames == frames0 + t && stepsDuringLastGather == t
      {
        totalFrames := totalFrames + 1;
        stepsDuringLastGather := stepsDuringLastGather + 1;
        var next, o := StepRollout(env, agent, rollout);
        if o.done {
          AppendAssoc(lengths0, rollout.lengths, [rollout.timestep]);
          AppendAssoc(rewards0, rollout.episodeReturns, [rollout.episodeReturn + o.reward]);
          episodeLengthHistory := episodeLengthHistory + [rollout.timestep];
          episodeRewardHistory := episodeRewardHistory + [rollout.episodeReturn + o.reward];
          lastEpisodesCompleted := lastEpisodesCompleted + 1;
        }
        rollout := next;
      }
    }

    /**
     * One pass of the loop body on the loop's lists and variables: act, step the environment,
     * remember the experience, and reset or move on to the observation.
     */
    static method StepRollout(env: Environment, agent: Agent, r: Rollout) returns (next: Rollout, o: Outcome)
      requires r.timestep >= 1
      ensures o == env.step(|r.lengths|, r.timestep - 1, agent.act(r.state).0)
      ensures next == NextRollout(env, agent, r)
      ensures o.done ==> (next.lengths == r.lengths + [r.timestep]
                          && next.episodeReturns == r.episodeReturns + [r.episodeReturn + o.reward])
      ensures !o.done ==> next.lengths == r.lengths && next.episodeReturns == r.episodeReturns
    {
      var action, actionProbability := agent.act(r.state).0, agent.act(r.state).1;
      o := env.step(|r.lengths|, r.timestep - 1, action);
      next := r.(states := r.states + [r.state], actions := r.actions + [action], rewards := r.rewards + [o.reward],
                 probabilities := r.probabilities + [actionProbability], terminals := r.terminals + [o.done],
                 episodeReturn := r.episodeReturn + o.reward);
      if o.done {
        next := next.(state := env.reset(|r.lengths| + 1), lengths := r.lengths + [r.timestep],
                      episodeReturns := r.episodeReturns + [next.episodeReturn], timestep := 1, episodeReturn := 0.0);
      } else {
        next := next.(state := o.observation, timestep := r.timestep + 1);
      }
    }
  }
}
