/**
 * The trajectory bookkeeping of agent/gathering.py: `EpisodicGatherer.gather` collects
 * `n_trajectories` whole episodes, `ContinuousGatherer.gather` collects `n_trajectories`
 * stretches of exactly `T` steps, each from a fresh reset and regardless of `done`.
 */
module Gathering {
  import opened Rollouts

  /** One trajectory: the states acted on, the rewards, the actions and their probabilities. */
  datatype Trajectory = Trajectory(
    states: seq<Observation>,
    rewards: seq<real>,
    actions: seq<Action>,
    probabilities: seq<real>)

  predicate Aligned(tr: Trajectory)
  {
    |tr.rewards| == |tr.states| && |tr.actions| == |tr.states| && |tr.probabilities| == |tr.states|
  }

  /** A trajectory under way: what has been recorded, the next state, and the last `done`. */
  datatype Run = Run(trajectory: Trajectory, state: Observation, done: bool)

  /**
   * One pass of the inner loop body in the `k`-th trajectory: act on the state, step the
   * environment, record the state, reward, action and probability, and move on to the
   * observation.
   */
  function Advance(env: Environment, agent: Agent, k: nat, r: Run): (next: Run)
    requires Aligned(r.trajectory)
    ensures Aligned(next.trajectory) && |next.trajectory.states| == |r.trajectory.states| + 1
  {
    var tr := r.trajectory;
    var choice := agent.act(r.state);
    var o := env.step(k, |tr.states|, choice.0);
    Run(Trajectory(tr.states + [r.state], tr.rewards + [o.reward], tr.actions + [choice.0], tr.probabilities + [choice.1]),
        o.observation, o.done)
  }

  /** The start of the `k`-th trajectory: nothing recorded, the state the `k`-th reset returns. */
  function Start(env: Environment, k: nat): Run
  {
    Run(Trajectory([], [], [], []), env.reset(k), false)
  }

  /** The outcome of the `j`-th step of trajectory `k` as recorded in `tr`. */
  function StepOf(env: Environment, k: nat, tr: Trajectory, j: nat): Outcome
    requires j < |tr.actions|
  {
    env.step(k, j, tr.actions[j])
  }

  /**
   * What a trajectory of `k` records about the environment and the agent: it starts from the
   * reset state, each action and probability is the agent's choice in the recorded state, each
   * reward is that step's reward, and each further state is the previous step's observation.
   */
  ghost predicate Follows(env: Environment, agent: Agent, k: nat, tr: Trajectory)
    requires Aligned(tr)
  {
    && (|tr.states| > 0 ==> tr.states[0] == env.reset(k))
    && (forall j :: 0 <= j < |tr.states| ==>
          tr.actions[j] == agent.act(tr.states[j]).0 && tr.probabilities[j] == agent.act(tr.states[j]).1
          && tr.rewards[j] == StepOf(env, k, tr, j).reward)
    && (forall j :: 0 <= j < |tr.states| - 1 ==> tr.states[j + 1] == StepOf(env, k, tr, j).observation)
  }

  lemma AdvanceFollows(env: Environment, agent: Agent, k: nat, r: Run)
    requires Aligned(r.trajectory) && Follows(env, agent, k, r.trajectory)
    requires |r.trajectory.states| == 0 ==> r.state == env.reset(k)
    requires |r.trajectory.states| > 0 ==>
               r.state == StepOf(env, k, r.trajectory, |r.trajectory.states| - 1).observation
    ensures var next := Advance(env, agent, k, r);
            && Follows(env, agent, k, next.trajectory)
            && next.state == StepOf(env, k, next.trajectory, |next.trajectory.states| - 1).observation
            && next.done == StepOf(env, k, next.trajectory, |next.trajectory.states| - 1).done
            && forall j :: 0 <= j < |r.trajectory.states| ==>
                 StepOf(env, k, next.trajectory, j) == StepOf(env, k, r.trajectory, j)
  {
    var tr := r.trajectory;
    var next := Advance(env, agent, k, r).trajectory;
    forall j | 0 <= j < |tr.states|
      ensures StepOf(env, k, next, j) == StepOf(env, k, tr, j)
    {
      assert next.actions[j] == tr.actions[j];
    }
  }

  // ---------------------------------------------------------------------------
  // EpisodicGatherer: one trajectory per episode
  // ---------------------------------------------------------------------------

  /** The `k`-th episode after at most `i` passes of the `while not done` loop. */
  function EpisodeAfter(env: Environment, agent: Agent, k: nat, i: nat): (r: Run)
    ensures Aligned(r.trajectory) && |r.trajectory.states| <= i
    ensures !r.done ==> |r.trajectory.states| == i
  {
    if i == 0 then Start(env, k)
    else
      var prev := EpisodeAfter(env, agent, k, i - 1);
      if prev.done then prev else Advance(env, agent, k, prev)
  }

  /** The number of passes after which every episode has ended. */
  function EpisodeBound(env: Environment): nat
  {
    if env.maxEpisodeSteps == 0 then 1 else env.maxEpisodeSteps
  }

  /** The `k`-th episode as `EpisodicGatherer.gather` records it. */
  function Episode(env: Environment, agent: Agent, k: nat): Trajectory
  {
    EpisodeAfter(env, agent, k, EpisodeBound(env)).trajectory
  }

  /** Once an episode is done, further passes change nothing. */
  lemma {:induction false} DoneStays(env: Environment, agent: Agent, k: nat, i: nat, j: nat)
    requires i <= j && EpisodeAfter(env, agent, k, i).done
    ensures EpisodeAfter(env, agent, k, j) == EpisodeAfter(env, agent, k, i)
    decreases j - i
  {
    if i < j {
      DoneStays(env, agent, k, i, j - 1);
    }
  }

  /** An episode still running after `i > 0` passes has not reached the time limit. */
  lemma {:induction false} RunningWithinLimit(env: Environment, agent: Agent, k: nat, i: nat)
    requires EndsEpisodes(env) && 0 < i && !EpisodeAfter(env, agent, k, i).done
    ensures i < env.maxEpisodeSteps
  {
    var prev := EpisodeAfter(env, agent, k, i - 1);
    var choice := agent.act(prev.state);
    assert !env.step(k, i - 1, choice.0).done;
  }

  /** Every episode ends within the bound, so the `while not done` loop terminates. */
  lemma EpisodeEnds(env: Environment, agent: Agent, k: nat)
    requires EndsEpisodes(env)
    ensures EpisodeAfter(env, agent, k, EpisodeBound(env)).done
  {
    if !EpisodeAfter(env, agent, k, EpisodeBound(env)).done {
      RunningWithinLimit(env, agent, k, EpisodeBound(env));
    }
  }

  /**
   * A run as the `while not done` loop leaves it: the recorded steps follow the agent and the
   * environment from the reset state, the next state and `done` came with the last recorded
   * step, and no earlier step reported `done`.
   */
  ghost predicate Recorded(env: Environment, agent: Agent, k: nat, r: Run)
  {
    var tr, n := r.trajectory, |r.trajectory.states|;
    && Aligned(tr) && Follows(env, agent, k, tr)
    && (n == 0 ==> r.state == env.reset(k) && !r.done)
    && (n > 0 ==> r.state == StepOf(env, k, tr, n - 1).observation && r.done == StepOf(env, k, tr, n - 1).done)
    && (forall j :: 0 <= j < n - 1 ==> !StepOf(env, k, tr, j).done)
  }

  /** A pass of the loop body from a run that is not done keeps it `Recorded`. */
  lemma RecordedAdvance(env: Environment, agent: Agent, k: nat, r: Run)
    requires Recorded(env, agent, k, r) && !r.done
    ensures Recorded(env, agent, k, Advance(env, agent, k, r))
  {
    AdvanceFollows(env, agent, k, r);
  }

  /** Every run the loop reaches is `Recorded`. */
  lemma {:induction false} EpisodeAfterFollows(env: Environment, agent: Agent, k: nat, i: nat)
    ensures Recorded(env, agent, k, EpisodeAfter(env, agent, k, i))
  {
    if i > 0 {
      EpisodeAfterFollows(env, agent, k, i - 1);
      var prev := EpisodeAfter(env, agent, k, i - 1);
      if prev.done {
        assert EpisodeAfter(env, agent, k, i) == prev;
      } else {
        assert EpisodeAfter(env, agent, k, i) == Advance(env, agent, k, prev);
        RecordedAdvance(env, agent, k, prev);
      }
    }
  }

  /**
   * An episode records the steps up to and including the first `done`: it starts from the
   * reset state, follows the agent and the environment, and only its last step reports `done`.
   */
  lemma EpisodeShape(env: Environment, agent: Agent, k: nat)
    requires EndsEpisodes(env)
    ensures var tr := Episode(env, agent, k);
            && Aligned(tr) && |tr.states| >= 1 && Follows(env, agent, k, tr)
            && StepOf(env, k, tr, |tr.states| - 1).done
            && (forall j :: 0 <= j < |tr.states| - 1 ==> !StepOf(env, k, tr, j).done)
  {
    EpisodeEnds(env, agent, k);
    EpisodeAfterFollows(env, agent, k, EpisodeBound(env));
  }

  class EpisodicGatherer {
    const nTrajectories: nat

    constructor (nTrajectories: nat)
      ensures this.nTrajectories == nTrajectories
    {
      this.nTrajectories := nTrajectories;
    }

    /** One list entry per episode, in the order states, rewards, actions, probabilities. */
    method Gather(env: Environment, agent: Agent)
      returns (stateTrajectories: seq<seq<Observation>>, rewardTrajectories: seq<seq<real>>,
               actionTrajectories: seq<seq<Action>>, actionProbabilityTrajectories: seq<seq<real>>)
      requires EndsEpisodes(env)
      ensures |stateTrajectories| == nTrajectories && |rewardTrajectories| == nTrajectories
      ensures |actionTrajectories| == nTrajectories && |actionProbabilityTrajectories| == nTrajectories
      ensures forall k :: 0 <= k < nTrajectories ==>
                Trajectory(stateTrajectories[k], rewardTrajectories[k], actionTrajectories[k],
                           actionProbabilityTrajectories[k]) == Episode(env, agent, k)
    {
      stateTrajectories, rewardTrajectories, actionTrajectories, actionProbabilityTrajectories := [], [], [], [];
      for episode := 0 to nTrajectories
        invariant |stateTrajectories| == episode && |rewardTrajectories| == episode
        invariant |actionTrajectories| == episode && |actionProbabilityTrajectories| == episode
        invariant forall k :: 0 <= k < episode ==>
                    Trajectory(stateTrajectories[k], rewardTrajectories[k], actionTrajectories[k],
                               actionProbabilityTrajectories[k]) == Episode(env, agent, k)
      {
        var tr := CollectEpisode(env, agent, episode);
        stateTrajectories := stateTrajectories + [tr.states];
        rewardTrajectories := rewardTrajectories + [tr.rewards];
        actionProbabilityTrajectories := actionProbabilityTrajectories + [tr.probabilities];
        actionTrajectories := actionTrajectories + [tr.actions];
      }
    }

    /** The inner `while not done` loop for the `k`-th episode. */
    static method CollectEpisode(env: Environment, agent: Agent, k: nat) returns (tr: Trajectory)
      requires EndsEpisodes(env)
      ensures tr == Episode(env, agent, k)
    {
      var stateTrajectory: seq<Observation> := [];
      var rewardTrajectory: seq<real> := [];
      var actionTrajectory: seq<Action> := [];
      var actionProbabilityTrajectory: seq<real> := [];

      var done := false;
      var state := env.reset(k);
      var steps: nat := 0;
      while !done
        invariant EpisodeAfter(env, agent, k, steps)
                  == Run(Trajectory(stateTrajectory, rewardTrajectory, actionTrajectory, actionProbabilityTrajectory),
                         state, done)
        invariant steps <= EpisodeBound(env)
        decreases EpisodeBound(env) - steps
      {
        if steps > 0 {
          RunningWithinLimit(env, agent, k, steps);
        }
        var choice := agent.act(state);
        var o := env.step(k, steps, choice.0);

        stateTrajectory := stateTrajectory + [state];
        rewardTrajectory := rewardTrajectory + [o.reward];
        actionTrajectory := actionTrajectory + [choice.0];
        actionProbabilityTrajectory := actionProbabilityTrajectory + [choice.1];

        state := o.observation;
        done := o.done;
        steps := steps + 1;
      }
      DoneStays(env, agent, k, steps, EpisodeBound(env));
      tr := Trajectory(stateTrajectory, rewardTrajectory, actionTrajectory, actionProbabilityTrajectory);
    }
  }

  // ---------------------------------------------------------------------------
  // ContinuousGatherer: trajectories of a fixed length
  // ---------------------------------------------------------------------------

  /** The `k`-th fixed-length trajectory after `t` steps; `done` is recorded but never acted on. */
  function StretchAfter(env: Environment, agent: Agent, k: nat, t: nat): (r: Run)
    ensures Aligned(r.trajectory) && |r.trajectory.states| == t
  {
    if t == 0 then Start(env, k) else Advance(env, agent, k, StretchAfter(env, agent, k, t - 1))
  }

  /**
   * A fixed-length trajectory starts from its own reset and follows the environment and the
   * agent for all of its steps, whatever `done` the environment reports.
   */
  lemma {:induction false} StretchFollows(env: Environment, agent: Agent, k: nat, t: nat)
    ensures var r := StretchAfter(env, agent, k, t);
            && Follows(env, agent, k, r.trajectory)
            && (t == 0 ==> r.state == env.reset(k))
            && (t > 0 ==> r.state == StepOf(env, k, r.trajectory, t - 1).observation)
  {
    if t > 0 {
      StretchFollows(env, agent, k, t - 1);
      AdvanceFollows(env, agent, k, StretchAfter(env, agent, k, t - 1));
    }
  }

  class ContinuousGatherer {
    const nTrajectories: nat
    /** `T`, the number of steps in each trajectory. */
    const horizon: nat

    constructor (nTrajectories: nat, horizon: nat)
      ensures this.nTrajectories == nTrajectories && this.horizon == horizon
    {
      this.nTrajectories := nTrajectories;
      this.horizon := horizon;
    }

    /** `n_trajectories` trajectories of exactly `T` steps each. */
    method Gather(env: Environment, agent: Agent)
      returns (stateTrajectories: seq<seq<Observation>>, rewardTrajectories: seq<seq<real>>,
               actionTrajectories: seq<seq<Action>>, actionProbabilityTrajectories: seq<seq<real>>)
      ensures |stateTrajectories| == nTrajectories && |rewardTrajectories| == nTrajectories
      ensures |actionTrajectories| == nTrajectories && |actionProbabilityTrajectories| == nTrajectories
      ensures forall k :: 0 <= k < nTrajectories ==>
                |stateTrajectories[k]| == horizon
                && Trajectory(stateTrajectories[k], rewardTrajectories[k], actionTrajectories[k],
                              actionProbabilityTrajectories[k]) == StretchAfter(env, agent, k, horizon).trajectory
    {
      stateTrajectories, rewardTrajectories, actionTrajectories, actionProbabilityTrajectories := [], [], [], [];
      for trajectory := 0 to nTrajectories
        invariant |stateTrajectories| == trajectory && |rewardTrajectories| == trajectory
        invariant |actionTrajectories| == trajectory && |actionProbabilityTrajectories| == trajectory
        invariant forall k :: 0 <= k < trajectory ==>
                    |stateTrajectories[k]| == horizon
                    && Trajectory(stateTrajectories[k], rewardTrajectories[k], actionTrajectories[k],
                                  actionProbabilityTrajectories[k]) == StretchAfter(env, agent, k, horizon).trajectory
      {
        var tr := CollectStretch(env, agent, trajectory, horizon);
        stateTrajectories := stateTrajectories + [tr.states];
        rewardTrajectories := rewardTrajectories + [tr.rewards];
        actionProbabilityTrajectories := actionProbabilityTrajectories + [tr.probabilities];
        actionTrajectories := actionTrajectories + [tr.actions];
      }
    }

    /** The inner `for t in range(T)` loop for the `k`-th trajectory. */
    static method CollectStretch(env: Environment, agent: Agent, k: nat, horizon: nat) returns (tr: Trajectory)
      ensures tr == StretchAfter(env, agent, k, horizon).trajectory
    {
      var stateTrajectory: seq<Observation> := [];
      var rewardTrajectory: seq<real> := [];
      var actionTrajectory: seq<Action> := [];
      var actionProbabilityTrajectory: seq<real> := [];

      var state := env.reset(k);
      ghost var done := false;
      for t := 0 to horizon
        invariant StretchAfter(env, agent, k, t)
                  == Run(Trajectory(stateTrajectory, rewardTrajectory, actionTrajectory, actionProbabilityTrajectory),
                         state, done)
      {
        var choice := agent.act(state);
        var o := env.step(k, t, choice.0);

        stateTrajectory := stateTrajectory + [state];
        rewardTrajectory := rewardTrajectory + [o.reward];
        actionTrajectory := actionTrajectory + [choice.0];
        actionProbabilityTrajectory := actionProbabilityTrajectory + [choice.1];

        state := o.observation;
        done := o.done;
      }
      tr := Trajectory(stateTrajectory, rewardTrajectory, actionTrajectory, actionProbabilityTrajectory);
    }
  }
}
