/**
 * `recommended_config` of configs.py: the configuration recommended for each environment id,
 * built by joining `dict.fromkeys` groups.
 */
module Recommended {
  import opened Configs
  import ConfigTable

  // ---------------------------------------------------------------------------
  // Recommended configurations
  // ---------------------------------------------------------------------------

  /** `dict.fromkeys(ids, value)`. */
  function FromKeys<V>(ids: seq<string>, value: V): (m: map<string, V>)
    ensures m.Keys == set id | id in ids
    ensures forall id :: id in m ==> m[id] == value
  {
    map id | id in ids :: value
  }

  /** The module-level configurations the recommendation table refers to. */
  datatype ConfigName = DiscreteNoNorms | Discrete | PendulumBeta | ContinuousBeta | MujocoBeta | Mujoco | Roboschool

  function Named(name: ConfigName): Config
  {
    match name
    case DiscreteNoNorms => ConfigTable.discrete_no_norms
    case Discrete => ConfigTable.discrete
    case PendulumBeta => ConfigTable.pendulum_beta
    case ContinuousBeta => ConfigTable.continuous_beta
    case MujocoBeta => ConfigTable.mujoco_beta
    case Mujoco => ConfigTable.mujoco
    case Roboschool => ConfigTable.roboschool
  }

  /** The `dict.fromkeys` groups of `recommended_config`, in the order they are joined. */
  const groups: seq<(seq<string>, ConfigName)> := [
    (["CartPole-v2", "CartPole-v1"], DiscreteNoNorms),
    (["Acrobot-v1", "MountainCar-v0", "lunarLander-v2"], Discrete),
    (["Pendulum-v0"], PendulumBeta),
    (["LunarLanderContinuous-v2", "BipedalWalker-v3", "BipedalWalkerHardcore-v2"], ContinuousBeta),
    (["HalfCheetah-v2", "Hopper-v2", "InvertedPendulum-v2", "InvertedDoublePendulum-v2",
      "Swimmer-v2", "Walker2d-v2"], MujocoBeta),
    (["Reacher-v2"], Mujoco),
    (["Humanoid-v2", "HumanoidStandup-v2"], Roboschool)]

  /** `dict(**g_0, ..., **g_{n-1})`: the groups joined left to right, later groups winning. */
  function Joined(gs: seq<(seq<string>, ConfigName)>): map<string, ConfigName>
  {
    if gs == [] then map[] else Joined(gs[..|gs| - 1]) + FromKeys(gs[|gs| - 1].0, gs[|gs| - 1].1)
  }

  /** The joined map lists exactly the ids of its groups. */
  lemma {:induction false} JoinedKeys(gs: seq<(seq<string>, ConfigName)>, id: string)
    ensures id in Joined(gs) <==> exists i :: 0 <= i < |gs| && id in gs[i].0
  {
    if gs != [] {
      var n := |gs| - 1;
      JoinedKeys(gs[..n], id);
      if id in Joined(gs) && id !in gs[n].0 {
        var i :| 0 <= i < n && id in gs[..n][i].0;
        assert gs[..n][i] == gs[i];
      }
      if i :| 0 <= i < |gs| && id in gs[i].0 {
        if i < n {
          assert gs[..n][i] == gs[i];
        }
      }
    }
  }

  /** `recommended_config`, with each value written as the name of the configuration it is. */
  const recommended_config: map<string, ConfigName> := Joined(groups)

  /** An id of group `i` that no later group lists is recommended the configuration of group `i`. */
  lemma {:induction false} JoinedLookup(gs: seq<(seq<string>, ConfigName)>, i: nat, id: string)
    requires i < |gs| && id in gs[i].0
    requires forall j :: i < j < |gs| ==> id !in gs[j].0
    ensures id in Joined(gs) && Joined(gs)[id] == gs[i].1
  {
    var n := |gs| - 1;
    if i < n {
      assert gs[..n][i] == gs[i];
      JoinedLookup(gs[..n], i, id);
      assert id !in gs[n].0;
    }
  }

  /** No environment id is listed in two groups. */
  lemma GroupsDisjoint(i: nat, j: nat, id: string)
    requires i < j < |groups| && id in groups[i].0
    ensures id !in groups[j].0
  {
  }

  /**
   * Every listed environment id is recommended the configuration of its group; e.g. the
   * CartPole ids get `discrete_no_norms`, Reacher-v2 gets `mujoco` and the Humanoid ids get
   * `roboschool`.
   */
  lemma RecommendedConfig(i: nat, id: string)
    requires i < |groups| && id in groups[i].0
    ensures id in recommended_config && recommended_config[id] == groups[i].1
  {
    forall j | i < j < |groups| ensures id !in groups[j].0 {
      GroupsDisjoint(i, j, id);
    }
    JoinedLookup(groups, i, id);
  }

  /** Reacher-v2 is the one MuJoCo task recommended the non-beta `mujoco` configuration. */
  lemma RecommendedReacher()
    ensures "Reacher-v2" in recommended_config && recommended_config["Reacher-v2"] == Mujoco
    ensures "Hopper-v2" in recommended_config && recommended_config["Hopper-v2"] == MujocoBeta
  {
    RecommendedConfig(5, "Reacher-v2");
    RecommendedConfig(4, "Hopper-v2");
  }

  /** Only the listed environment ids have a recommendation. */
  lemma RecommendedConfigKeys(id: string)
    requires id in recommended_config
    ensures exists i :: 0 <= i < |groups| && id in groups[i].0
  {
    JoinedKeys(groups, id);
  }
}
