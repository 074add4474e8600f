/**
 * `make_config` of configs.py with its 33 keyword parameters and their defaults, the named
 * configurations made with it or derived from one another with `derive_config`, and the
 * table of recommended configurations per environment id.
 */
module ConfigTable {
  import opened Wrappers
  import opened Configs

  /** The TypeError for keywords `make_config` does not take. */
  datatype ConfigError = UnexpectedKeywords(names: set<string>)

  /** The parameters of `make_config` with their default values. */
  const Defaults: Config := map[
    "batch_size" := IntV(64), "c_entropy" := RealV(0.01), "c_value" := IntV(1), "clip" := RealV(0.2),
    "cpu" := BoolV(false), "debug" := BoolV(false), "discount" := RealV(0.99), "env" := StrV("CartPole-v1"),
    "epochs" := IntV(3), "eval" := BoolV(false), "export_file" := NoneV, "grad_norm" := RealV(0.5),
    "horizon" := IntV(2024), "iterations" := IntV(100), "lam" := RealV(0.97), "load_from" := NoneV,
    "lr_pi" := RealV(0.001), "clip_values" := BoolV(false), "save_every" := IntV(0), "workers" := IntV(8),
    "tbptt" := IntV(16), "lr_schedule" := NoneV, "no_state_norming" := BoolV(false),
    "no_reward_norming" := BoolV(false), "model" := StrV("ffn"), "early_stopping" := BoolV(false),
    "distribution" := NoneV, "shared" := BoolV(false), "preload" := NoneV, "sequential" := BoolV(false),
    "architecture" := StrV("simple"), "radical_evaluation" := BoolV(false), "redis_ip" := NoneV]

  /** The parameter names of `make_config`. */
  function ParameterNames(): set<string>
  {
    Defaults.Keys
  }

  /**
   * `make_config(**args)`: `locals()` holds exactly the parameters, each bound to the value
   * given for it or else to its default; a keyword that is not a parameter is a TypeError.
   */
  function MakeConfig(args: Config): (r: Result<Config, ConfigError>)
    ensures r.Success? <==> args.Keys <= ParameterNames()
    ensures r.Failure? ==> r.error.names == args.Keys - ParameterNames()
    ensures r.Success? ==> r.value.Keys == ParameterNames()
    ensures r.Success? ==> forall k :: k in ParameterNames() ==>
              r.value[k] == (if k in args then args[k] else Defaults[k])
  {
    if args.Keys <= ParameterNames() then Success(Defaults + args)
    else Failure(UnexpectedKeywords(args.Keys - ParameterNames()))
  }

  /** A configuration made from keywords that are all parameters. */
  function Make(args: Config): (c: Config)
    requires args.Keys <= Defaults.Keys
    ensures MakeConfig(args) == Success(c)
  {
    Defaults + args
  }

  // ---------------------------------------------------------------------------
  // Named configurations
  // ---------------------------------------------------------------------------

  const discrete: Config := Make(map[
    "batch_size" := IntV(128), "horizon" := IntV(2048), "c_entropy" := RealV(0.01), "lr_pi" := RealV(0.0003),
    "epochs" := IntV(10), "clip" := RealV(0.2), "lam" := RealV(0.95), "discount" := RealV(0.99),
    "grad_norm" := RealV(0.5), "iterations" := IntV(100), "workers" := IntV(8), "clip_values" := BoolV(false)])

  const discrete_no_ent: Config := Derived(discrete, map["c_entropy" := RealV(0.0)])
  const discrete_shared: Config := Derived(discrete, map["shared" := BoolV(true)])
  const discrete_rnn: Config := Derived(discrete, map["model" := StrV("rnn")])
  const discrete_gru: Config := Derived(discrete, map["model" := StrV("gru")])
  const discrete_lstm: Config := Derived(discrete, map["model" := StrV("lstm")])
  const discrete_no_norms: Config := Derived(discrete, map["no_state_norming" := BoolV(true), "no_reward_norming" := BoolV(true)])
  const discrete_no_norms_short: Config := Derived(discrete_no_norms, map["horizon" := IntV(512)])

  const continuous: Config := Make(map[
    "batch_size" := IntV(64), "horizon" := IntV(2048), "c_entropy" := RealV(0.0), "lr_pi" := RealV(0.0003),
    "epochs" := IntV(10), "clip" := RealV(0.2), "lam" := RealV(0.95), "discount" := RealV(0.99),
    "grad_norm" := RealV(0.5), "iterations" := IntV(100), "workers" := IntV(8), "clip_values" := BoolV(false)])

  const continuous_shared: Config := Derived(continuous, map["shared" := BoolV(true)])
  const continuous_rnn: Config := Derived(continuous, map["model" := StrV("rnn")])
  const continuous_gru: Config := Derived(continuous, map["model" := StrV("gru")])
  const continuous_lstm: Config := Derived(continuous, map["model" := StrV("lstm")])
  const continuous_beta: Config := Derived(continuous, map["distribution" := StrV("beta")])
  const continuous_no_norms: Config := Derived(continuous, map["no_state_norming" := BoolV(true), "no_reward_norming" := BoolV(true)])
  const continuous_with_ent: Config := Derived(continuous, map["c_entropy" := RealV(0.01)])
  const continuous_beta_with_ent: Config := Derived(continuous_beta, map["c_entropy" := RealV(0.01)])
  const continuous_beta_lstm: Config := Derived(continuous_beta, map["model" := StrV("lstm")])
  const continuous_beta_gru: Config := Derived(continuous_beta, map["model" := StrV("gru")])
  const continuous_beta_rnn: Config := Derived(continuous_beta, map["model" := StrV("rnn")])

  const pendulum: Config := Derived(continuous, map[
    "horizon" := IntV(512), "epochs" := IntV(10), "discount" := RealV(0.99), "distribution" := StrV("gaussian")])
  const pendulum_beta: Config := Derived(pendulum, map["distribution" := StrV("beta")])

  const beta_paper: Config := Make(map[
    "batch_size" := IntV(64), "horizon" := IntV(2048), "c_entropy" := RealV(0.001), "lr_pi" := RealV(0.0003),
    "epochs" := IntV(10), "clip" := RealV(0.2), "lam" := RealV(0.95), "discount" := RealV(0.995),
    "grad_norm" := RealV(0.5), "iterations" := IntV(100), "workers" := IntV(8), "clip_values" := BoolV(false)])

  const mujoco: Config := Make(map[
    "iterations" := IntV(1000000 / 2048), "workers" := IntV(1), "batch_size" := IntV(64), "horizon" := IntV(2048),
    "c_entropy" := RealV(0.0), "lr_pi" := RealV(0.0003), "epochs" := IntV(10), "clip" := RealV(0.2),
    "lam" := RealV(0.95), "discount" := RealV(0.99), "grad_norm" := RealV(0.5), "clip_values" := BoolV(false)])

  const mujoco_beta: Config := Derived(mujoco, map["distribution" := StrV("beta")])
  const mujoco_beta_rnn: Config := Derived(mujoco_beta, map["model" := StrV("rnn")])
  const mujoco_beta_gru: Config := Derived(mujoco_beta, map["model" := StrV("gru")])
  const mujoco_beta_lstm: Config := Derived(mujoco_beta, map["model" := StrV("lstm")])
  const mujoco_vc: Config := Derived(mujoco, map["clip_values" := BoolV(true)])
  const mujoco_beta_shared: Config := Derived(mujoco_beta, map["shared" := BoolV(true)])

  const roboschool: Config := Make(map[
    "iterations" := IntV(50000000 / (32 * 512)), "workers" := IntV(32), "batch_size" := IntV(4096),
    "horizon" := IntV(512), "c_entropy" := RealV(0.0), "lr_pi" := RealV(0.0003), "lr_schedule" := StrV("exponential"),
    "epochs" := IntV(15), "clip" := RealV(0.2), "lam" := RealV(0.95), "discount" := RealV(0.99),
    "grad_norm" := RealV(0.5), "clip_values" := BoolV(false), "radical_evaluation" := BoolV(true)])

  const roboschool_beta: Config := Derived(roboschool, map["distribution" := StrV("beta")])

  const hand: Config := Make(map[
    "iterations" := IntV(5000), "workers" := IntV(16), "batch_size" := IntV(256), "horizon" := IntV(512),
    "c_entropy" := RealV(0.01), "lr_pi" := RealV(0.0005), "lr_schedule" := StrV("exponential"), "epochs" := IntV(10),
    "clip" := RealV(0.2), "lam" := RealV(0.95), "discount" := RealV(0.998), "grad_norm" := RealV(0.5),
    "clip_values" := BoolV(false), "architecture" := StrV("deeper")])

  const hand_beta: Config := Derived(hand, map["distribution" := StrV("beta")])
  const hand_beta_no_ent: Config := Derived(hand_beta, map["c_entropy" := RealV(0.0)])
  const hand_shadow: Config := Derived(hand, map["architecture" := StrV("shadow")])
  const hand_shadow_beta: Config := Derived(hand_shadow, map["distribution" := StrV("beta")])

  /** `discrete_no_ent` is `discrete` with the entropy coefficient switched off, and nothing else changed. */
  lemma NoEntropyVariant()
    ensures discrete_no_ent.Keys == discrete.Keys == ParameterNames()
    ensures discrete["c_entropy"] == RealV(0.01) && discrete_no_ent["c_entropy"] == RealV(0.0)
    ensures forall k :: k in discrete && k != "c_entropy" ==> discrete_no_ent[k] == discrete[k]
  {
    DiscreteKeys();
    NoEntropyKeys();
    NoEntropyRest();
  }

  lemma DiscreteKeys()
    ensures discrete.Keys == ParameterNames()
  {
  }

  lemma NoEntropyKeys()
    ensures discrete_no_ent.Keys == discrete.Keys
  {
  }

  lemma NoEntropyRest()
    ensures forall k :: k in discrete && k != "c_entropy" ==> discrete_no_ent[k] == discrete[k]
  {
  }

  /** `discrete_no_norms` differs from `discrete` exactly in the two norming flags. */
  lemma NoNormsVariant()
    ensures discrete_no_norms.Keys == discrete.Keys
    ensures discrete["no_state_norming"] == BoolV(false) && discrete_no_norms["no_state_norming"] == BoolV(true)
    ensures discrete["no_reward_norming"] == BoolV(false) && discrete_no_norms["no_reward_norming"] == BoolV(true)
    ensures forall k :: k in discrete && k != "no_state_norming" && k != "no_reward_norming" ==>
              discrete_no_norms[k] == discrete[k]
  {
    NoNormsKeys();
    DiscreteNorming();
    NoNormsFlags();
    NoNormsRest();
  }

  lemma NoNormsKeys()
    ensures discrete_no_norms.Keys == discrete.Keys
  {
  }

  lemma DiscreteNorming()
    ensures discrete["no_state_norming"] == BoolV(false) && discrete["no_reward_norming"] == BoolV(false)
  {
    DiscreteStateNorming();
    DiscreteRewardNorming();
  }

  lemma DiscreteStateNorming()
    ensures discrete["no_state_norming"] == BoolV(false)
  {
  }

  lemma DiscreteRewardNorming()
    ensures discrete["no_reward_norming"] == BoolV(false)
  {
  }

  lemma NoNormsFlags()
    ensures discrete_no_norms["no_state_norming"] == BoolV(true) && discrete_no_norms["no_reward_norming"] == BoolV(true)
  {
  }

  lemma NoNormsRest()
    ensures forall k :: k in discrete && k != "no_state_norming" && k != "no_reward_norming" ==>
              discrete_no_norms[k] == discrete[k]
  {
  }

  /** The step budgets written as integer divisions: 488 and 3051 iterations. */
  lemma IterationBudgets()
    ensures mujoco["iterations"] == IntV(488) && roboschool["iterations"] == IntV(3051)
  {
    MujocoIterations();
    RoboschoolIterations();
  }

  lemma MujocoIterations()
    ensures mujoco["iterations"] == IntV(488)
  {
  }

  lemma RoboschoolIterations()
    ensures roboschool["iterations"] == IntV(3051)
  {
  }
}
