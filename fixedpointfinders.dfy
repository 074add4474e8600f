/**
 * The fixed-point finders of LSTM/fixedpointfinder.py: the constructor's derivation of the
 * number of hidden units, the noise and sampling helpers, the record bookkeeping of the base
 * class, and the two optimisation front ends (Adam and SciPy) that feed the common
 * post-processing pipeline filter -> deduplicate -> attach Jacobians.
 *
 * The recurrent dynamics, their Jacobians and the optimisers themselves are floating-point
 * numerics outside this model; they enter as the opaque functions of a `Numerics` value.
 */
module FixedPointFinders {
  import opened Wrappers
  import opened FixedPointRecords

  datatype RnnType = Vanilla | Gru | Lstm

  /** The architecture tag accepted by the constructor. */
  function ParseRnnType(tag: string): (r: Result<RnnType, FinderError>)
    ensures r.Success? <==> tag == "vanilla" || tag == "gru" || tag == "lstm"
    ensures r.Failure? ==> r.error == UnknownRnnType(tag)
    ensures r.Success? ==> (r.value == Lstm <==> tag == "lstm") && (r.value == Gru <==> tag == "gru")
  {
    if tag == "vanilla" then Success(Vanilla)
    else if tag == "gru" then Success(Gru)
    else if tag == "lstm" then Success(Lstm)
    else Failure(UnknownRnnType(tag))
  }

  /**
   * `n_hidden` from the column count of the recurrent kernel: all of it for a vanilla
   * layer, a third for a GRU (three gates) and a quarter for an LSTM (four gates),
   * truncated as `int(cols / k)` truncates a non-negative quotient.
   */
  function HiddenUnits(t: RnnType, cols: nat): (n: nat)
    ensures t == Vanilla ==> n == cols
    ensures t == Gru ==> 3 * n <= cols < 3 * n + 3
    ensures t == Lstm ==> 4 * n <= cols < 4 * n + 4
  {
    match t
    case Vanilla => cols
    case Gru => cols / 3
    case Lstm => cols / 4
  }

  // ---------------------------------------------------------------------------
  // Noise and sampling (sample_states, _add_gaussian_noise)
  // ---------------------------------------------------------------------------

  predicate SameShape(a: seq<Location>, b: seq<Location>)
  {
    |a| == |b| && forall i :: 0 <= i < |a| ==> |a[i]| == |b[i]|
  }

  /**
   * `_add_gaussian_noise`: `noise` is the standard-normal sample `randn(*data.shape)`.
   * A zero scale returns the data itself, a negative scale is an error, and a positive
   * scale shifts every entry by `noiseScale` times its noise sample.
   */
  function AddGaussianNoise(data: seq<Location>, noiseScale: real, noise: seq<Location>): (r: Result<seq<Location>, FinderError>)
    requires SameShape(noise, data)
    ensures noiseScale == 0.0 ==> r == Success(data)
    ensures r.Failure? <==> noiseScale < 0.0
    ensures r.Failure? ==> r.error == NegativeNoiseScale
    ensures r.Success? ==> SameShape(r.value, data)
    ensures r.Success? ==> forall i, j :: 0 <= i < |data| && 0 <= j < |data[i]| ==>
              r.value[i][j] - data[i][j] == noiseScale * noise[i][j]
  {
    if noiseScale == 0.0 then Success(data)
    else if noiseScale > 0.0 then
      Success(seq(|data|, i requires 0 <= i < |data| =>
        seq(|data[i]|, j requires 0 <= j < |data[i]| => data[i][j] + noiseScale * noise[i][j])))
    else Failure(NegativeNoiseScale)
  }

  /** The activations given to `sample_states`: a matrix, or a batch of them that `np.vstack` joins. */
  datatype Activations = Rows(rows: seq<Location>) | Batches(batches: seq<seq<Location>>)

  function Stack(batches: seq<seq<Location>>): seq<Location>
  {
    if batches == [] then [] else batches[0] + Stack(batches[1..])
  }

  function Pool(a: Activations): seq<Location>
  {
    match a
    case Rows(rows) => rows
    case Batches(batches) => Stack(batches)
  }

  /**
   * `sample_states`: `draws` are the raw outputs of `randint`, reduced modulo the pool size
   * here, and `noise` is the `randn` sample. An empty list of batches has nothing to stack,
   * and draws from an empty pool are refused; asking for no draws at all returns the empty
   * sample, as `randint` does for a zero-size request whatever its bound.
   */
  function SampleStates(activations: Activations, draws: seq<nat>, noise: seq<Location>): (r: Result<seq<Location>, FinderError>)
    requires |noise| == |draws|
    requires forall i :: 0 <= i < |draws| && |Pool(activations)| > 0 ==>
               |noise[i]| == |Pool(activations)[draws[i] % |Pool(activations)|]|
    ensures r.Failure? <==> activations == Batches([]) || (Pool(activations) == [] && draws != [])
    ensures activations == Batches([]) ==> r == Failure(NothingToStack)
    ensures activations != Batches([]) && Pool(activations) == [] && draws != [] ==> r == Failure(EmptyActivationPool)
    ensures r.Success? ==> |r.value| == |draws|
    ensures r.Success? ==> forall i, j :: 0 <= i < |draws| && 0 <= j < |noise[i]| ==>
              var row := Pool(activations)[draws[i] % |Pool(activations)|];
              |r.value[i]| == |row| && r.value[i][j] - row[j] == 0.5 * noise[i][j]
  {
    var pool := Pool(activations);
    if activations == Batches([]) then Failure(NothingToStack)
    else if pool == [] && draws != [] then Failure(EmptyActivationPool)
    else
      var picked := seq(|draws|, i requires 0 <= i < |draws| => pool[draws[i] % |pool|]);
      AddGaussianNoise(picked, 0.5, noise)
  }

  // ---------------------------------------------------------------------------
  // The numerics the finders call but this model does not contain
  // ---------------------------------------------------------------------------

  /** What a Jacobian function is applied to: the whole state, or an LSTM's `h` and `c`. */
  datatype JacobianArgument = WholeState(x: Location) | HiddenAndCell(h: Location, c: Location)

  /**
   * The dynamical systems built from the layer's weights (`build_rnn_ds`, `build_gru_ds`,
   * `build_lstm_ds`) and the optimisers run on them:
   *  - `speed(u, x)`: the objective q(x) of the system built for the single input row `u`;
   *  - `jointSpeed(us, x)`: the objective the joint branch evaluates records with, built for all inputs;
   *  - `jacobian(u, arg)`: the Jacobian function of the system built for input `u`;
   *  - `adam(u, x0)`: `adam_optimizer` from one initial condition on the system for `u`;
   *  - `adamJoint(us, x0s)`: `adam_optimizer` on all initial conditions together;
   *  - `minimise(u, x0)`: SciPy's `minimize` from one initial condition on the system for `u`.
   */
  datatype Numerics = Numerics(
    speed: (Location, Location) -> real,
    jointSpeed: (seq<Location>, Location) -> real,
    jacobian: (Location, JacobianArgument) -> Matrix,
    adam: (Location, Location) -> Location,
    adamJoint: (seq<Location>, seq<Location>) -> seq<Location>,
    minimise: (Location, Location) -> Location)

  /**
   * `adam_optimizer` run on all initial conditions together returns one row per initial
   * condition, as an optimiser that moves each row of `x0` does.
   */
  predicate JointKeepsCount(num: Numerics, x0: seq<Location>, inputs: seq<Location>)
  {
    |num.adamJoint(inputs, x0)| == |x0|
  }

  /** Each initial condition optimised on the system built for its own input row. */
  function Optimised(opt: (Location, Location) -> Location, x0: seq<Location>, inputs: seq<Location>): (fps: seq<Location>)
    requires |x0| <= |inputs|
    ensures |fps| == |x0|
  {
    seq(|x0|, i requires 0 <= i < |x0| => opt(inputs[i], x0[i]))
  }

  // ---------------------------------------------------------------------------
  // Raw records (_creat_fixedpoint_object)
  // ---------------------------------------------------------------------------

  /**
   * The records `_creat_fixedpoint_object` builds with one objective `fun`: one per row of
   * `fps`, in order, row `k` paired with initial condition `k` and input `k`.
   */
  function Records(fun: Location -> real, fps: seq<Location>, x0: seq<Location>, inputs: seq<Location>): (r: seq<FixedPoint>)
    requires |fps| <= |x0| && |fps| <= |inputs|
    ensures |r| == |fps|
    ensures forall k :: 0 <= k < |r| ==>
              r[k] == FixedPoint(fun(fps[k]), fps[k], x0[k], inputs[k], None)
  {
    if fps == [] then []
    else
      var n := |fps| - 1;
      Records(fun, fps[..n], x0, inputs) + [FixedPoint(fun(fps[n]), fps[n], x0[n], inputs[n], None)]
  }

  /**
   * Records built one initial condition at a time, each with the objective of the system for
   * its own input: the concatenation of single-row `Records`.
   */
  function PerPointRecords(speed: (Location, Location) -> real, fps: seq<Location>, x0: seq<Location>, inputs: seq<Location>): (r: seq<FixedPoint>)
    requires |fps| <= |x0| && |fps| <= |inputs|
    ensures |r| == |fps|
    ensures forall k :: 0 <= k < |r| ==>
              r[k] == FixedPoint(speed(inputs[k], fps[k]), fps[k], x0[k], inputs[k], None)
  {
    if fps == [] then []
    else
      var n := |fps| - 1;
      PerPointRecords(speed, fps[..n], x0, inputs) + SingleRecord(speed, fps[n], x0[n], inputs[n])
  }

  /** `_creat_fixedpoint_object` on one reshaped row, as the SciPy worker calls it. */
  function SingleRecord(speed: (Location, Location) -> real, fp: Location, x0: Location, input: Location): (r: seq<FixedPoint>)
    ensures r == [FixedPoint(speed(input, fp), fp, x0, input, None)]
  {
    Records(x => speed(input, x), [fp], [x0], [input])
  }

  /** The list comprehension that flattens the per-point lists the worker pool returns. */
  function Concat(lists: seq<seq<FixedPoint>>): (r: seq<FixedPoint>)
  {
    if lists == [] then [] else Concat(lists[..|lists| - 1]) + lists[|lists| - 1]
  }

  /** Flattening single-record lists gives one record per list, in list order. */
  lemma {:induction false} ConcatSingletons(lists: seq<seq<FixedPoint>>)
    requires forall i :: 0 <= i < |lists| ==> |lists[i]| == 1
    ensures |Concat(lists)| == |lists|
    ensures forall i :: 0 <= i < |lists| ==> Concat(lists)[i] == lists[i][0]
  {
    if lists != [] {
      ConcatSingletons(lists[..|lists| - 1]);
    }
  }

  /** Flattening the single-row lists built for each row in turn gives the per-point records. */
  lemma ConcatPerPoint(speed: (Location, Location) -> real, fps: seq<Location>, x0: seq<Location>, inputs: seq<Location>,
                       lists: seq<seq<FixedPoint>>)
    requires |fps| <= |x0| && |fps| <= |inputs| && |lists| == |fps|
    requires forall j :: 0 <= j < |fps| ==> lists[j] == SingleRecord(speed, fps[j], x0[j], inputs[j])
    ensures Concat(lists) == PerPointRecords(speed, fps, x0, inputs)
  {
    ConcatSingletons(lists);
  }

  // ---------------------------------------------------------------------------
  // The base finder
  // ---------------------------------------------------------------------------

  class FixedPointFinder {
    const rnnType: RnnType
    const nHidden: nat
    const qThreshold: real
    /** The number of decimals the deduplication rounds to, `int(round(-log10(tol_unique)))`. */
    const decimals: int
    const numerics: Numerics

    constructor (rnnType: RnnType, recurrentColumns: nat, qThreshold: real, decimals: int, numerics: Numerics)
      ensures this.rnnType == rnnType && nHidden == HiddenUnits(rnnType, recurrentColumns)
      ensures this.qThreshold == qThreshold && this.decimals == decimals && this.numerics == numerics
    {
      this.rnnType := rnnType;
      this.nHidden := HiddenUnits(rnnType, recurrentColumns);
      this.qThreshold := qThreshold;
      this.decimals := decimals;
      this.numerics := numerics;
    }

    /** The constructor as called with an architecture tag: unknown tags are rejected. */
    static method Create(tag: string, recurrentColumns: nat, qThreshold: real, decimals: int, numerics: Numerics)
      returns (r: Result<FixedPointFinder, FinderError>)
      ensures r.Failure? <==> ParseRnnType(tag).Failure?
      ensures r.Failure? ==> r.error == UnknownRnnType(tag)
      ensures r.Success? ==> fresh(r.value) && r.value.rnnType == ParseRnnType(tag).value
      ensures r.Success? ==> r.value.nHidden == HiddenUnits(r.value.rnnType, recurrentColumns)
      ensures r.Success? ==> r.value.qThreshold == qThreshold && r.value.decimals == decimals && r.value.numerics == numerics
    {
      var t := ParseRnnType(tag);
      if t.Failure? {
        return Failure(t.error);
      }
      var f := new FixedPointFinder(t.value, recurrentColumns, qThreshold, decimals, numerics);
      r := Success(f);
    }

    /** `_handle_bad_approximations`: one pass appending each record to the list it belongs to. */
    method HandleBadApproximations(fps: seq<FixedPoint>) returns (good: seq<FixedPoint>, bad: seq<FixedPoint>)
      ensures good == Good(fps, qThreshold) && bad == Bad(fps, qThreshold)
    {
      good, bad := [], [];
      for i := 0 to |fps|
        invariant good == Good(fps[..i], qThreshold) && bad == Bad(fps[..i], qThreshold)
      {
        assert fps[..i + 1][..i] == fps[..i];
        if fps[i].fun > qThreshold {
          bad := bad + [fps[i]];
        } else {
          good := good + [fps[i]];
        }
      }
      assert fps[..|fps|] == fps;
    }

    /** `_creat_fixedpoint_object`: the loop with its running row counter `k`. */
    static method CreateFixedPointObjects(fun: Location -> real, fps: seq<Location>, x0: seq<Location>, inputs: seq<Location>)
      returns (fixedPoints: seq<FixedPoint>)
      requires |fps| <= |x0| && |fps| <= |inputs|
      ensures fixedPoints == Records(fun, fps, x0, inputs)
    {
      fixedPoints := [];
      var k := 0;
      while k < |fps|
        invariant 0 <= k <= |fps|
        invariant fixedPoints == Records(fun, fps[..k], x0, inputs)
      {
        assert fps[..k + 1][..k] == fps[..k];
        fixedPoints := fixedPoints + [FixedPoint(fun(fps[k]), fps[k], x0[k], inputs[k], None)];
        k := k + 1;
      }
      assert fps[..k] == fps;
    }

    /** What `jac_fun` is applied to: `h = x[:n_hidden]` and `c = x[n_hidden:]` for an LSTM, else `x`. */
    function JacobianArgumentOf(x: Location): (arg: JacobianArgument)
      ensures arg.HiddenAndCell? <==> rnnType == Lstm
      ensures arg.HiddenAndCell? ==> arg.h + arg.c == x && |arg.h| == (if nHidden <= |x| then nHidden else |x|)
      ensures arg.WholeState? ==> arg.x == x
    {
      if rnnType == Lstm then
        var hc := SplitHiddenCell(x, nHidden);
        HiddenAndCell(hc.0, hc.1)
      else WholeState(x)
    }

    /** A record with its `jac` entry set; every other entry is kept. */
    function WithJacobian(fp: FixedPoint): (r: FixedPoint)
      ensures r.fun == fp.fun && r.x == fp.x && r.xInit == fp.xInit && r.inputInit == fp.inputInit
      ensures r.jac == Some(numerics.jacobian(fp.inputInit, JacobianArgumentOf(fp.x)))
    {
      fp.(jac := Some(numerics.jacobian(fp.inputInit, JacobianArgumentOf(fp.x))))
    }

    /** `_compute_jacobian`: adds `jac` to every record in place. */
    method ComputeJacobian(fixedPoints: array<FixedPoint>)
      modifies fixedPoints
      ensures forall i :: 0 <= i < fixedPoints.Length ==> fixedPoints[i] == WithJacobian(old(fixedPoints[i]))
    {
      for i := 0 to fixedPoints.Length
        invariant forall j :: 0 <= j < i ==> fixedPoints[j] == WithJacobian(old(fixedPoints[j]))
        invariant forall j :: i <= j < fixedPoints.Length ==> fixedPoints[j] == old(fixedPoints[j])
      {
        fixedPoints[i] := WithJacobian(fixedPoints[i]);
      }
    }

    function AttachJacobians(s: seq<FixedPoint>): (r: seq<FixedPoint>)
      ensures |r| == |s|
      ensures forall i :: 0 <= i < |s| ==> r[i] == WithJacobian(s[i])
    {
      seq(|s|, i requires 0 <= i < |s| => WithJacobian(s[i]))
    }

    /**
     * The tail both `find_fixed_points` share: drop the bad approximations, deduplicate
     * the good ones (which fails when none is left) and attach Jacobians.
     */
    function PostProcess(raw: seq<FixedPoint>): (r: Result<seq<FixedPoint>, FinderError>)
      ensures r.Failure? <==> Good(raw, qThreshold) == []
      ensures r.Failure? ==> r.error == NothingToStack
      ensures r.Success? ==> 0 < |r.value| <= |raw|
    {
      var u := UniqueFixedPoints(Good(raw, qThreshold), decimals);
      if u.Failure? then Failure(u.error) else Success(AttachJacobians(u.value))
    }

    method PostProcessRecords(raw: seq<FixedPoint>) returns (r: Result<seq<FixedPoint>, FinderError>)
      ensures r == PostProcess(raw)
    {
      var good, bad := HandleBadApproximations(raw);
      var unique := UniqueFixedPoints(good, decimals);
      if unique.Failure? {
        return Failure(unique.error);
      }
      var u := unique.value;
      var a := new FixedPoint[|u|](i requires 0 <= i < |u| => u[i]);
      ComputeJacobian(a);
      r := Success(a[..]);
      assert a[..] == AttachJacobians(u);
    }

    /** Attaching Jacobians moves no record: keys, and therefore their order, are kept. */
    lemma AttachJacobiansKeys(s: seq<FixedPoint>)
      ensures KeysOf(AttachJacobians(s), decimals) == KeysOf(s, decimals)
      ensures StrictlySorted(s, decimals) ==> StrictlySorted(AttachJacobians(s), decimals)
    {
      var r := AttachJacobians(s);
      assert forall i :: 0 <= i < |r| ==> Key(r[i], decimals) == Key(s[i], decimals);
      forall k | k in KeysOf(r, decimals) ensures k in KeysOf(s, decimals) {
        var fp :| fp in r && Key(fp, decimals) == k;
        var i :| 0 <= i < |r| && r[i] == fp;
        assert s[i] in s;
      }
      forall k | k in KeysOf(s, decimals) ensures k in KeysOf(r, decimals) {
        var fp :| fp in s && Key(fp, decimals) == k;
        var i :| 0 <= i < |s| && s[i] == fp;
        assert r[i] in r;
      }
    }

    /** Only converged records survive, and each carries a Jacobian. */
    lemma PostProcessConverged(raw: seq<FixedPoint>)
      requires PostProcess(raw).Success?
      ensures forall fp :: fp in PostProcess(raw).value ==> fp.fun <= qThreshold && fp.jac.Some?
    {
      var good := Good(raw, qThreshold);
      var u := UniqueSorted(good, decimals);
      var r := PostProcess(raw).value;
      assert r == AttachJacobians(u);
      UniqueSortedFirstOccurrences(good, decimals);
      PartitionMembers(raw, qThreshold);
      forall fp | fp in r ensures fp.fun <= qThreshold && fp.jac.Some? {
        var i :| 0 <= i < |r| && r[i] == fp;
        var k := Key(u[i], decimals);
        assert u[i] == good[FirstIndex(good, k, decimals)];
        assert u[i] in good;
      }
    }

    /**
     * No two surviving records share a rounded location, they come in ascending order of it,
     * and every converged record's rounded location is represented.
     */
    lemma PostProcessDistinct(raw: seq<FixedPoint>)
      requires PostProcess(raw).Success?
      ensures StrictlySorted(PostProcess(raw).value, decimals)
      ensures KeysOf(PostProcess(raw).value, decimals) == KeysOf(Good(raw, qThreshold), decimals)
    {
      var good := Good(raw, qThreshold);
      var u := UniqueSorted(good, decimals);
      assert PostProcess(raw).value == AttachJacobians(u);
      UniqueSortedAscending(good, decimals);
      UniqueSortedKeys(good, decimals);
      AttachJacobiansKeys(u);
    }

    /** Each surviving record is the first converged record with its rounded location. */
    lemma PostProcessFirstOccurrence(raw: seq<FixedPoint>)
      requires PostProcess(raw).Success?
      ensures forall i :: 0 <= i < |PostProcess(raw).value| ==>
                var k := Key(PostProcess(raw).value[i], decimals);
                k in KeysOf(Good(raw, qThreshold), decimals) &&
                PostProcess(raw).value[i] == WithJacobian(FirstOf(Good(raw, qThreshold), k, decimals))
    {
      var good := Good(raw, qThreshold);
      var u := UniqueSorted(good, decimals);
      var r := PostProcess(raw).value;
      assert r == AttachJacobians(u);
      UniqueSortedFirstOccurrences(good, decimals);
      forall i | 0 <= i < |r|
        ensures Key(r[i], decimals) in KeysOf(good, decimals) && r[i] == WithJacobian(FirstOf(good, Key(r[i], decimals), decimals))
      {
        assert Key(r[i], decimals) == Key(u[i], decimals);
      }
    }

    /** Each surviving record is a converged raw record with its Jacobian attached. */
    lemma PostProcessSource(raw: seq<FixedPoint>, i: nat) returns (j: nat)
      requires PostProcess(raw).Success? && i < |PostProcess(raw).value|
      ensures j < |raw| && raw[j].fun <= qThreshold && PostProcess(raw).value[i] == WithJacobian(raw[j])
    {
      var good := Good(raw, qThreshold);
      PostProcessFirstOccurrence(raw);
      var f := FirstOf(good, Key(PostProcess(raw).value[i], decimals), decimals);
      assert f in good;
      PartitionMembers(raw, qThreshold);
      j :| 0 <= j < |raw| && raw[j] == f;
    }
  }

  // ---------------------------------------------------------------------------
  // Adam front end
  // ---------------------------------------------------------------------------

  /** `_default_hps['q_threshold']`. */
  const DefaultQThreshold: real := 0.000000000001

  /** The rounding decimals of `_default_hps['tol_unique']` (1e-03): `int(round(-log10(1e-03)))`. */
  const DefaultDecimals: int := 3

  /**
   * `Adamfixedpointfinder`: the base finder plus `adam_hps['method']`. Only `q_threshold` is
   * passed on to the base constructor, so `tol_unique` keeps its default.
   */
  class AdamFixedPointFinder {
    const finder: FixedPointFinder
    const optimisationMethod: string

    constructor (rnnType: RnnType, recurrentColumns: nat, qThreshold: real, numerics: Numerics, optimisationMethod: string)
      ensures fresh(finder) && finder.rnnType == rnnType && finder.nHidden == HiddenUnits(rnnType, recurrentColumns)
      ensures finder.qThreshold == qThreshold && finder.decimals == DefaultDecimals && finder.numerics == numerics
      ensures this.optimisationMethod == optimisationMethod
    {
      this.finder := new FixedPointFinder(rnnType, recurrentColumns, qThreshold, DefaultDecimals, numerics);
      this.optimisationMethod := optimisationMethod;
    }

    /** The records of joint optimisation: all initial conditions optimised together. */
    function JointRecords(x0: seq<Location>, inputs: seq<Location>): seq<FixedPoint>
      requires |x0| == |inputs| && JointKeepsCount(finder.numerics, x0, inputs)
    {
      var num := finder.numerics;
      Records(x => num.jointSpeed(inputs, x), num.adamJoint(inputs, x0), x0, inputs)
    }

    /** The records of sequential optimisation, each scored by the system for its own input. */
    function SequentialRecords(x0: seq<Location>, inputs: seq<Location>): seq<FixedPoint>
      requires |x0| == |inputs|
    {
      var num := finder.numerics;
      PerPointRecords(num.speed, Optimised(num.adam, x0, inputs), x0, inputs)
    }

    /**
     * The records of sequential optimisation as the loop is written: the objective passed on
     * is the one built in the last iteration, so every record is scored by the system for the
     * LAST input; with no initial condition that objective is never bound.
     */
    function SequentialRecordsAsWritten(x0: seq<Location>, inputs: seq<Location>): (r: Result<seq<FixedPoint>, FinderError>)
      requires |x0| == |inputs|
      ensures r.Failure? <==> x0 == []
      ensures r.Failure? ==> r.error == UnboundObjective
      ensures r.Success? ==> |r.value| == |x0| && forall k :: 0 <= k < |x0| ==>
                r.value[k].fun == finder.numerics.speed(inputs[|x0| - 1], r.value[k].x)
    {
      var num := finder.numerics;
      if x0 == [] then Failure(UnboundObjective)
      else
        var u := inputs[|x0| - 1];
        Success(Records(x => num.speed(u, x), Optimised(num.adam, x0, inputs), x0, inputs))
    }

    /** `_joint_optimization`. */
    method JointOptimization(x0: seq<Location>, inputs: seq<Location>) returns (fixedPoints: seq<FixedPoint>)
      requires |x0| == |inputs| && JointKeepsCount(finder.numerics, x0, inputs)
      ensures fixedPoints == JointRecords(x0, inputs)
      ensures |fixedPoints| == |x0| && forall k :: 0 <= k < |x0| ==> fixedPoints[k].xInit == x0[k] && fixedPoints[k].inputInit == inputs[k]
    {
      var num := finder.numerics;
      var fps := num.adamJoint(inputs, x0);
      fixedPoints := FixedPointFinder.CreateFixedPointObjects(x => num.jointSpeed(inputs, x), fps, x0, inputs);
    }

    /** `_sequential_optimization` with each record scored by the system for its own input. */
    method SequentialOptimization(x0: seq<Location>, inputs: seq<Location>) returns (fixedPoints: seq<FixedPoint>)
      requires |x0| == |inputs|
      ensures fixedPoints == SequentialRecords(x0, inputs)
      ensures |fixedPoints| == |x0| && forall k :: 0 <= k < |x0| ==>
                fixedPoints[k].xInit == x0[k] && fixedPoints[k].inputInit == inputs[k] &&
                fixedPoints[k].fun == finder.numerics.speed(inputs[k], fixedPoints[k].x)
    {
      var num := finder.numerics;
      var fps := new Location[|x0|];
      var records: seq<seq<FixedPoint>> := [];
      for i := 0 to |x0|
        invariant |records| == i
        invariant forall j :: 0 <= j < i ==> fps[j] == num.adam(inputs[j], x0[j])
        invariant forall j :: 0 <= j < i ==> records[j] == SingleRecord(num.speed, fps[j], x0[j], inputs[j])
      {
        fps[i] := num.adam(inputs[i], x0[i]);
        var one := FixedPointFinder.CreateFixedPointObjects(x => num.speed(inputs[i], x), [fps[i]], [x0[i]], [inputs[i]]);
        records := records + [one];
      }
      fixedPoints := Concat(records);
      ConcatPerPoint(num.speed, fps[..], x0, inputs, records);
      assert fps[..] == Optimised(num.adam, x0, inputs);
      assert fixedPoints == SequentialRecords(x0, inputs);
    }

    /** `_sequential_optimization` as written: the objective of the last iteration scores every record. */
    method SequentialOptimizationAsWritten(x0: seq<Location>, inputs: seq<Location>) returns (r: Result<seq<FixedPoint>, FinderError>)
      requires |x0| == |inputs|
      ensures r == SequentialRecordsAsWritten(x0, inputs)
    {
      var num := finder.numerics;
      var fps := new Location[|x0|];
      var fun: Option<Location -> real> := None;
      for i := 0 to |x0|
        invariant forall j :: 0 <= j < i ==> fps[j] == num.adam(inputs[j], x0[j])
        invariant i == 0 ==> fun == None
        invariant i > 0 ==> fun == Some(x => num.speed(inputs[i - 1], x))
      {
        var u := inputs[i];
        fun := Some(x => num.speed(u, x));
        fps[i] := num.adam(u, x0[i]);
      }
      if fun.None? {
        return Failure(UnboundObjective);
      }
      assert fps[..] == Optimised(num.adam, x0, inputs);
      var fixedPoints := FixedPointFinder.CreateFixedPointObjects(fun.value, fps[..], x0, inputs);
      r := Success(fixedPoints);
    }

    /**
     * `find_fixed_points`: dispatch on the method, then the shared post-processing. The
     * sequential branch is the loop as written, so its records are all scored by the system
     * for the last input row, and with no initial condition the objective is unbound before
     * post-processing is reached.
     */
    method FindFixedPoints(x0: seq<Location>, inputs: seq<Location>) returns (r: Result<seq<FixedPoint>, FinderError>)
      requires |x0| == |inputs|
      requires optimisationMethod == "joint" ==> JointKeepsCount(finder.numerics, x0, inputs)
      ensures optimisationMethod == "joint" ==> r == finder.PostProcess(JointRecords(x0, inputs))
      ensures optimisationMethod == "sequential" && x0 == [] ==> r == Failure(UnboundObjective)
      ensures optimisationMethod == "sequential" && x0 != [] ==>
                r == finder.PostProcess(SequentialRecordsAsWritten(x0, inputs).value)
      ensures optimisationMethod != "joint" && optimisationMethod != "sequential" ==>
                r == Failure(UnknownOptimisationMethod(optimisationMethod))
      ensures r.Success? ==> |r.value| <= |x0|
    {
      var fixedPoints;
      if optimisationMethod == "joint" {
        fixedPoints := JointOptimization(x0, inputs);
      } else if optimisationMethod == "sequential" {
        var written := SequentialOptimizationAsWritten(x0, inputs);
        if written.Failure? {
          return Failure(written.error);
        }
        fixedPoints := written.value;
      } else {
        return Failure(UnknownOptimisationMethod(optimisationMethod));
      }
      r := finder.PostProcessRecords(fixedPoints);
    }

    /**
     * `find_fixed_points` with the corrected sequential loop: every record is scored by the
     * system for its own input row, so a record kept as converged is converged at its input.
     */
    method FindFixedPointsCorrected(x0: seq<Location>, inputs: seq<Location>) returns (r: Result<seq<FixedPoint>, FinderError>)
      requires |x0| == |inputs|
      requires optimisationMethod == "joint" ==> JointKeepsCount(finder.numerics, x0, inputs)
      ensures optimisationMethod == "joint" ==> r == finder.PostProcess(JointRecords(x0, inputs))
      ensures optimisationMethod == "sequential" ==> r == finder.PostProcess(SequentialRecords(x0, inputs))
      ensures optimisationMethod == "sequential" && r.Success? ==> forall i :: 0 <= i < |r.value| ==>
                finder.numerics.speed(r.value[i].inputInit, r.value[i].x) <= finder.qThreshold
      ensures optimisationMethod != "joint" && optimisationMethod != "sequential" ==>
                r == Failure(UnknownOptimisationMethod(optimisationMethod))
      ensures r.Success? ==> |r.value| <= |x0|
    {
      var fixedPoints;
      if optimisationMethod == "joint" {
        fixedPoints := JointOptimization(x0, inputs);
      } else if optimisationMethod == "sequential" {
        fixedPoints := SequentialOptimization(x0, inputs);
      } else {
        return Failure(UnknownOptimisationMethod(optimisationMethod));
      }
      r := finder.PostProcessRecords(fixedPoints);
      if optimisationMethod == "sequential" && r.Success? {
        SequentialConverged(x0, inputs);
      }
    }

    /** After the corrected sequential loop, every kept record is converged at its own input. */
    lemma SequentialConverged(x0: seq<Location>, inputs: seq<Location>)
      requires |x0| == |inputs|
      ensures var r := finder.PostProcess(SequentialRecords(x0, inputs));
              r.Success? ==> forall i :: 0 <= i < |r.value| ==>
                finder.numerics.speed(r.value[i].inputInit, r.value[i].x) <= finder.qThreshold
    {
      var raw := SequentialRecords(x0, inputs);
      var r := finder.PostProcess(raw);
      if r.Success? {
        forall i | 0 <= i < |r.value|
          ensures finder.numerics.speed(r.value[i].inputInit, r.value[i].x) <= finder.qThreshold
        {
          var j := finder.PostProcessSource(raw, i);
          var fps := Optimised(finder.numerics.adam, x0, inputs);
          assert raw[j] == FixedPoint(finder.numerics.speed(inputs[j], fps[j]), fps[j], x0[j], inputs[j], None);
        }
      }
    }
  }

  /** When every input row is the last one, the objective of the last iteration is each record's own. */
  lemma SequentialAsWrittenAgreesOnSharedInput(a: AdamFixedPointFinder, x0: seq<Location>, inputs: seq<Location>)
    requires |x0| == |inputs| && x0 != []
    requires forall i :: 0 <= i < |inputs| ==> inputs[i] == inputs[|inputs| - 1]
    ensures a.SequentialRecordsAsWritten(x0, inputs) == Success(a.SequentialRecords(x0, inputs))
  {
    var num := a.finder.numerics;
    var fps := Optimised(num.adam, x0, inputs);
    var r, s := a.SequentialRecordsAsWritten(x0, inputs).value, a.SequentialRecords(x0, inputs);
    assert r == Records(x => num.speed(inputs[|x0| - 1], x), fps, x0, inputs);
    assert s == PerPointRecords(num.speed, fps, x0, inputs);
    assert |r| == |s|;
    forall k | 0 <= k < |x0| ensures r[k] == s[k] {
      assert r[k] == FixedPoint(num.speed(inputs[|x0| - 1], fps[k]), fps[k], x0[k], inputs[k], None);
      assert s[k] == FixedPoint(num.speed(inputs[k], fps[k]), fps[k], x0[k], inputs[k], None);
    }
    assert r == s;
  }

  /** Numerics whose objective at input `u` is the first entry of `u`, and optimisers that stay put. */
  function FirstInputNumerics(): Numerics
  {
    Numerics(
      (u: Location, x: Location) => if |u| > 0 then u[0] else 0.0,
      (us: seq<Location>, x: Location) => 0.0,
      (u: Location, arg: JacobianArgument) => [],
      (u: Location, x: Location) => x,
      (us: seq<Location>, xs: seq<Location>) => xs,
      (u: Location, x: Location) => x)
  }

  /**
   * Two initial conditions, inputs [1.0] and [0.0], threshold 0.5: the first record's speed at
   * its own input is 1.0, above the threshold, but the loop as written scores it with the
   * system for the last input (speed 0.0), so it is kept as converged. Scored at its own
   * input it is discarded.
   */
  lemma SequentialAsWrittenKeepsUnconverged(a: AdamFixedPointFinder)
    requires a.finder.numerics == FirstInputNumerics() && a.finder.qThreshold == 0.5
    ensures var x0, inputs := [[0.0], [0.0]], [[1.0], [0.0]];
            var written := a.SequentialRecordsAsWritten(x0, inputs);
            var intended := a.SequentialRecords(x0, inputs);
            written.Success? &&
            a.finder.numerics.speed(inputs[0], written.value[0].x) > a.finder.qThreshold &&
            |Good(written.value, a.finder.qThreshold)| == 2 &&
            |Good(intended, a.finder.qThreshold)| == 1
  {
    var x0: seq<Location>, inputs: seq<Location> := [[0.0], [0.0]], [[1.0], [0.0]];
    var written := a.SequentialRecordsAsWritten(x0, inputs).value;
    var intended := a.SequentialRecords(x0, inputs);
    assert written[0].fun == 0.0 && written[1].fun == 0.0;
    assert intended[0].fun == 1.0 && intended[1].fun == 0.0;
    assert written == written[..1] + [written[1]];
    assert written[..1][..0] == [];
    assert intended == intended[..1] + [intended[1]];
    assert intended[..1][..0] == [];
  }

  // ---------------------------------------------------------------------------
  // SciPy front end
  // ---------------------------------------------------------------------------

  /**
   * `Scipyfixedpointfinder`: one `minimize` per initial condition, mapped in order over a
   * pool. The base constructor gets neither `q_threshold` nor `tol_unique`, so both keep
   * their defaults.
   */
  class ScipyFixedPointFinder {
    const finder: FixedPointFinder

    constructor (rnnType: RnnType, recurrentColumns: nat, numerics: Numerics)
      ensures fresh(finder) && finder.rnnType == rnnType && finder.nHidden == HiddenUnits(rnnType, recurrentColumns)
      ensures finder.qThreshold == DefaultQThreshold && finder.decimals == DefaultDecimals && finder.numerics == numerics
    {
      this.finder := new FixedPointFinder(rnnType, recurrentColumns, DefaultQThreshold, DefaultDecimals, numerics);
    }

    /** `_scipy_optimization`: a one-record list for one (initial condition, input) pair. */
    static function ScipyOptimization(num: Numerics, x0: Location, input: Location): (r: seq<FixedPoint>)
      ensures |r| == 1 && r[0].xInit == x0 && r[0].inputInit == input
      ensures r[0].x == num.minimise(input, x0) && r[0].fun == num.speed(input, r[0].x)
    {
      SingleRecord(num.speed, num.minimise(input, x0), x0, input)
    }

    /** The raw records: one per initial condition, in input order, each scored at its own input. */
    function RawRecords(x0: seq<Location>, inputs: seq<Location>): seq<FixedPoint>
      requires |x0| == |inputs|
    {
      var num := finder.numerics;
      PerPointRecords(num.speed, Optimised(num.minimise, x0, inputs), x0, inputs)
    }

    /** `find_fixed_points`: build the work items, map them in order, flatten, post-process. */
    method FindFixedPoints(x0: seq<Location>, inputs: seq<Location>) returns (r: Result<seq<FixedPoint>, FinderError>)
      requires |x0| == |inputs|
      ensures r == finder.PostProcess(RawRecords(x0, inputs))
      ensures r.Success? ==> |r.value| <= |x0|
    {
      var num := finder.numerics;
      var combined: seq<(Location, Location)> := [];
      for i := 0 to |x0|
        invariant |combined| == i
        invariant forall j :: 0 <= j < i ==> combined[j] == (x0[j], inputs[j])
      {
        combined := combined + [(x0[i], inputs[i])];
      }
      var lists: seq<seq<FixedPoint>> := [];
      for i := 0 to |combined|
        invariant |lists| == i
        invariant forall j :: 0 <= j < i ==> lists[j] == ScipyOptimization(num, combined[j].0, combined[j].1)
      {
        lists := lists + [ScipyOptimization(num, combined[i].0, combined[i].1)];
      }
      var fps := Concat(lists);
      ConcatSingletons(lists);
      assert fps == RawRecords(x0, inputs);
      r := finder.PostProcessRecords(fps);
    }
  }
}
