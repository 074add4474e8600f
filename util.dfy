/**
 * The shape-level helpers of utilities/util.py: list flattening, unknown-dimension
 * replacement, adding and merging batch axes, reading the state and action sizes off a
 * gym environment's spaces, and detecting finished episodes.
 *
 * Arrays are represented by their shapes only; their contents play no part in these helpers.
 */
module Util {
  import opened Wrappers

  datatype UtilError =
    | AxisError                                   // numpy.expand_dims with an axis out of range
    | IndexError                                  // indexing an empty list, shape or row
    | TypeError                                   // subscripting a space whose shape is None
    | KeyError(key: string)                       // a Dict space without the key
    | RaggedStates                                // concatenating states of different shapes
    | UninterpretableObservationSpace(kind: string)
    | NotImplemented(kind: string)

  // ---------------------------------------------------------------------------
  // flatten
  // ---------------------------------------------------------------------------

  /** A Python value as `flatten` sees it: a list of values, or anything else. */
  datatype PyValue<T> = Atom(value: T) | List(items: seq<PyValue<T>>)

  /** `flatten`: a non-list becomes a one-element list; a list is flattened item by item. */
  function Flatten<T>(v: PyValue<T>): (r: seq<PyValue<T>>)
    ensures forall i :: 0 <= i < |r| ==> r[i].Atom?
    ensures v.Atom? ==> r == [v]
    decreases v, 1
  {
    match v
    case Atom(_) => [v]
    case List(items) => FlattenItems(items)
  }

  /** The comprehension `[x for X in items for x in flatten(X)]`. */
  function FlattenItems<T>(items: seq<PyValue<T>>): (r: seq<PyValue<T>>)
    ensures forall i :: 0 <= i < |r| ==> r[i].Atom?
    decreases items, 0
  {
    if items == [] then []
    else Flatten(items[0]) + FlattenItems(items[1..])
  }

  /** Flattening keeps left-to-right order: a concatenation flattens to the concatenation. */
  lemma {:induction false} FlattenItemsAppend<T>(a: seq<PyValue<T>>, b: seq<PyValue<T>>)
    ensures FlattenItems(a + b) == FlattenItems(a) + FlattenItems(b)
  {
    if a == [] {
      assert a + b == b;
    } else {
      assert (a + b)[0] == a[0] && (a + b)[1..] == a[1..] + b;
      FlattenItemsAppend(a[1..], b);
    }
  }

  /** A list of non-lists flattens to itself. */
  lemma {:induction false} FlattenItemsOfAtoms<T>(items: seq<PyValue<T>>)
    requires forall i :: 0 <= i < |items| ==> items[i].Atom?
    ensures FlattenItems(items) == items
  {
    if items != [] {
      FlattenItemsOfAtoms(items[1..]);
    }
  }

  /** `flatten(flatten(x)) == flatten(x)`. */
  lemma FlattenIdempotent<T>(v: PyValue<T>)
    ensures Flatten(List(Flatten(v))) == Flatten(v)
  {
    FlattenItemsOfAtoms(Flatten(v));
  }

  // ---------------------------------------------------------------------------
  // insert_unknown_shape_dimensions
  // ---------------------------------------------------------------------------

  /** Every unknown (`None`) dimension replaced by `noneReplacer` (1 by default); the rest kept. */
  function InsertUnknownShapeDimensions(shape: seq<Option<int>>, noneReplacer: int := 1): (r: seq<int>)
    ensures |r| == |shape|
    ensures forall i :: 0 <= i < |shape| ==> r[i] == (if shape[i].None? then noneReplacer else shape[i].value)
  {
    seq(|shape|, i requires 0 <= i < |shape| => if shape[i].None? then noneReplacer else shape[i].value)
  }

  function Known(shape: seq<int>): (r: seq<Option<int>>)
  {
    seq(|shape|, i requires 0 <= i < |shape| => Some(shape[i]))
  }

  /** A shape with no unknown dimension is returned as it is, whatever the replacer. */
  lemma InsertIntoKnownShape(shape: seq<int>, noneReplacer: int)
    ensures InsertUnknownShapeDimensions(Known(shape), noneReplacer) == shape
  {
  }

  /** Replacing twice with the same value is replacing once. */
  lemma InsertUnknownIdempotent(shape: seq<Option<int>>, noneReplacer: int)
    ensures InsertUnknownShapeDimensions(Known(InsertUnknownShapeDimensions(shape, noneReplacer)), noneReplacer)
            == InsertUnknownShapeDimensions(shape, noneReplacer)
  {
  }

  // ---------------------------------------------------------------------------
  // add_state_dims and merge_into_batch, on shapes
  // ---------------------------------------------------------------------------

  type Shape = seq<nat>

  /** A state: one array, or a tuple of arrays (a multi-input state). */
  datatype State = Array(shape: Shape) | Tuple(shapes: seq<Shape>)

  function Ones(n: nat): (r: Shape)
    ensures |r| == n && forall i :: 0 <= i < n ==> r[i] == 1
  {
    if n == 0 then [] else Ones(n - 1) + [1]
  }

  /**
   * `numpy.expand_dims(a, axis)` on a shape: a new axis of size 1 at position `axis` of the
   * result, a negative axis counting from the end of the result.
   */
  function ExpandDims(shape: Shape, axis: int): (r: Result<Shape, UtilError>)
    ensures r.Failure? <==> !(-|shape| - 1 <= axis <= |shape|)
    ensures r.Success? ==> |r.value| == |shape| + 1
    ensures r.Success? && axis >= 0 ==> r.value == shape[..axis] + [1] + shape[axis..]
    ensures r.Success? && axis < 0 ==> r.value == shape[..axis + |shape| + 1] + [1] + shape[axis + |shape| + 1..]
  {
    if axis < -|shape| - 1 || axis > |shape| then Failure(AxisError)
    else
      var p := if axis >= 0 then axis else axis + |shape| + 1;
      Success(shape[..p] + [1] + shape[p..])
  }

  function ExpandEach(shapes: seq<Shape>, axis: int): (r: Result<seq<Shape>, UtilError>)
    ensures r.Success? ==> |r.value| == |shapes|
    ensures r.Success? ==> forall i :: 0 <= i < |shapes| ==> ExpandDims(shapes[i], axis) == Success(r.value[i])
    ensures r.Failure? ==> exists i :: 0 <= i < |shapes| && ExpandDims(shapes[i], axis).Failure?
  {
    if shapes == [] then Success([])
    else
      var n := |shapes| - 1;
      var init := ExpandEach(shapes[..n], axis);
      var last := ExpandDims(shapes[n], axis);
      if init.Failure? then Failure(init.error)
      else if last.Failure? then Failure(last.error)
      else Success(init.value + [last.value])
  }

  /**
   * `add_state_dims`: `dims` new axes at `axis`, added one `expand_dims` at a time; a tuple
   * state gets them on each component. `dims < 1` leaves the state as it is.
   */
  function AddStateDims(state: State, dims: int := 1, axis: int := 0): (r: Result<State, UtilError>)
    ensures dims < 1 ==> r == Success(state)
    ensures r.Success? ==> r.value.Array? == state.Array?
    ensures r.Success? && state.Tuple? ==> |r.value.shapes| == |state.shapes|
    decreases dims
  {
    if dims < 1 then Success(state)
    else
      var inner := AddStateDims(state, dims - 1, axis);
      if inner.Failure? then inner
      else match inner.value
        case Array(s) =>
          (match ExpandDims(s, axis)
           case Success(e) => Success(Array(e))
           case Failure(err) => Failure(err))
        case Tuple(ss) =>
          (match ExpandEach(ss, axis)
           case Success(es) => Success(Tuple(es))
           case Failure(err) => Failure(err))
  }

  /** Each successful `add_state_dims` adds exactly `dims` axes (none when `dims < 1`). */
  lemma {:induction false} AddStateDimsRank(state: State, dims: int, axis: int)
    requires AddStateDims(state, dims, axis).Success?
    ensures var n := if dims < 1 then 0 else dims;
            (state.Array? ==> |AddStateDims(state, dims, axis).value.shape| == |state.shape| + n) &&
            (state.Tuple? ==> forall i :: 0 <= i < |state.shapes| ==>
               |AddStateDims(state, dims, axis).value.shapes[i]| == |state.shapes[i]| + n)
  {
    if dims >= 1 {
      AddStateDimsRank(state, dims - 1, axis);
    }
  }

  /**
   * With a non-negative axis within the array's rank, the `dims` new axes sit together at
   * position `axis`: `shape[:axis] + (1,)*dims + shape[axis:]`.
   */
  lemma {:induction false} AddStateDimsAt(shape: Shape, dims: nat, axis: nat)
    requires axis <= |shape|
    ensures AddStateDims(Array(shape), dims, axis) == Success(Array(shape[..axis] + Ones(dims) + shape[axis..]))
  {
    if dims == 0 {
      assert shape[..axis] + Ones(0) + shape[axis..] == shape;
    } else {
      AddStateDimsAt(shape, dims - 1, axis);
      var s := shape[..axis] + Ones(dims - 1) + shape[axis..];
      assert AddStateDims(Array(shape), dims, axis) == (match ExpandDims(s, axis)
        case Success(e) => Success(Array(e))
        case Failure(err) => Failure(err));
      assert s[..axis] == shape[..axis];
      assert s[axis..] == Ones(dims - 1) + shape[axis..];
      assert ExpandDims(s, axis) == Success(s[..axis] + [1] + s[axis..]);
      OnesCons(dims);
      assert s[..axis] + [1] + s[axis..] == shape[..axis] + (Ones(dims - 1) + [1]) + shape[axis..];
    }
  }

  /**
   * With a negative axis within range, each new axis is placed with the same `-axis - 1`
   * trailing entries after it, so the `dims` new axes sit together before the last
   * `-axis - 1` entries of the shape: `shape[:p] + (1,)*dims + shape[p:]` with
   * `p = len(shape) + axis + 1`.
   */
  lemma {:induction false} AddStateDimsAtNegative(shape: Shape, dims: nat, axis: int)
    requires -|shape| - 1 <= axis < 0
    ensures var p := |shape| + axis + 1;
            AddStateDims(Array(shape), dims, axis) == Success(Array(shape[..p] + Ones(dims) + shape[p..]))
  {
    var p := |shape| + axis + 1;
    if dims == 0 {
      assert shape[..p] + Ones(0) + shape[p..] == shape;
    } else {
      AddStateDimsAtNegative(shape, dims - 1, axis);
      var s := shape[..p] + Ones(dims - 1) + shape[p..];
      assert AddStateDims(Array(shape), dims, axis) == (match ExpandDims(s, axis)
        case Success(e) => Success(Array(e))
        case Failure(err) => Failure(err));
      var q := p + dims - 1;
      assert axis + |s| + 1 == q;
      assert s[..q] == shape[..p] + Ones(dims - 1);
      assert s[q..] == shape[p..];
      assert ExpandDims(s, axis) == Success(s[..q] + [1] + s[q..]);
      assert s[..q] + [1] + s[q..] == shape[..p] + (Ones(dims - 1) + [1]) + shape[p..];
    }
  }

  lemma {:induction false} OnesCons(n: nat)
    requires n > 0
    ensures Ones(n) == [1] + Ones(n - 1)
  {
    if n > 1 {
      OnesCons(n - 1);
    }
  }

  /** An axis past the end of the array's rank is rejected by the first `expand_dims`. */
  lemma AddStateDimsAxisTooLarge(shape: Shape, dims: int, axis: int)
    requires dims >= 1 && axis > |shape|
    ensures AddStateDims(Array(shape), dims, axis) == Failure(AxisError)
  {
    if dims > 1 {
      AddStateDimsAxisTooLarge(shape, dims - 1, axis);
    }
  }

  /**
   * `merge_into_batch` on shapes: the states, none of which has a batch axis, stacked along a
   * new leading axis of size `len(list_of_states)`; for tuple states one batch per component.
   * NumPy refuses to stack states of different shapes.
   */
  function MergeIntoBatch(states: seq<State>): (r: Result<State, UtilError>)
    ensures states == [] ==> r == Failure(IndexError)
    ensures r.Success? ==> r.value.Array? == states[0].Array?
    ensures r.Success? && r.value.Array? ==> r.value.shape == [|states|] + states[0].shape
    ensures r.Success? && r.value.Tuple? ==>
              |r.value.shapes| == |states[0].shapes| &&
              forall i :: 0 <= i < |states[0].shapes| ==> r.value.shapes[i] == [|states|] + states[0].shapes[i]
    ensures r.Failure? && states != [] ==> exists j :: 0 <= j < |states| && states[j] != states[0]
  {
    if states == [] then Failure(IndexError)
    else if exists j :: 0 <= j < |states| && states[j] != states[0] then Failure(RaggedStates)
    else match states[0]
      case Array(s) => Success(Array([|states|] + s))
      case Tuple(ss) => Success(Tuple(seq(|ss|, i requires 0 <= i < |ss| => [|states|] + ss[i])))
  }

  /** Equal states always merge. */
  lemma MergeUniform(states: seq<State>)
    requires states != [] && forall j :: 0 <= j < |states| ==> states[j] == states[0]
    ensures MergeIntoBatch(states).Success?
  {
  }

  // ---------------------------------------------------------------------------
  // env_extract_dims
  // ---------------------------------------------------------------------------

  /**
   * The gym spaces `env_extract_dims` distinguishes. Any other kind (`MultiBinary`,
   * `MultiDiscrete`, ...) is named by its class and has the shape it declares, if any.
   */
  datatype Space =
    | Box(shape: Shape)
    | Discrete(n: nat)
    | TupleSpace(spaces: seq<Space>)
    | DictSpace(fields: map<string, Space>)
    | OtherSpace(kind: string, declaredShape: Option<Shape>)

  /** `space.shape`: a Box's shape, `()` for Discrete, None for composite spaces, else the declared one. */
  function ShapeOf(space: Space): Option<Shape>
  {
    match space
    case Box(s) => Some(s)
    case Discrete(_) => Some([])
    case TupleSpace(_) => None
    case DictSpace(_) => None
    case OtherSpace(_, s) => s
  }

  /** `space.shape[0]`. */
  function LeadingDimension(space: Space): (r: Result<nat, UtilError>)
    ensures r.Success? <==> ShapeOf(space).Some? && ShapeOf(space).value != []
    ensures r.Success? ==> r.value == ShapeOf(space).value[0]
  {
    match ShapeOf(space)
    case None => Failure(TypeError)
    case Some(s) => if s == [] then Failure(IndexError) else Success(s[0])
  }

  /** The state size: one number, or the tuple of the field shapes of a multi-input observation. */
  datatype ObservationDims = Dim(n: nat) | FieldShapes(shapes: seq<Option<Shape>>)

  function ObservationDimsOf(space: Space): (r: Result<ObservationDims, UtilError>)
    ensures space.DictSpace? && "observation" !in space.fields ==> r == Failure(KeyError("observation"))
    ensures space.DictSpace? && "observation" in space.fields && space.fields["observation"].Box? ==>
              r == (if space.fields["observation"].shape == [] then Failure(IndexError)
                    else Success(Dim(space.fields["observation"].shape[0])))
    ensures space.DictSpace? && "observation" in space.fields && space.fields["observation"].TupleSpace? ==>
              r.Success? && r.value.FieldShapes? &&
              |r.value.shapes| == |space.fields["observation"].spaces| &&
              forall i :: 0 <= i < |r.value.shapes| ==> r.value.shapes[i] == ShapeOf(space.fields["observation"].spaces[i])
    ensures space.DictSpace? && "observation" in space.fields &&
            !space.fields["observation"].Box? && !space.fields["observation"].TupleSpace? ==>
              r.Failure? && r.error.UninterpretableObservationSpace?
    ensures !space.DictSpace? ==>
              r == (match LeadingDimension(space) case Success(n) => Success(Dim(n)) case Failure(e) => Failure(e))
  {
    match space
    case DictSpace(fields) =>
      if "observation" !in fields then Failure(KeyError("observation"))
      else
        (match fields["observation"]
         case Box(s) => if s == [] then Failure(IndexError) else Success(Dim(s[0]))
         case TupleSpace(spaces) =>
           Success(FieldShapes(seq(|spaces|, i requires 0 <= i < |spaces| => ShapeOf(spaces[i]))))
         case Discrete(_) => Failure(UninterpretableObservationSpace("Discrete"))
         case DictSpace(_) => Failure(UninterpretableObservationSpace("Dict"))
         case OtherSpace(kind, _) => Failure(UninterpretableObservationSpace(kind)))
    case _ =>
      match LeadingDimension(space)
      case Success(n) => Success(Dim(n))
      case Failure(e) => Failure(e)
  }

  function ActionDimOf(space: Space): (r: Result<nat, UtilError>)
    ensures space.Discrete? ==> r == Success(space.n)
    ensures space.Box? ==> r == (if space.shape == [] then Failure(IndexError) else Success(space.shape[0]))
    ensures !space.Discrete? && !space.Box? ==> r.Failure? && r.error.NotImplemented?
  {
    match space
    case Discrete(n) => Success(n)
    case Box(s) => if s == [] then Failure(IndexError) else Success(s[0])
    case TupleSpace(_) => Failure(NotImplemented("Tuple"))
    case DictSpace(_) => Failure(NotImplemented("Dict"))
    case OtherSpace(kind, _) => Failure(NotImplemented(kind))
  }

  /** `env_extract_dims`: the observation side is read (and can fail) before the action side. */
  function EnvExtractDims(observationSpace: Space, actionSpace: Space): (r: Result<(ObservationDims, nat), UtilError>)
    ensures r.Success? <==> ObservationDimsOf(observationSpace).Success? && ActionDimOf(actionSpace).Success?
    ensures r.Success? ==> r.value == (ObservationDimsOf(observationSpace).value, ActionDimOf(actionSpace).value)
    ensures ObservationDimsOf(observationSpace).Failure? ==> r == Failure(ObservationDimsOf(observationSpace).error)
  {
    match ObservationDimsOf(observationSpace)
    case Failure(e) => Failure(e)
    case Success(o) =>
      match ActionDimOf(actionSpace)
      case Failure(e) => Failure(e)
      case Success(a) => Success((o, a))
  }

  // ---------------------------------------------------------------------------
  // detect_finished_episodes
  // ---------------------------------------------------------------------------

  /**
   * `detect_finished_episodes`: a row of action log-probabilities belongs to a finished
   * episode iff its last entry is exactly 0 (padding after the end); `[:, -1]` of an
   * empty row is an index error.
   */
  function DetectFinishedEpisodes(logProbabilities: seq<seq<real>>): (r: Result<seq<bool>, UtilError>)
    ensures r.Failure? <==> exists i :: 0 <= i < |logProbabilities| && logProbabilities[i] == []
    ensures r.Success? ==> |r.value| == |logProbabilities| && forall i :: 0 <= i < |logProbabilities| ==>
              (r.value[i] <==> logProbabilities[i][|logProbabilities[i]| - 1] == 0.0)
  {
    if exists i :: 0 <= i < |logProbabilities| && logProbabilities[i] == [] then Failure(IndexError)
    else Success(seq(|logProbabilities|, i requires 0 <= i < |logProbabilities| =>
                   logProbabilities[i][|logProbabilities[i]| - 1] == 0.0))
  }

  /** Rows are judged independently: a batch split in two gives the two results joined. */
  lemma DetectFinishedEpisodesRows(a: seq<seq<real>>, b: seq<seq<real>>)
    requires DetectFinishedEpisodes(a).Success? && DetectFinishedEpisodes(b).Success?
    ensures DetectFinishedEpisodes(a + b) == Success(DetectFinishedEpisodes(a).value + DetectFinishedEpisodes(b).value)
  {
    var x, y := DetectFinishedEpisodes(a).value, DetectFinishedEpisodes(b).value;
    forall i | 0 <= i < |a + b| ensures (a + b)[i] != [] {
      if i < |a| {
        assert (a + b)[i] == a[i];
      } else {
        assert (a + b)[i] == b[i - |a|];
      }
    }
    var r := DetectFinishedEpisodes(a + b).value;
    forall i | 0 <= i < |a + b| ensures r[i] == (x + y)[i] {
      if i < |a| {
        assert (a + b)[i] == a[i];
      } else {
        assert (a + b)[i] == b[i - |a|];
      }
    }
    assert r == x + y;
  }
}
