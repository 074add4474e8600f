/**
 * The episode bookkeeping of the hand environments in environments/shadowhand.py: the step
 * counter and time limit of `ShadowHand`, the forced-finger check and one-hot goal of
 * `ShadowHandFreeReach`, and the sequence position (and, for the delayed variant, the resting
 * counter) of the finger-tapping tasks.
 *
 * The MuJoCo simulation is outside the model: what the simulator's own `step` reports (its
 * `done` flag, `info["is_success"]`, whether the object dropped, fingertip distances) enters
 * as parameters, and the random finger draw is a parameter too.
 */
module ShadowHandEnvs {
  import opened Wrappers

  /** gym's `FINGERTIP_SITE_NAMES`: the four fingers, then the thumb. */
  const FingertipSiteNames: seq<string> :=
    ["robot0:S_fftip", "robot0:S_mftip", "robot0:S_rftip", "robot0:S_lftip", "robot0:S_thtip"]

  const ThumbName: string := "robot0:S_thtip"

  /** The index of the thumb in `FingertipSiteNames`. */
  const Thumb: nat := 4

  datatype HandError = ForcedFingerOutOfRange(finger: int)

  // ---------------------------------------------------------------------------
  // ShadowHand: step counter and time limit
  // ---------------------------------------------------------------------------

  class ShadowHand {
    var totalSteps: nat
    const maxSteps: int

    constructor (maxSteps: int)
      ensures this.maxSteps == maxSteps && totalSteps == 0
    {
      this.maxSteps := maxSteps;
      totalSteps := 0;
    }

    /**
     * Counts the step, then ends the episode when the simulator ended it, the object dropped
     * out of the hand, or the step budget is used up.
     */
    method Step(parentDone: bool, dropped: bool) returns (done: bool)
      modifies this
      ensures totalSteps == old(totalSteps) + 1
      ensures done <==> parentDone || dropped || totalSteps >= maxSteps
    {
      totalSteps := totalSteps + 1;
      done := parentDone || dropped || totalSteps >= maxSteps;
    }

    method Reset()
      modifies this
      ensures totalSteps == 0
    {
      totalSteps := 0;
    }
  }

  // ---------------------------------------------------------------------------
  // ShadowHandFreeReach: forced finger and one-hot goal
  // ---------------------------------------------------------------------------

  /** `force_finger in list(range(5)) + [None]`. */
  predicate ValidForcedFinger(forceFinger: Option<int>)
  {
    forceFinger.None? || 0 <= forceFinger.value < |FingertipSiteNames|
  }

  /** The names in `names` other than `name`, in order. */
  function Without(names: seq<string>, name: string): (r: seq<string>)
    ensures forall x :: x in r <==> x in names && x != name
    ensures |r| <= |names|
  {
    if names == [] then []
    else if names[0] == name then Without(names[1..], name)
    else [names[0]] + Without(names[1..], name)
  }

  /** `list.index`: the position of the first occurrence of `name`. */
  function IndexOf(names: seq<string>, name: string): (i: nat)
    requires name in names
    ensures i < |names| && names[i] == name
    ensures forall j :: 0 <= j < i ==> names[j] != name
  {
    if names[0] == name then 0 else 1 + IndexOf(names[1..], name)
  }

  /** The fingers a free draw chooses from: every fingertip but the thumb. */
  lemma FreeFingers()
    ensures Without(FingertipSiteNames, ThumbName) == FingertipSiteNames[..4]
  {
  }

  /**
   * The finger a free draw lands on: `np_random.choice` over the non-thumb fingertip names
   * (the random draw `draw` picks one of them), mapped back to its fingertip index.
   */
  function DrawnFinger(draw: nat): (f: nat)
    ensures f < |FingertipSiteNames| && f != Thumb
  {
    FreeFingers();
    var fingerNames := Without(FingertipSiteNames, ThumbName);
    IndexOf(FingertipSiteNames, fingerNames[draw % |fingerNames|])
  }

  /** Every non-thumb finger is drawn by some draw. */
  lemma DrawnFingerCovers(f: nat)
    requires f < |FingertipSiteNames| && f != Thumb
    ensures DrawnFinger(f) == f
  {
    FreeFingers();
    assert f % 4 == f;
  }

  /** The one-hot goal vector of length `n` with its 1 at `i`. */
  function OneHot(n: nat, i: nat): (v: seq<real>)
    requires i < n
    ensures |v| == n && v[i] == 1.0
    ensures forall j :: 0 <= j < n && j != i ==> v[j] == 0.0
  {
    seq(n, j => if j == i then 1.0 else 0.0)
  }

  /** `np.where(goal == 1)[0].item()` recovers the target finger from a one-hot goal. */
  lemma OneHotIndex(n: nat, i: nat, j: nat)
    requires i < n && j < n
    ensures OneHot(n, i)[j] == 1.0 <==> j == i
  {
  }

  class ShadowHandFreeReach {
    const forcedFinger: Option<nat>
    /**
     * The target of the last sampled goal; `None` stands for the `"none"` set before the
     * robot environment's initialisation samples the first goal.
     */
    var currentTargetFinger: Option<nat>

    constructor (forcedFinger: Option<nat>)
      ensures this.forcedFinger == forcedFinger && currentTargetFinger == None
    {
      this.forcedFinger := forcedFinger;
      currentTargetFinger := None;
    }

    /**
     * The whole construction: the assertion that a forced finger is a fingertip index or
     * `None`, the fields set above, and then the robot environment's own initialisation,
     * which samples the first goal (`draw` is the random choice it makes).
     */
    static method Create(forceFinger: Option<int>, draw: nat) returns (r: Result<ShadowHandFreeReach, HandError>)
      ensures r.Failure? <==> !ValidForcedFinger(forceFinger)
      ensures r.Failure? ==> r.error == ForcedFingerOutOfRange(forceFinger.value)
      ensures r.Success? ==> fresh(r.value)
      ensures r.Success? ==> (r.value.forcedFinger.Some? <==> forceFinger.Some?)
      ensures r.Success? && forceFinger.Some? ==>
                r.value.forcedFinger.value == forceFinger.value && r.value.currentTargetFinger == Some(forceFinger.value)
      ensures r.Success? && forceFinger.None? ==> r.value.currentTargetFinger == Some(DrawnFinger(draw))
    {
      if !ValidForcedFinger(forceFinger) {
        return Failure(ForcedFingerOutOfRange(forceFinger.value));
      }
      var forced: Option<nat> := if forceFinger.Some? then Some(forceFinger.value) else None;
      var env := new ShadowHandFreeReach(forced);
      var goal := env.SampleGoal(draw);
      return Success(env);
    }

    /**
     * `_sample_goal`: the forced finger when there is one, otherwise a randomly drawn
     * non-thumb finger; the choice becomes the current target and the goal is its one-hot
     * vector over the five fingertips.
     */
    method SampleGoal(draw: nat) returns (goal: array<real>)
      requires forcedFinger.Some? ==> forcedFinger.value < |FingertipSiteNames|
      modifies this
      ensures fresh(goal) && goal.Length == |FingertipSiteNames|
      ensures currentTargetFinger.Some? && currentTargetFinger.value < |FingertipSiteNames|
      ensures goal[..] == OneHot(|FingertipSiteNames|, currentTargetFinger.value)
      ensures forcedFinger.Some? ==> currentTargetFinger == forcedFinger
      ensures forcedFinger.None? ==> currentTargetFinger == Some(DrawnFinger(draw))
      ensures forcedFinger.None? ==> currentTargetFinger.value != Thumb
    {
      var fId: nat;
      if forcedFinger.None? {
        fId := DrawnFinger(draw);
      } else {
        fId := forcedFinger.value;
      }
      currentTargetFinger := Some(fId);
      goal := new real[|FingertipSiteNames|](_ => 0.0);
      goal[fId] := 1.0;
      assert goal[..] == OneHot(|FingertipSiteNames|, fId);
    }
  }

  // ---------------------------------------------------------------------------
  // Tapping sequences: the position in the goal sequence
  // ---------------------------------------------------------------------------

  /** The fingers to tap in turn. */
  const GoalSequence: seq<nat> := [0, 1, 2, 3, 2, 1, 0]

  /** One step's effect on the sequence position. */
  datatype Advance = Advance(position: nat, finished: bool)

  /**
   * The tapping `step` on the position: a success moves to the next element, and moving past
   * the last element ends the episode while the position stays on the last element.
   */
  function TappingAdvance(position: nat, success: bool, length: nat): (r: Advance)
    requires position < length
    ensures r.position < length
    ensures !success ==> r.position == position && !r.finished
    ensures success && position + 1 < length ==> r.position == position + 1 && !r.finished
    ensures r.finished <==> success && position == length - 1
  {
    var next := if success then position + 1 else position;
    Advance(if next < length - 1 then next else length - 1, next >= length)
  }

  /** The position after a run of steps with the given success flags. */
  function TappingRun(position: nat, successes: seq<bool>, length: nat): (p: nat)
    requires position < length
    ensures p < length
    decreases |successes|
  {
    if successes == [] then position
    else TappingRun(TappingAdvance(position, successes[0], length).position, successes[1..], length)
  }

  /** Consecutive successes from position `p` walk the sequence one element at a time. */
  lemma {:induction false} TappingRunSuccesses(p: nat, k: nat, length: nat)
    requires p + k < length
    ensures TappingRun(p, seq(k, _ => true), length) == p + k
    decreases k
  {
    if k > 0 {
      assert seq(k, _ => true)[1..] == seq(k - 1, _ => true);
      TappingRunSuccesses(p + 1, k - 1, length);
    }
  }

  /** After a reset, six successes reach the last tap, and the seventh finishes the episode. */
  lemma TappingCompletes()
    ensures TappingRun(0, seq(6, _ => true), |GoalSequence|) == |GoalSequence| - 1
    ensures TappingAdvance(|GoalSequence| - 1, true, |GoalSequence|).finished
  {
    TappingRunSuccesses(0, 6, |GoalSequence|);
  }

  /** The previous target, or the first one at the start of the sequence. */
  function LastGoal(goals: seq<nat>, position: nat): (g: nat)
    requires position < |goals|
    ensures position > 0 ==> g == goals[position - 1]
    ensures position == 0 ==> g == goals[0]
  {
    if position > 0 then goals[position - 1] else goals[0]
  }

  /** Whether finger `i` is left out of the distance bonus: the thumb, the target and the last target. */
  predicate Excluded(i: nat, current: nat, last: nat)
  {
    i < |FingertipSiteNames| && (FingertipSiteNames[i] == ThumbName || i == current || i == last)
  }

  /** The sum of the distances to the first `n` fingers that earn the distance bonus. */
  function BonusDistance(distances: seq<real>, current: nat, last: nat, n: nat): real
    requires n <= |distances| && n <= |FingertipSiteNames|
  {
    if n == 0 then 0.0
    else BonusDistance(distances, current, last, n - 1) + (if Excluded(n - 1, current, last) then 0.0 else distances[n - 1])
  }

  /** The bonus does not depend on the distances to the thumb, the target or the last target. */
  lemma {:induction false} BonusIgnoresExcluded(d1: seq<real>, d2: seq<real>, current: nat, last: nat, n: nat)
    requires n <= |d1| && n <= |d2| && n <= |FingertipSiteNames|
    requires forall i :: 0 <= i < n && !Excluded(i, current, last) ==> d1[i] == d2[i]
    ensures BonusDistance(d1, current, last, n) == BonusDistance(d2, current, last, n)
  {
    if n > 0 {
      BonusIgnoresExcluded(d1, d2, current, last, n - 1);
    }
  }

  /** The bonus grows with the distance to every finger that is not excluded. */
  lemma {:induction false} BonusCountsOthers(distances: seq<real>, current: nat, last: nat, i: nat, delta: real, n: nat)
    requires i < n <= |distances| && n <= |FingertipSiteNames| && !Excluded(i, current, last)
    ensures BonusDistance(distances[i := distances[i] + delta], current, last, n)
         == BonusDistance(distances, current, last, n) + delta
  {
    var d := distances[i := distances[i] + delta];
    if i < n - 1 {
      BonusCountsOthers(distances, current, last, i, delta, n - 1);
    } else {
      BonusIgnoresExcluded(d, distances, current, last, n - 1);
    }
  }

  class ShadowHandTappingSequence {
    const goalSequence: seq<nat>
    const successMultiplier: real
    var currentSequencePosition: nat

    ghost predicate Valid()
      reads this
    {
      goalSequence == GoalSequence && currentSequencePosition < |goalSequence|
    }

    constructor (successMultiplier: real)
      ensures goalSequence == GoalSequence && this.successMultiplier == successMultiplier
      ensures currentSequencePosition == 0 && Valid()
    {
      goalSequence := GoalSequence;
      this.successMultiplier := successMultiplier;
      currentSequencePosition := 0;
    }

    /**
     * `compute_reward`: minus the distance from the thumb to the target, the success bonus,
     * a fifth of the distance to every other finger except the last target, and a constant
     * punishment of 0.1. `distances[i]` is the thumb's distance to fingertip `i`.
     */
    method ComputeReward(distances: seq<real>, success: bool) returns (reward: real)
      requires Valid() && |distances| == |FingertipSiteNames|
      ensures var current := goalSequence[currentSequencePosition];
              reward == - distances[current] + (if success then successMultiplier else 0.0)
                        + 0.2 * BonusDistance(distances, current, LastGoal(goalSequence, currentSequencePosition), |distances|)
                        - 0.1
    {
      var current := goalSequence[currentSequencePosition];
      var last := goalSequence[0];
      if currentSequencePosition > 0 {
        last := goalSequence[currentSequencePosition - 1];
      }
      var base := - distances[current] + (if success then successMultiplier else 0.0);
      reward := base;
      for i := 0 to |FingertipSiteNames|
        invariant reward == base + 0.2 * BonusDistance(distances, current, last, i)
      {
        if FingertipSiteNames[i] == ThumbName || i == current || i == last {
          continue;
        }
        reward := reward + 0.2 * distances[i];
      }
      reward := reward - 0.1;
    }

    /** `step`: advance on success, clamp the position, and end the episode past the last tap. */
    method Step(parentDone: bool, success: bool) returns (done: bool)
      requires Valid()
      modifies this
      ensures Valid()
      ensures var a := TappingAdvance(old(currentSequencePosition), success, |goalSequence|);
              currentSequencePosition == a.position && (done <==> parentDone || a.finished)
    {
      done := parentDone;
      var position := currentSequencePosition;
      if success {
        position := position + 1;
      }
      if position >= |goalSequence| {
        done := true;
      }
      currentSequencePosition := if position < |goalSequence| - 1 then position else |goalSequence| - 1;
    }

    method Reset()
      requires Valid()
      modifies this
      ensures currentSequencePosition == 0 && Valid()
    {
      currentSequencePosition := 0;
    }
  }

  // ---------------------------------------------------------------------------
  // Delayed tapping: rest on each target before moving on
  // ---------------------------------------------------------------------------

  datatype DelayedState = DelayedState(position: nat, stepsOnTarget: nat)

  /**
   * The delayed tapping `step` on its state: a success while still resting only counts the
   * resting step; a success after resting long enough advances the position like the tapping
   * task and restarts the count; no success changes nothing.
   */
  function DelayedAdvance(s: DelayedState, success: bool, length: nat, restingDuration: int): (r: (DelayedState, bool))
    requires s.position < length
    ensures r.0.position < length
    ensures !success ==> r.0 == s && !r.1
    ensures success && s.stepsOnTarget < restingDuration ==>
              r.0 == DelayedState(s.position, s.stepsOnTarget + 1) && !r.1
    ensures success && s.stepsOnTarget >= restingDuration ==>
              var a := TappingAdvance(s.position, true, length);
              r.0 == DelayedState(a.position, 0) && r.1 == a.finished
    ensures s.stepsOnTarget <= MaxRest(restingDuration) ==> r.0.stepsOnTarget <= MaxRest(restingDuration)
  {
    var position := if success && s.stepsOnTarget >= restingDuration then s.position + 1 else s.position;
    var steps := if !success then s.stepsOnTarget
                 else if s.stepsOnTarget < restingDuration then s.stepsOnTarget + 1
                 else 0;
    (DelayedState(if position < length - 1 then position else length - 1, steps), position >= length)
  }

  /** The largest resting count the delayed task can reach. */
  function MaxRest(restingDuration: int): nat
  {
    if restingDuration < 0 then 0 else restingDuration
  }

  /** The state after a run of steps with the given success flags. */
  function DelayedRun(s: DelayedState, successes: seq<bool>, length: nat, restingDuration: int): (r: DelayedState)
    requires s.position < length
    ensures r.position < length
    decreases |successes|
  {
    if successes == [] then s
    else DelayedRun(DelayedAdvance(s, successes[0], length, restingDuration).0, successes[1..], length, restingDuration)
  }

  /** `k` successes while resting only count up, as long as the count stays within the resting period. */
  lemma {:induction false} DelayedRests(s: DelayedState, k: nat, length: nat, restingDuration: int)
    requires s.position < length && s.stepsOnTarget + k <= restingDuration
    ensures DelayedRun(s, seq(k, _ => true), length, restingDuration) == DelayedState(s.position, s.stepsOnTarget + k)
    decreases k
  {
    if k > 0 {
      assert seq(k, _ => true)[1..] == seq(k - 1, _ => true);
      DelayedRests(DelayedState(s.position, s.stepsOnTarget + 1), k - 1, length, restingDuration);
    }
  }

  /**
   * From a fresh target, it takes `restingDuration + 1` consecutive successes to move to the
   * next element of the sequence, and the count starts over there.
   */
  lemma DelayedMovesAfterResting(position: nat, length: nat, restingDuration: nat)
    requires position + 1 < length
    ensures DelayedRun(DelayedState(position, 0), seq(restingDuration + 1, _ => true), length, restingDuration)
         == DelayedState(position + 1, 0)
  {
    var s := DelayedState(position, 0);
    var all := seq(restingDuration + 1, _ => true);
    var rest := seq(restingDuration, _ => true);
    assert all == rest + [true];
    DelayedRunAppend(s, rest, [true], length, restingDuration);
    DelayedRests(s, restingDuration, length, restingDuration);
  }

  lemma {:induction false} DelayedRunAppend(s: DelayedState, a: seq<bool>, b: seq<bool>, length: nat, restingDuration: int)
    requires s.position < length
    ensures DelayedRun(s, a + b, length, restingDuration)
         == DelayedRun(DelayedRun(s, a, length, restingDuration), b, length, restingDuration)
    decreases |a|
  {
    if a != [] {
      assert (a + b)[1..] == a[1..] + b;
      DelayedRunAppend(DelayedAdvance(s, a[0], length, restingDuration).0, a[1..], b, length, restingDuration);
    } else {
      assert a + b == b;
    }
  }

  class ShadowHandDelayedTappingSequence {
    const goalSequence: seq<nat>
    const restingDuration: int
    var currentSequencePosition: nat
    var stepsOnTarget: nat

    ghost predicate Valid()
      reads this
    {
      goalSequence == GoalSequence && currentSequencePosition < |goalSequence|
      && stepsOnTarget <= MaxRest(restingDuration)
    }

    constructor (restingDuration: int)
      ensures goalSequence == GoalSequence && this.restingDuration == restingDuration
      ensures currentSequencePosition == 0 && stepsOnTarget == 0 && Valid()
    {
      goalSequence := GoalSequence;
      this.restingDuration := restingDuration;
      currentSequencePosition := 0;
      stepsOnTarget := 0;
    }

    /** The delayed `step`; it bypasses the tapping task's own `step`. */
    method Step(parentDone: bool, success: bool) returns (done: bool)
      requires Valid()
      modifies this
      ensures Valid()
      ensures var a := DelayedAdvance(old(DelayedState(currentSequencePosition, stepsOnTarget)), success,
                                      |goalSequence|, restingDuration);
              DelayedState(currentSequencePosition, stepsOnTarget) == a.0 && (done <==> parentDone || a.1)
    {
      done := parentDone;
      if success {
        if stepsOnTarget < restingDuration {
          stepsOnTarget := stepsOnTarget + 1;
        } else {
          currentSequencePosition := currentSequencePosition + 1;
          stepsOnTarget := 0;
        }
      }
      if currentSequencePosition >= |goalSequence| {
        done := true;
      }
      currentSequencePosition := if currentSequencePosition < |goalSequence| - 1 then currentSequencePosition
                                 else |goalSequence| - 1;
    }

    /** The inherited tapping `reset`: only the position starts over, the resting count carries on. */
    method Reset()
      requires Valid()
      modifies this
      ensures currentSequencePosition == 0 && stepsOnTarget == old(stepsOnTarget) && Valid()
    {
      currentSequencePosition := 0;
    }
  }
}
