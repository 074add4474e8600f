/**
 * Fixed-point records and the post-processing applied to them by LSTM/fixedpointfinder.py:
 * the split into good and bad approximations against the speed threshold, the
 * deduplication by rounded location (`np.unique(..., axis=0, return_index=True)`),
 * and the split of an LSTM state into its hidden and cell halves.
 */
module FixedPointRecords {
  import opened Wrappers
  import opened LexOrder
  import opened Sequences

  /** A point of the recurrent layer's state space (a row of a NumPy array). */
  type Location = seq<real>

  type Matrix = seq<seq<real>>

  /**
   * A fixed-point record: the dictionary with keys 'fun', 'x', 'x_init' and 'input_init';
   * `jac` is None until the key 'jac' is added.
   */
  datatype FixedPoint = FixedPoint(fun: real, x: Location, xInit: Location, inputInit: Location, jac: Option<Matrix>)

  /** The exceptions the fixed-point finder raises. */
  datatype FinderError =
    | UnknownRnnType(tag: string)                 // ValueError from the constructor
    | NegativeNoiseScale                          // ValueError from _add_gaussian_noise
    | EmptyActivationPool                         // ValueError from randint on an empty pool
    | NothingToStack                              // ValueError from np.vstack([]) (deduplication, sample_states)
    | UnknownOptimisationMethod(name: string)     // ValueError from Adamfixedpointfinder.find_fixed_points
    | UnboundObjective                            // UnboundLocalError: sequential loop never ran

  // ---------------------------------------------------------------------------
  // Rounding to d decimals (ndarray.round, half to even)
  // ---------------------------------------------------------------------------

  function Pow10(n: nat): (r: nat)
    ensures r >= 1
  {
    if n == 0 then 1 else 10 * Pow10(n - 1)
  }

  /** The factor 10^d; `d` may be negative, which rounds to tens, hundreds, ... */
  function Scale(d: int): (s: real)
    ensures s > 0.0
  {
    if d >= 0 then Pow10(d) as real else 1.0 / (Pow10(-d) as real)
  }

  /** Nearest integer, ties to the even neighbour (NumPy's `rint`). */
  function RoundHalfEven(y: real): (n: int)
    ensures y - 0.5 <= n as real <= y + 0.5
    ensures (n as real - y == 0.5 || y - n as real == 0.5) ==> n % 2 == 0
  {
    var f := y.Floor;
    if y - f as real < 0.5 then f
    else if y - f as real > 0.5 then f + 1
    else if f % 2 == 0 then f
    else f + 1
  }

  /** `v` rounded to the nearest multiple of `1/s`. */
  function RoundAt(v: real, s: real): real
    requires s > 0.0
  {
    RoundHalfEven(v * s) as real / s
  }

  /** `RoundAt` lands on an integral number of steps, at most half a step away from `v`. */
  lemma RoundAtSpec(v: real, s: real)
    requires s > 0.0
    ensures RoundAt(v, s) * s == (RoundAt(v, s) * s).Floor as real
    ensures (RoundAt(v, s) - v) * s <= 0.5 && (v - RoundAt(v, s)) * s <= 0.5
  {
    var n := RoundHalfEven(v * s);
    var r := RoundAt(v, s);
    assert r == n as real / s;
    RoundStepIntegral(n, s);
    RoundStepDistance(n, v, s);
    var m := r * s;
    assert m == n as real;
    assert m.Floor == n;
    assert m == m.Floor as real;
    assert RoundAt(v, s) * s == m;
  }

  /** One coordinate rounded to `d` decimals (`RoundAt` with step 10^-d). */
  function RoundValue(v: real, d: int): (r: real)
  {
    RoundAt(v, Scale(d))
  }

  lemma RoundStepIntegral(n: int, s: real)
    requires s > 0.0
    ensures (n as real / s) * s == n as real
  {
  }

  lemma RoundStepDistance(n: int, v: real, s: real)
    requires s > 0.0 && v * s - 0.5 <= n as real <= v * s + 0.5
    ensures (n as real / s - v) * s <= 0.5 && (v - n as real / s) * s <= 0.5
  {
    var r := n as real / s;
    assert r * s == n as real;
    assert (r - v) * s == r * s - v * s;
    assert (v - r) * s == v * s - r * s;
  }

  function RoundLocation(x: Location, d: int): (r: Location)
    ensures |r| == |x|
  {
    seq(|x|, i requires 0 <= i < |x| => RoundValue(x[i], d))
  }

  /** The deduplication key of a record: its location rounded to `d` decimals. */
  function Key(fp: FixedPoint, d: int): Location
  {
    RoundLocation(fp.x, d)
  }

  function KeysOf(s: seq<FixedPoint>, d: int): set<Location>
  {
    set fp | fp in s :: Key(fp, d)
  }

  // ---------------------------------------------------------------------------
  // Good and bad approximations (_handle_bad_approximations)
  // ---------------------------------------------------------------------------

  /** The records whose speed does not exceed the threshold, in input order. */
  function Good(fps: seq<FixedPoint>, q: real): (r: seq<FixedPoint>)
    ensures |r| <= |fps|
  {
    if fps == [] then []
    else
      var last := fps[|fps| - 1];
      assert fps == fps[..|fps| - 1] + [last];
      Good(fps[..|fps| - 1], q) + (if last.fun > q then [] else [last])
  }

  /** The records whose speed exceeds the threshold, in input order. */
  function Bad(fps: seq<FixedPoint>, q: real): (r: seq<FixedPoint>)
    ensures |r| <= |fps|
  {
    if fps == [] then []
    else
      var last := fps[|fps| - 1];
      assert fps == fps[..|fps| - 1] + [last];
      Bad(fps[..|fps| - 1], q) + (if last.fun > q then [last] else [])
  }

  /** A record is good exactly when it is an input record within the threshold, bad exactly when above it. */
  lemma {:induction false} PartitionMembers(fps: seq<FixedPoint>, q: real)
    ensures forall fp :: fp in Good(fps, q) <==> fp in fps && fp.fun <= q
    ensures forall fp :: fp in Bad(fps, q) <==> fp in fps && fp.fun > q
  {
    if fps != [] {
      var init, last := fps[..|fps| - 1], fps[|fps| - 1];
      PartitionMembers(init, q);
      assert fps == init + [last];
      GoodSnoc(init, last, q);
      BadSnoc(init, last, q);
    }
  }

  /** Good and bad together hold every input record exactly once. */
  lemma {:induction false} PartitionComplete(fps: seq<FixedPoint>, q: real)
    ensures multiset(Good(fps, q)) + multiset(Bad(fps, q)) == multiset(fps)
    ensures |Good(fps, q)| + |Bad(fps, q)| == |fps|
  {
    PartitionMultiset(fps, q);
    assert |multiset(Good(fps, q)) + multiset(Bad(fps, q))| == |multiset(fps)|;
  }

  lemma {:induction false} PartitionMultiset(fps: seq<FixedPoint>, q: real)
    ensures multiset(Good(fps, q)) + multiset(Bad(fps, q)) == multiset(fps)
  {
    if fps != [] {
      var init, last := fps[..|fps| - 1], fps[|fps| - 1];
      PartitionMultiset(init, q);
      assert fps == init + [last];
      GoodSnoc(init, last, q);
      BadSnoc(init, last, q);
      MultisetSnocSplit(Good(init, q), Bad(init, q), init, last, last.fun <= q);
    }
  }

  /** One more record is kept by `Good` exactly when its speed is within the threshold. */
  lemma GoodSnoc(s: seq<FixedPoint>, x: FixedPoint, q: real)
    ensures Good(s + [x], q) == Good(s, q) + (if x.fun > q then [] else [x])
  {
    assert (s + [x])[..|s|] == s;
  }

  /** One more record is kept by `Bad` exactly when its speed exceeds the threshold. */
  lemma BadSnoc(s: seq<FixedPoint>, x: FixedPoint, q: real)
    ensures Bad(s + [x], q) == Bad(s, q) + (if x.fun > q then [x] else [])
  {
    assert (s + [x])[..|s|] == s;
  }

  /** Filtering keeps input order: the split of a concatenation is the concatenation of the splits. */
  lemma PartitionKeepsOrder(a: seq<FixedPoint>, b: seq<FixedPoint>, q: real)
    ensures Good(a + b, q) == Good(a, q) + Good(b, q)
    ensures Bad(a + b, q) == Bad(a, q) + Bad(b, q)
  {
    GoodAppend(a, b, q);
    BadAppend(a, b, q);
  }

  lemma {:induction false} GoodAppend(a: seq<FixedPoint>, b: seq<FixedPoint>, q: real)
    ensures Good(a + b, q) == Good(a, q) + Good(b, q)
  {
    if b == [] {
      assert a + b == a;
    } else {
      var init, last := b[..|b| - 1], b[|b| - 1];
      GoodAppend(a, init, q);
      assert b == init + [last] && a + b == (a + init) + [last];
      GoodSnoc(a + init, last, q);
      GoodSnoc(init, last, q);
      var tail := if last.fun > q then [] else [last];
      AppendAssoc(Good(a, q), Good(init, q), tail);
    }
  }

  lemma {:induction false} BadAppend(a: seq<FixedPoint>, b: seq<FixedPoint>, q: real)
    ensures Bad(a + b, q) == Bad(a, q) + Bad(b, q)
  {
    if b == [] {
      assert a + b == a;
    } else {
      var init, last := b[..|b| - 1], b[|b| - 1];
      BadAppend(a, init, q);
      assert b == init + [last] && a + b == (a + init) + [last];
      BadSnoc(a + init, last, q);
      BadSnoc(init, last, q);
      var tail := if last.fun > q then [last] else [];
      AppendAssoc(Bad(a, q), Bad(init, q), tail);
    }
  }

  // ---------------------------------------------------------------------------
  // Deduplication (_find_unique_fixed_points)
  // ---------------------------------------------------------------------------

  /** Index of the first record whose key is `k`. */
  function FirstIndex(s: seq<FixedPoint>, k: Location, d: int): (i: nat)
    requires k in KeysOf(s, d)
    ensures i < |s| && Key(s[i], d) == k
    ensures forall j :: 0 <= j < i ==> Key(s[j], d) != k
  {
    KeysOfCons(s, d);
    if Key(s[0], d) == k then 0 else 1 + FirstIndex(s[1..], k, d)
  }

  lemma KeysOfCons(s: seq<FixedPoint>, d: int)
    requires |s| > 0
    ensures KeysOf(s, d) == {Key(s[0], d)} + KeysOf(s[1..], d)
  {
    assert s == [s[0]] + s[1..];
  }

  lemma KeysOfAppend(a: seq<FixedPoint>, b: seq<FixedPoint>, d: int)
    ensures KeysOf(a + b, d) == KeysOf(a, d) + KeysOf(b, d)
  {
  }

  /** The first record of `s` whose key is `k`: the one `return_index` points to. */
  function FirstOf(s: seq<FixedPoint>, k: Location, d: int): (fp: FixedPoint)
    requires k in KeysOf(s, d)
    ensures fp == s[FirstIndex(s, k, d)]
  {
    KeysOfCons(s, d);
    if Key(s[0], d) == k then s[0] else FirstOf(s[1..], k, d)
  }

  /** The smallest key of a non-empty sequence of records. */
  function MinKey(s: seq<FixedPoint>, d: int): (k: Location)
    requires |s| > 0
    ensures k in KeysOf(s, d)
    ensures forall fp | fp in s :: !LexLess(Key(fp, d), k)
  {
    if |s| == 1 then
      LexIrreflexive(Key(s[0], d));
      Key(s[0], d)
    else
      var rest := MinKey(s[1..], d);
      assert s == [s[0]] + s[1..];
      var k0 := Key(s[0], d);
      if LexLess(rest, k0) then
        LexAsymmetric(rest, k0);
        rest
      else
        assert forall fp | fp in s :: !LexLess(Key(fp, d), k0) by {
          forall fp | fp in s ensures !LexLess(Key(fp, d), k0) {
            if fp != s[0] && LexLess(Key(fp, d), k0) {
              if rest != k0 {
                LexTotal(rest, k0);
                LexTransitive(Key(fp, d), k0, rest);
              }
            }
            LexIrreflexive(k0);
          }
        }
        k0
  }

  /** The records whose key is not `k`, in order. */
  function RemoveKey(s: seq<FixedPoint>, k: Location, d: int): (r: seq<FixedPoint>)
    ensures |r| <= |s|
    ensures k in KeysOf(s, d) ==> |r| < |s|
    ensures forall fp :: fp in r <==> fp in s && Key(fp, d) != k
  {
    if s == [] then []
    else
      assert s == [s[0]] + s[1..];
      (if Key(s[0], d) == k then [] else [s[0]]) + RemoveKey(s[1..], k, d)
  }

  lemma {:induction false} RemoveKeyKeys(s: seq<FixedPoint>, k: Location, d: int)
    ensures KeysOf(RemoveKey(s, k, d), d) == KeysOf(s, d) - {k}
  {
  }

  /** Removing one key does not change which record comes first for any other key. */
  lemma {:induction false} RemoveKeyFirstOf(s: seq<FixedPoint>, k: Location, k': Location, d: int)
    requires k' in KeysOf(s, d) && k' != k
    ensures k' in KeysOf(RemoveKey(s, k, d), d)
    ensures FirstOf(RemoveKey(s, k, d), k', d) == FirstOf(s, k', d)
  {
    RemoveKeyKeys(s, k, d);
    KeysOfCons(s, d);
    var r, r' := RemoveKey(s, k, d), RemoveKey(s[1..], k, d);
    if Key(s[0], d) == k' {
      assert r == [s[0]] + r';
      assert FirstOf(r, k', d) == s[0];
    } else {
      RemoveKeyFirstOf(s[1..], k, k', d);
      if Key(s[0], d) == k {
        assert r == r';
      } else {
        assert r == [s[0]] + r';
        KeysOfCons(r, d);
        assert r[1..] == r';
      }
    }
  }

  /**
   * The records `np.unique` keeps: one per distinct rounded location, the first occurrence
   * of that location, ordered by ascending rounded location.
   */
  function UniqueSorted(s: seq<FixedPoint>, d: int): (r: seq<FixedPoint>)
    ensures |r| <= |s|
    ensures |s| > 0 ==> |r| > 0
    decreases |s|
  {
    if |s| == 0 then []
    else
      var k := MinKey(s, d);
      [FirstOf(s, k, d)] + UniqueSorted(RemoveKey(s, k, d), d)
  }

  /** Keys strictly ascending: in particular no two records share a rounded location. */
  ghost predicate StrictlySorted(s: seq<FixedPoint>, d: int)
  {
    forall i, j :: 0 <= i < j < |s| ==> LexLess(Key(s[i], d), Key(s[j], d))
  }

  /** Every rounded location of the input is represented, and no other. */
  lemma {:induction false} UniqueSortedKeys(s: seq<FixedPoint>, d: int)
    ensures KeysOf(UniqueSorted(s, d), d) == KeysOf(s, d)
    decreases |s|
  {
    if |s| > 0 {
      var k := MinKey(s, d);
      var rest := RemoveKey(s, k, d);
      UniqueSortedKeys(rest, d);
      RemoveKeyKeys(s, k, d);
      var m := FirstOf(s, k, d);
      assert UniqueSorted(s, d) == [m] + UniqueSorted(rest, d);
      KeysOfPrepend(m, UniqueSorted(rest, d), d);
      SetRestore(KeysOf(s, d), k);
    }
  }

  lemma KeysOfPrepend(m: FixedPoint, t: seq<FixedPoint>, d: int)
    ensures KeysOf([m] + t, d) == {Key(m, d)} + KeysOf(t, d)
  {
    KeysOfCons([m] + t, d);
    assert ([m] + t)[1..] == t;
  }

  lemma SetRestore<T>(a: set<T>, k: T)
    requires k in a
    ensures {k} + (a - {k}) == a
  {
  }

  /** The output is ordered by strictly ascending rounded location. */
  lemma {:induction false} UniqueSortedAscending(s: seq<FixedPoint>, d: int)
    ensures StrictlySorted(UniqueSorted(s, d), d)
    decreases |s|
  {
    if |s| > 0 {
      var k := MinKey(s, d);
      var rest := RemoveKey(s, k, d);
      var tail := UniqueSorted(rest, d);
      UniqueSortedAscending(rest, d);
      UniqueSortedKeys(rest, d);
      RemoveKeyKeys(s, k, d);
      var u := UniqueSorted(s, d);
      assert u == [FirstOf(s, k, d)] + tail;
      forall j | 0 < j < |u| ensures LexLess(Key(u[0], d), Key(u[j], d)) {
        var kj := Key(u[j], d);
        assert u[j] == tail[j - 1];
        assert kj in KeysOf(tail, d);
        var fp :| fp in s && Key(fp, d) == kj;
        LexTotal(k, kj);
      }
    }
  }

  /** Each kept record is the first input record with its rounded location. */
  lemma {:induction false} UniqueSortedFirstOccurrences(s: seq<FixedPoint>, d: int)
    ensures forall i :: 0 <= i < |UniqueSorted(s, d)| ==>
              Key(UniqueSorted(s, d)[i], d) in KeysOf(s, d) &&
              UniqueSorted(s, d)[i] == FirstOf(s, Key(UniqueSorted(s, d)[i], d), d)
    decreases |s|
  {
    if |s| > 0 {
      var k := MinKey(s, d);
      var rest := RemoveKey(s, k, d);
      var tail := UniqueSorted(rest, d);
      UniqueSortedFirstOccurrences(rest, d);
      RemoveKeyKeys(s, k, d);
      var u := UniqueSorted(s, d);
      assert u == [FirstOf(s, k, d)] + tail;
      forall i | 0 < i < |u| ensures Key(u[i], d) in KeysOf(s, d) && u[i] == FirstOf(s, Key(u[i], d), d) {
        assert u[i] == tail[i - 1];
        RemoveKeyFirstOf(s, k, Key(u[i], d), d);
      }
    }
  }

  /** A sequence already free of duplicates and in ascending order is left as it is. */
  lemma {:induction false} UniqueSortedOfSorted(s: seq<FixedPoint>, d: int)
    requires StrictlySorted(s, d)
    ensures UniqueSorted(s, d) == s
    decreases |s|
  {
    if |s| > 0 {
      var k := MinKey(s, d);
      SortedHead(s, d);
      SortedTail(s, d);
      assert UniqueSorted(s, d) == [s[0]] + UniqueSorted(s[1..], d);
      UniqueSortedOfSorted(s[1..], d);
      assert s == [s[0]] + s[1..];
    }
  }

  /** In a strictly sorted sequence the first record holds the least key, and only it. */
  lemma SortedHead(s: seq<FixedPoint>, d: int)
    requires |s| > 0 && StrictlySorted(s, d)
    ensures MinKey(s, d) == Key(s[0], d) && FirstOf(s, Key(s[0], d), d) == s[0]
    ensures forall i :: 0 < i < |s| ==> Key(s[i], d) != Key(s[0], d)
  {
    var k, k0 := MinKey(s, d), Key(s[0], d);
    LexIrreflexive(k0);
    var i :| 0 <= i < |s| && Key(s[i], d) == k;
    assert !LexLess(k0, k);
    if i > 0 {
      assert false;
    }
  }

  /** Removing the least key of a strictly sorted sequence drops its head, leaving it sorted. */
  lemma SortedTail(s: seq<FixedPoint>, d: int)
    requires |s| > 0 && StrictlySorted(s, d)
    ensures RemoveKey(s, Key(s[0], d), d) == s[1..]
    ensures StrictlySorted(s[1..], d)
  {
    SortedHead(s, d);
    SortedTailKeys(s, d);
    RemoveKeyUnchanged(s[1..], Key(s[0], d), d);
    SortedDropFirst(s, d);
  }

  lemma SortedDropFirst(s: seq<FixedPoint>, d: int)
    requires |s| > 0 && StrictlySorted(s, d)
    ensures StrictlySorted(s[1..], d)
  {
    forall i, j | 0 <= i < j < |s[1..]| ensures LexLess(Key(s[1..][i], d), Key(s[1..][j], d)) {
      assert s[1..][i] == s[i + 1] && s[1..][j] == s[j + 1];
    }
  }

  lemma SortedTailKeys(s: seq<FixedPoint>, d: int)
    requires |s| > 0 && forall i :: 0 < i < |s| ==> Key(s[i], d) != Key(s[0], d)
    ensures forall i :: 0 <= i < |s[1..]| ==> Key(s[1..][i], d) != Key(s[0], d)
  {
    forall i | 0 <= i < |s[1..]| ensures Key(s[1..][i], d) != Key(s[0], d) {
      assert s[1..][i] == s[i + 1];
    }
  }

  lemma {:induction false} RemoveKeyUnchanged(s: seq<FixedPoint>, k: Location, d: int)
    requires forall i :: 0 <= i < |s| ==> Key(s[i], d) != k
    ensures RemoveKey(s, k, d) == s
  {
    if s != [] {
      RemoveKeyUnchanged(s[1..], k, d);
      assert s == [s[0]] + s[1..];
    }
  }

  /**
   * `_find_unique_fixed_points`: stacking the locations fails on an empty list; otherwise
   * the records `np.unique(..., return_index=True)` selects.
   */
  function UniqueFixedPoints(fps: seq<FixedPoint>, d: int): (r: Result<seq<FixedPoint>, FinderError>)
    ensures r.Failure? <==> fps == []
    ensures r.Failure? ==> r.error == NothingToStack
    ensures r.Success? ==> 0 < |r.value| <= |fps|
  {
    if fps == [] then Failure(NothingToStack) else Success(UniqueSorted(fps, d))
  }

  /** Running the deduplication on its own output returns the same list. */
  lemma UniqueFixedPointsIdempotent(fps: seq<FixedPoint>, d: int)
    requires UniqueFixedPoints(fps, d).Success?
    ensures UniqueFixedPoints(UniqueFixedPoints(fps, d).value, d) == UniqueFixedPoints(fps, d)
  {
    UniqueSortedAscending(fps, d);
    UniqueSortedOfSorted(UniqueSorted(fps, d), d);
  }

  // ---------------------------------------------------------------------------
  // LSTM state split (_compute_jacobian)
  // ---------------------------------------------------------------------------

  /** `x[:n_hidden], x[n_hidden:]`, with Python's clamping of a slice bound past the end. */
  function SplitHiddenCell(x: Location, nHidden: nat): (hc: (Location, Location))
    ensures hc.0 + hc.1 == x
    ensures |hc.0| == if nHidden <= |x| then nHidden else |x|
  {
    var n := if nHidden <= |x| then nHidden else |x|;
    (x[..n], x[n..])
  }
}
