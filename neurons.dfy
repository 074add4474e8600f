/**
 * `classify_neurons` of fixedpointfinder/fixedpoint_example.py: sorts the neurons of a dense
 * output layer into three buckets, one per output (`number_one`, `number_two`,
 * `number_three`), by whether the neuron's weight to that output exceeds a threshold in
 * absolute value.
 */
module FixedPointExample {

  /** The neurons of one bucket: the weight row of each, and its position among the rows. */
  datatype Bucket = Bucket(weights: seq<seq<real>>, index: seq<nat>)

  /** The number of buckets: `number_one`, `number_two` and `number_three`. */
  const BucketCount := 3

  /** `np.abs` on one entry. */
  function Abs(x: real): (r: real)
    ensures r >= 0.0 && (r == x || r == -x)
  {
    if x < 0.0 then -x else x
  }

  /** The test `classify_neurons` applies: a strictly bigger absolute weight to output `j`. */
  predicate Big(row: seq<real>, j: nat, threshold: real)
  {
    j < |row| && Abs(row[j]) > threshold
  }

  /** The `j`-th bucket after the first `|rows|` rows have been classified. */
  function BucketOf(rows: seq<seq<real>>, threshold: real, j: nat): (b: Bucket)
    ensures |b.weights| == |b.index|
    ensures forall m :: 0 <= m < |b.index| ==> b.index[m] < |rows|
  {
    if rows == [] then Bucket([], [])
    else
      var prev := BucketOf(rows[..|rows| - 1], threshold, j);
      if Big(rows[|rows| - 1], j, threshold) then
        Bucket(prev.weights + [rows[|rows| - 1]], prev.index + [|rows| - 1])
      else prev
  }

  /** Neuron `k` is in bucket `j` exactly when its weight to output `j` is big. */
  lemma {:induction false} BucketMembership(rows: seq<seq<real>>, threshold: real, j: nat, k: nat)
    ensures k in BucketOf(rows, threshold, j).index <==> k < |rows| && Big(rows[k], j, threshold)
  {
    if rows != [] {
      BucketMembership(rows[..|rows| - 1], threshold, j, k);
    }
  }

  /** A bucket lists its neurons in increasing order, each once, each with its own row. */
  lemma {:induction false} BucketOrdered(rows: seq<seq<real>>, threshold: real, j: nat)
    ensures forall m, n :: 0 <= m < n < |BucketOf(rows, threshold, j).index| ==>
              BucketOf(rows, threshold, j).index[m] < BucketOf(rows, threshold, j).index[n]
    ensures forall m :: 0 <= m < |BucketOf(rows, threshold, j).index| ==>
              BucketOf(rows, threshold, j).weights[m] == rows[BucketOf(rows, threshold, j).index[m]]
  {
    if rows != [] {
      var init := rows[..|rows| - 1];
      BucketOrdered(init, threshold, j);
      var prev := BucketOf(init, threshold, j);
      var b := BucketOf(rows, threshold, j);
      var last := rows[|rows| - 1];
      assert b == if Big(last, j, threshold) then Bucket(prev.weights + [last], prev.index + [|init|]) else prev;
      forall m | 0 <= m < |prev.index|
        ensures b.index[m] == prev.index[m] < |init| && b.weights[m] == rows[b.index[m]]
      {
        assert b.weights[m] == prev.weights[m] == init[prev.index[m]];
        assert rows[prev.index[m]] == init[prev.index[m]];
      }
    }
  }

  /** The buckets `classify_neurons` returns, in the order `number_one`, `number_two`, `number_three`. */
  function Classified(rows: seq<seq<real>>, threshold: real): (buckets: seq<Bucket>)
    ensures |buckets| == BucketCount
  {
    [BucketOf(rows, threshold, 0), BucketOf(rows, threshold, 1), BucketOf(rows, threshold, 2)]
  }

  /**
   * What the buckets say about the weights: a neuron is in bucket `j` exactly when its weight
   * to output `j` exceeds the threshold in absolute value, whatever its other weights (so one
   * neuron may be in several buckets, and weights to outputs from the fourth on are ignored).
   */
  lemma ClassifiedMembership(rows: seq<seq<real>>, threshold: real, j: nat, k: nat)
    requires j < BucketCount
    ensures k in Classified(rows, threshold)[j].index <==> k < |rows| && j < |rows[k]| && Abs(rows[k][j]) > threshold
  {
    BucketMembership(rows, threshold, j, k);
  }

  /** A weight equal to the threshold does not qualify: the comparison is strict. */
  lemma ThresholdIsStrict()
    ensures Classified([[0.35, -0.5, 0.1, 0.9]], 0.35) ==
              [Bucket([], []), Bucket([[0.35, -0.5, 0.1, 0.9]], [0]), Bucket([], [])]
  {
    var rows := [[0.35, -0.5, 0.1, 0.9]];
    assert rows[..0] == [];
    assert !Big(rows[0], 0, 0.35) && Big(rows[0], 1, 0.35) && !Big(rows[0], 2, 0.35);
    assert BucketOf(rows, 0.35, 0) == BucketOf(rows, 0.35, 2) == Bucket([], []);
    assert BucketOf(rows, 0.35, 1) == Bucket([rows[0]], [0]);
  }

  /** `classify_neurons(output_weights, threshold)`: rows of `outputWeights` are neurons. */
  method ClassifyNeurons(outputWeights: seq<seq<real>>, threshold: real) returns (weightsByNumber: seq<Bucket>)
    ensures weightsByNumber == Classified(outputWeights, threshold)
  {
    weightsByNumber := [Bucket([], []), Bucket([], []), Bucket([], [])];
    var k := 0;
    for r := 0 to |outputWeights|
      invariant k == r
      invariant weightsByNumber == Classified(outputWeights[..r], threshold)
    {
      var weightsPerNeuron := outputWeights[r];
      assert outputWeights[..r + 1][..r] == outputWeights[..r];
      for i := 0 to |weightsPerNeuron|
        invariant |weightsByNumber| == BucketCount
        invariant forall j :: 0 <= j < BucketCount ==>
                    weightsByNumber[j] == BucketOf(outputWeights[..if j < i then r + 1 else r], threshold, j)
      {
        var big := Abs(weightsPerNeuron[i]) > threshold;
        if big && i == 0 {
          weightsByNumber := weightsByNumber[0 := Bucket(weightsByNumber[0].weights + [weightsPerNeuron], weightsByNumber[0].index + [k])];
        } else if big && i == 1 {
          weightsByNumber := weightsByNumber[1 := Bucket(weightsByNumber[1].weights + [weightsPerNeuron], weightsByNumber[1].index + [k])];
        } else if big && i == 2 {
          weightsByNumber := weightsByNumber[2 := Bucket(weightsByNumber[2].weights + [weightsPerNeuron], weightsByNumber[2].index + [k])];
        }
      }
      k := k + 1;
    }
    assert outputWeights[..|outputWeights|] == outputWeights;
  }
}
