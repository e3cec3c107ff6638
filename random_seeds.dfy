/**
 * The random-seeds centroid strategy: draw `nClusters` distinct node indices
 * from [1, |Z|) (index 0 is never drawn) and return those rows of Z.
 * The random draw is a nondeterministic choice among all valid samples.
 */
module RandomSeeds {
  import opened Wrappers
  import opened Embedding

  /** The error `random.sample` raises when the sample is larger than the population. */
  datatype SampleError = SampleLargerThanPopulation

  /** The number of candidates in range(1, rows). */
  function PopulationSize(rows: nat): nat
  {
    if rows == 0 then 0 else rows - 1
  }

  /** No index occurs twice in `idx`. */
  predicate Distinct(idx: seq<nat>)
  {
    forall a, b :: 0 <= a < b < |idx| ==> idx[a] != idx[b]
  }

  /** `idx` is an outcome `random.sample(range(1, rows), n)` can produce. */
  predicate IsSample(idx: seq<nat>, rows: nat, n: nat)
  {
    && |idx| == n
    && (forall k :: 0 <= k < |idx| ==> 1 <= idx[k] < rows)
    && Distinct(idx)
  }

  /** The indices 1, 2, ..., n: one sample whenever one exists. */
  function Ascending(n: nat): (idx: seq<nat>)
  {
    seq(n, k => k + 1)
  }

  /** A sample of size n exists whenever n does not exceed the population. */
  lemma SampleExists(rows: nat, n: nat)
    requires n <= PopulationSize(rows)
    ensures IsSample(Ascending(n), rows, n)
  {
  }

  /** The set of values of a sequence without repetitions has as many elements as the sequence. */
  lemma {:induction false} DistinctCardinality(idx: seq<nat>)
    requires Distinct(idx)
    ensures |set k | 0 <= k < |idx| :: idx[k]| == |idx|
  {
    if |idx| > 0 {
      var rest := idx[1..];
      DistinctCardinality(rest);
      var s := set k | 0 <= k < |idx| :: idx[k];
      var t := set k | 0 <= k < |rest| :: rest[k];
      assert s == {idx[0]} + t by {
        forall x | x in s ensures x in {idx[0]} + t {
          var k :| 0 <= k < |idx| && idx[k] == x;
          if k > 0 { assert rest[k - 1] == x; }
        }
      }
      assert idx[0] !in t;
    }
  }

  /** The half-open range [lo, hi) as a set. */
  function Interval(lo: nat, hi: nat): (s: set<nat>)
    ensures forall x :: x in s <==> lo <= x < hi
    decreases hi - lo
  {
    if lo >= hi then {} else {lo} + Interval(lo + 1, hi)
  }

  /** [lo, hi) has hi - lo elements, none when it is empty. */
  lemma {:induction false} IntervalCardinality(lo: nat, hi: nat)
    ensures |Interval(lo, hi)| == if lo <= hi then hi - lo else 0
    decreases hi - lo
  {
    if lo < hi {
      IntervalCardinality(lo + 1, hi);
      assert lo !in Interval(lo + 1, hi);
    }
  }

  /**
   * Pigeonhole: a valid sample has at most PopulationSize(rows) elements, so
   * `random.sample` raises exactly when no valid sample exists.
   */
  lemma SampleBounded(idx: seq<nat>, rows: nat, n: nat)
    requires IsSample(idx, rows, n)
    ensures n <= PopulationSize(rows)
  {
    var s := set k | 0 <= k < |idx| :: idx[k];
    DistinctCardinality(idx);
    IntervalCardinality(1, rows);
    assert s <= Interval(1, rows);
    SubsetCardinality(s, Interval(1, rows));
  }

  /** A subset has no more elements than its superset. */
  lemma {:induction false} SubsetCardinality(a: set<nat>, b: set<nat>)
    requires a <= b
    ensures |a| <= |b|
    decreases |b|
  {
    if b != {} {
      var x :| x in b;
      SubsetCardinality(a - {x}, b - {x});
    }
  }

  /**
   * select_centroids(Z, n_clusters): draws the sample (a nondeterministic
   * choice standing for `random.sample`) and gathers those rows of Z.
   * Fails exactly when n_clusters exceeds len(Z) - 1.
   */
  method SelectCentroids(z: Matrix, nClusters: nat) returns (r: Result<Matrix, SampleError>)
    ensures r.Failure? <==> nClusters > PopulationSize(|z|)
    ensures r.Success? ==>
      exists idx :: IsSample(idx, |z|, nClusters) && Gathered(z, idx, r.value)
  {
    if nClusters > PopulationSize(|z|) {
      return Failure(SampleLargerThanPopulation);
    }
    SampleExists(|z|, nClusters);
    var centroids: seq<nat> :| IsSample(centroids, |z|, nClusters);
    assert IsSample(centroids, |z|, nClusters);
    assert RowIndices(z, centroids);
    var clustersCentroids := GatherRows(z, centroids);
    return Success(clustersCentroids);
  }
}
