/**
 * The control decisions of the co-training epoch loop as functions of the
 * losses seen so far: the not-improving counter, when centroids are
 * (re)selected, the best-metric records, and the hard label of a row of Q.
 */
module TrainingControl {
  import opened Embedding

  /** Number of non-improving epochs after which centroids are chosen again. */
  const NOT_IMPROVING_LIMIT: nat := 100

  /** Whether centroids are chosen again when the loss stops improving. */
  const RECHOSE_CENTROIDS: bool := true

  /* ---------------- plateau counter and reselection trigger ---------------- */

  /** The check at the top of an iteration: epoch 0, or the counter reached the limit. */
  predicate Reselect(epoch: nat, counter: nat)
  {
    epoch == 0 || counter == NOT_IMPROVING_LIMIT
  }

  /** The counter after that check: reset whenever the check fires, whatever RECHOSE_CENTROIDS says. */
  function CounterAfterCheck(epoch: nat, counter: nat): nat
  {
    if Reselect(epoch, counter) then 0 else counter
  }

  /** The `loss` variable before the epoch that follows `losses`: 0 before epoch 0. */
  function PastLoss(losses: seq<real>): real
  {
    if |losses| == 0 then 0.0 else losses[|losses| - 1]
  }

  /** Epoch e did not improve: its loss is at least the loss of the previous epoch (0 before epoch 0). */
  predicate NotImproving(losses: seq<real>, e: nat)
    requires e < |losses|
  {
    losses[e] >= PastLoss(losses[..e])
  }

  /**
   * The not-improving counter at the top of epoch |losses|, before the check,
   * when the epochs so far produced `losses`.
   */
  function CounterAt(losses: seq<real>): nat
    decreases |losses|
  {
    if |losses| == 0 then 0
    else
      var e := |losses| - 1;
      var c := CounterAfterCheck(e, CounterAt(losses[..e]));
      if losses[e] >= PastLoss(losses[..e]) then c + 1 else 0
  }

  /** `chose_centroids` as passed to the train step of epoch |losses|. */
  predicate ChoseCentroids(losses: seq<real>)
  {
    RECHOSE_CENTROIDS && Reselect(|losses|, CounterAt(losses))
  }

  /**
   * The counter never exceeds the limit: it is at most the limit at the top of
   * an iteration and strictly below it after the check.
   */
  lemma {:induction false} CounterBounded(losses: seq<real>)
    ensures CounterAt(losses) <= NOT_IMPROVING_LIMIT
    ensures CounterAfterCheck(|losses|, CounterAt(losses)) < NOT_IMPROVING_LIMIT
  {
    if |losses| > 0 {
      CounterBounded(losses[..|losses| - 1]);
    }
  }

  /** A counter of at least k means each of the last k epochs did not improve. */
  lemma {:induction false} CounterMeansStall(losses: seq<real>, k: nat)
    requires k <= CounterAt(losses)
    ensures k <= |losses|
    ensures forall e :: |losses| - k <= e < |losses| ==> NotImproving(losses, e)
  {
    if k > 0 {
      var e := |losses| - 1;
      var prefix := losses[..e];
      CounterMeansStall(prefix, k - 1);
      forall j | |losses| - k <= j < |losses| ensures NotImproving(losses, j) {
        assert losses[..j] == prefix[..j] || j == e;
        if j < e { assert NotImproving(prefix, j); }
      }
    }
  }

  /**
   * Counting from a reset at epoch s, k <= limit non-improving epochs make the
   * counter exactly k: no check can fire in between.
   */
  lemma {:induction false} StallCounts(losses: seq<real>, s: nat, k: nat)
    requires 1 <= k <= NOT_IMPROVING_LIMIT && s + k <= |losses|
    requires CounterAfterCheck(s, CounterAt(losses[..s])) == 0
    requires forall e :: s <= e < s + k ==> NotImproving(losses, e)
    ensures CounterAt(losses[..s + k]) == k
  {
    var prefix := losses[..s + k];
    var e := s + k - 1;
    assert prefix[..e] == losses[..e];
    assert prefix[e] == losses[e];
    assert NotImproving(losses, e);
    if k == 1 {
      assert e == s;
    } else {
      StallCounts(losses, s, k - 1);
      assert CounterAt(prefix[..e]) == k - 1;
      assert CounterAfterCheck(e, k - 1) == k - 1;
    }
  }

  /**
   * The reselection trigger: counting from a reset at epoch s, a run of
   * NOT_IMPROVING_LIMIT non-improving epochs makes the next epoch choose
   * centroids again, and its check resets the counter to 0.
   */
  lemma StallTriggersReselection(losses: seq<real>, s: nat)
    requires s + NOT_IMPROVING_LIMIT <= |losses|
    requires CounterAfterCheck(s, CounterAt(losses[..s])) == 0
    requires forall e :: s <= e < s + NOT_IMPROVING_LIMIT ==> NotImproving(losses, e)
    ensures ChoseCentroids(losses[..s + NOT_IMPROVING_LIMIT])
    ensures CounterAfterCheck(s + NOT_IMPROVING_LIMIT, CounterAt(losses[..s + NOT_IMPROVING_LIMIT])) == 0
  {
    StallCounts(losses, s, NOT_IMPROVING_LIMIT);
  }

  /**
   * After epoch 0, centroids are chosen again only after a stall: a later
   * epoch that chooses was preceded by NOT_IMPROVING_LIMIT non-improving epochs.
   */
  lemma ReselectionNeedsStall(losses: seq<real>)
    requires |losses| > 0 && ChoseCentroids(losses)
    ensures |losses| >= NOT_IMPROVING_LIMIT
    ensures forall e :: |losses| - NOT_IMPROVING_LIMIT <= e < |losses| ==> NotImproving(losses, e)
  {
    CounterMeansStall(losses, NOT_IMPROVING_LIMIT);
  }

  /** An epoch whose loss drops below the previous one resets the counter. */
  lemma ImprovementResets(losses: seq<real>)
    requires |losses| > 0 && !NotImproving(losses, |losses| - 1)
    ensures CounterAt(losses) == 0
  {
  }

  /* ---------------- best-metric records ---------------- */

  /** A best-metric record: the best value seen and the epoch it was seen at. */
  datatype BestRecord = BestRecord(epoch: nat, value: real)

  /** The record before any epoch: value 0.0 at epoch 0. */
  const INITIAL_BEST := BestRecord(0, 0.0)

  /** The record after epoch `epoch` produced value v: replaced only on a strictly greater value. */
  function UpdateBest(best: BestRecord, epoch: nat, v: real): (r: BestRecord)
    ensures r.value >= best.value
    ensures r == best || (r.epoch == epoch && r.value == v)
    ensures v > best.value ==> r == BestRecord(epoch, v)
    ensures r != best ==> v > best.value
  {
    if v > best.value then BestRecord(epoch, v) else best
  }

  /** The record after epochs 0 .. |values|-1 produced `values`. */
  function BestOf(values: seq<real>): BestRecord
    decreases |values|
  {
    if |values| == 0 then INITIAL_BEST
    else UpdateBest(BestOf(values[..|values| - 1]), |values| - 1, values[|values| - 1])
  }

  /**
   * The final record holds max(0.0, all values); when that maximum is positive
   * its epoch is the first epoch attaining it, and otherwise the record was
   * never replaced.
   */
  lemma {:induction false} BestOfIsFirstMaximum(values: seq<real>)
    ensures BestOf(values).value >= 0.0
    ensures forall e :: 0 <= e < |values| ==> values[e] <= BestOf(values).value
    ensures BestOf(values).value > 0.0 ==>
      && BestOf(values).epoch < |values|
      && values[BestOf(values).epoch] == BestOf(values).value
      && forall e :: 0 <= e < BestOf(values).epoch ==> values[e] < BestOf(values).value
    ensures BestOf(values).value == 0.0 ==> BestOf(values) == INITIAL_BEST
  {
    if |values| > 0 {
      var prefix := values[..|values| - 1];
      BestOfIsFirstMaximum(prefix);
      assert forall e :: 0 <= e < |prefix| ==> values[e] == prefix[e];
    }
  }

  /** The metric sequence [0.2, 0.5, 0.3, 0.7, 0.4] ends at value 0.7, epoch 3. */
  lemma BestOfExample()
    ensures BestOf([0.2, 0.5, 0.3, 0.7, 0.4]) == BestRecord(3, 0.7)
  {
    var vs := [0.2, 0.5, 0.3, 0.7, 0.4];
    assert BestOf(vs[..1]) == BestRecord(0, 0.2) by { assert vs[..1][..0] == []; }
    assert BestOf(vs[..2]) == BestRecord(1, 0.5) by { assert vs[..2][..1] == vs[..1]; }
    assert BestOf(vs[..3]) == BestRecord(1, 0.5) by { assert vs[..3][..2] == vs[..2]; }
    assert BestOf(vs[..4]) == BestRecord(3, 0.7) by { assert vs[..4][..3] == vs[..3]; }
    assert vs[..5][..4] == vs[..4] && vs[..5] == vs;
  }

  /* ---------------- hard labels ---------------- */

  /** i is the first index of a largest entry of `row`: what np.argmax(row) returns. */
  predicate IsFirstArgMax(row: Vector, i: nat)
  {
    && i < |row|
    && (forall j :: 0 <= j < |row| ==> row[j] <= row[i])
    && (forall j :: 0 <= j < i ==> row[j] < row[i])
  }

  /** np.argmax of a non-empty row. */
  function ArgMax(row: Vector): (i: nat)
    requires |row| > 0
    ensures IsFirstArgMax(row, i)
    decreases |row|
  {
    if |row| == 1 then 0
    else
      var k := ArgMax(row[..|row| - 1]);
      if row[|row| - 1] > row[k] then |row| - 1 else k
  }

  /** The first largest index is unique, so the hard label of a row is well defined. */
  lemma FirstArgMaxUnique(row: Vector, i: nat, j: nat)
    requires IsFirstArgMax(row, i) && IsFirstArgMax(row, j)
    ensures i == j
  {
    assert row[i] <= row[j] && row[j] <= row[i];
  }

  /** `r` has one label per row of `q`, in row order, each the first argmax of its row. */
  predicate IsHardLabelling(q: Matrix, r: seq<nat>)
  {
    |r| == |q| && forall i :: 0 <= i < |q| ==> IsFirstArgMax(q[i], r[i])
  }
}
