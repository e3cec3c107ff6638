/**
 * The weighted-betweenness centroid strategy, from the point where the
 * centrality score of every node is known: pick the `nClusters` nodes with the
 * largest scores (`heapq.nlargest` over the score dict) and return their rows of Z.
 *
 * The score dict is given as its items in iteration order. `heapq.nlargest(n,
 * items, key)` is defined to equal `sorted(items, key, reverse=True)[:n]`, a
 * stable descending sort truncated to n: the model sorts item POSITIONS by
 * (score descending, position ascending) and keeps the first n.
 */
module WeightedBetweenness {
  import opened Embedding

  /** One item of the centrality dict: a graph node and its betweenness score. */
  datatype Scored = Scored(node: nat, score: real)

  function Min(a: nat, b: nat): nat
  {
    if a <= b then a else b
  }

  /** The items come from a dict, so no node occurs twice. */
  predicate DistinctNodes(items: seq<Scored>)
  {
    forall a, b :: 0 <= a < b < |items| ==> items[a].node != items[b].node
  }

  /**
   * The item at position i is output before the item at position j: it has a
   * larger score, or the same score and comes earlier in iteration order.
   */
  predicate Precedes(items: seq<Scored>, i: nat, j: nat)
    requires i < |items| && j < |items|
  {
    items[i].score > items[j].score || (items[i].score == items[j].score && i < j)
  }

  /** Precedes is a strict total order on the positions of `items`. */
  lemma PrecedesIsStrictTotalOrder(items: seq<Scored>)
    ensures forall i :: 0 <= i < |items| ==> !Precedes(items, i, i)
    ensures forall i, j :: 0 <= i < |items| && 0 <= j < |items| && i != j ==>
      Precedes(items, i, j) != Precedes(items, j, i)
    ensures forall i, j, k ::
      (0 <= i < |items| && 0 <= j < |items| && 0 <= k < |items| &&
       Precedes(items, i, j) && Precedes(items, j, k)) ==> Precedes(items, i, k)
  {
  }

  /** Every element of `ord` is a position of `items`. */
  predicate InRange(items: seq<Scored>, ord: seq<nat>)
  {
    forall k :: 0 <= k < |ord| ==> ord[k] < |items|
  }

  /** The positions in `ord` are listed in output order. */
  predicate Ranked(items: seq<Scored>, ord: seq<nat>)
    requires InRange(items, ord)
  {
    forall a, b :: 0 <= a < b < |ord| ==> Precedes(items, ord[a], ord[b])
  }

  /** Inserts position i into the ranked list `ord` in front of the first position it precedes. */
  function Insert(items: seq<Scored>, ord: seq<nat>, i: nat): (r: seq<nat>)
    requires i < |items| && InRange(items, ord)
    ensures |r| == |ord| + 1 && InRange(items, r)
    ensures forall x :: x in r <==> x in ord || x == i
  {
    if ord == [] then [i]
    else if Precedes(items, i, ord[0]) then [i] + ord
    else [ord[0]] + Insert(items, ord[1..], i)
  }

  /** Insertion keeps the list ranked. */
  lemma {:induction false} InsertRanked(items: seq<Scored>, ord: seq<nat>, i: nat)
    requires i < |items| && InRange(items, ord)
    requires Ranked(items, ord) && i !in ord
    ensures Ranked(items, Insert(items, ord, i))
  {
    if ord != [] && !Precedes(items, i, ord[0]) {
      var tail := ord[1..];
      assert InRange(items, tail);
      assert Ranked(items, tail);
      InsertRanked(items, tail, i);
      var r := Insert(items, ord, i);
      assert r == [ord[0]] + Insert(items, tail, i);
      PrecedesIsStrictTotalOrder(items);
      forall b | 1 <= b < |r| ensures Precedes(items, ord[0], r[b]) {
        assert r[b] in Insert(items, tail, i);
        if r[b] != i {
          var c :| 0 <= c < |tail| && tail[c] == r[b];
          assert ord[c + 1] == r[b];
        }
      }
    }
  }

  /** The positions 0 .. m-1 of `items` in output order. */
  function RankPrefix(items: seq<Scored>, m: nat): (ord: seq<nat>)
    requires m <= |items|
    ensures |ord| == m && InRange(items, ord)
    ensures forall x: nat :: x in ord <==> x < m
  {
    if m == 0 then [] else Insert(items, RankPrefix(items, m - 1), m - 1)
  }

  lemma {:induction false} RankPrefixRanked(items: seq<Scored>, m: nat)
    requires m <= |items|
    ensures Ranked(items, RankPrefix(items, m))
  {
    if m > 0 {
      RankPrefixRanked(items, m - 1);
      InsertRanked(items, RankPrefix(items, m - 1), m - 1);
    }
  }

  /** All positions of `items`, as the stable descending sort lists them. */
  function Ranking(items: seq<Scored>): (ord: seq<nat>)
    ensures |ord| == |items| && InRange(items, ord)
    ensures forall x: nat :: x in ord <==> x < |items|
  {
    RankPrefix(items, |items|)
  }

  /** The positions `heapq.nlargest(n, items, key=score)` returns, in its order. */
  function TopPositions(n: nat, items: seq<Scored>): (sel: seq<nat>)
    ensures |sel| == Min(n, |items|) && InRange(items, sel)
  {
    Ranking(items)[..Min(n, |items|)]
  }

  /** The n highest-scoring dict items, largest score first, ties in iteration order. */
  function NLargest(n: nat, items: seq<Scored>): (r: seq<Scored>)
    ensures |r| == Min(n, |items|)
    ensures forall k :: 0 <= k < |r| ==> r[k] in items
  {
    var sel := TopPositions(n, items);
    seq(|sel|, k requires 0 <= k < |sel| => items[sel[k]])
  }

  /**
   * The selection is the stable top-n: the chosen positions are listed in
   * output order, and every position left out is preceded by every chosen one.
   */
  lemma TopPositionsAreStableTopN(n: nat, items: seq<Scored>)
    ensures Ranked(items, TopPositions(n, items))
    ensures forall k, j :: 0 <= k < Min(n, |items|) && 0 <= j < |items| && j !in TopPositions(n, items) ==>
      Precedes(items, TopPositions(n, items)[k], j)
  {
    var ord := Ranking(items);
    var sel := TopPositions(n, items);
    RankPrefixRanked(items, |items|);
    forall k, j | 0 <= k < |sel| && 0 <= j < |items| && j !in sel
      ensures Precedes(items, sel[k], j)
    {
      assert j in ord;
      var p :| 0 <= p < |ord| && ord[p] == j;
      assert forall q :: 0 <= q < |sel| ==> sel[q] == ord[q];
      assert p >= |sel|;
    }
  }

  /** A chosen item is given by the position that holds it, when nodes are distinct. */
  lemma ChosenPosition(n: nat, items: seq<Scored>, k: nat, j: nat)
    requires DistinctNodes(items)
    requires k < |NLargest(n, items)| && j < |items| && NLargest(n, items)[k] == items[j]
    ensures TopPositions(n, items)[k] == j
  {
    var sel := TopPositions(n, items);
    assert items[sel[k]] == items[j];
  }

  /** A position whose item was not chosen is not among the chosen positions. */
  lemma UnchosenPosition(n: nat, items: seq<Scored>, j: nat)
    requires j < |items| && items[j] !in NLargest(n, items)
    ensures j !in TopPositions(n, items)
  {
    var r := NLargest(n, items);
    var sel := TopPositions(n, items);
    forall c | 0 <= c < |sel| ensures sel[c] != j {
      assert r[c] == items[sel[c]];
    }
  }

  /** The output of nlargest is in non-increasing score order. */
  lemma NLargestNonIncreasing(n: nat, items: seq<Scored>)
    ensures forall a, b :: 0 <= a < b < |NLargest(n, items)| ==>
      NLargest(n, items)[a].score >= NLargest(n, items)[b].score
  {
    var r := NLargest(n, items);
    var sel := TopPositions(n, items);
    TopPositionsAreStableTopN(n, items);
    forall a, b | 0 <= a < b < |r| ensures r[a].score >= r[b].score {
      assert Precedes(items, sel[a], sel[b]);
    }
  }

  /** Every chosen item scores at least as high as every item left out. */
  lemma NLargestDominates(n: nat, items: seq<Scored>)
    ensures forall k, j :: 0 <= k < |NLargest(n, items)| && 0 <= j < |items| && items[j] !in NLargest(n, items) ==>
      NLargest(n, items)[k].score >= items[j].score
  {
    var r := NLargest(n, items);
    var sel := TopPositions(n, items);
    TopPositionsAreStableTopN(n, items);
    forall k, j | 0 <= k < |r| && 0 <= j < |items| && items[j] !in r
      ensures r[k].score >= items[j].score
    {
      UnchosenPosition(n, items, j);
      assert Precedes(items, sel[k], j);
    }
  }

  /** On equal scores, an item is chosen only if every earlier item with that score is chosen too. */
  lemma NLargestTiesPreferEarlier(n: nat, items: seq<Scored>)
    requires DistinctNodes(items)
    ensures forall i, j :: 0 <= i < j < |items| && items[i].score == items[j].score && items[j] in NLargest(n, items) ==>
      items[i] in NLargest(n, items)
  {
    var r := NLargest(n, items);
    var sel := TopPositions(n, items);
    TopPositionsAreStableTopN(n, items);
    forall i, j | 0 <= i < j < |items| && items[i].score == items[j].score && items[j] in r
      ensures items[i] in r
    {
      var k :| 0 <= k < |r| && r[k] == items[j];
      ChosenPosition(n, items, k, j);
      var ord := Ranking(items);
      RankPrefixRanked(items, |items|);
      assert i in ord;
      var p :| 0 <= p < |ord| && ord[p] == i;
      assert ord[k] == j;
      assert Precedes(items, i, j);
      assert p < k;
      assert r[p] == items[i];
    }
  }

  /** Chosen items with equal scores are listed in iteration order. */
  lemma NLargestTiesKeepOrder(n: nat, items: seq<Scored>)
    requires DistinctNodes(items)
    ensures forall a, b, i, j ::
      (0 <= a < b < |NLargest(n, items)| && 0 <= i < |items| && 0 <= j < |items| &&
       NLargest(n, items)[a] == items[i] && NLargest(n, items)[b] == items[j] &&
       items[i].score == items[j].score) ==> i < j
  {
    var r := NLargest(n, items);
    var sel := TopPositions(n, items);
    TopPositionsAreStableTopN(n, items);
    forall a, b, i, j | 0 <= a < b < |r| && 0 <= i < |items| && 0 <= j < |items| &&
      r[a] == items[i] && r[b] == items[j] && items[i].score == items[j].score
      ensures i < j
    {
      ChosenPosition(n, items, a, i);
      ChosenPosition(n, items, b, j);
      assert Precedes(items, i, j);
    }
  }

  /** The node ids of the chosen items, in the order they were chosen. */
  function CentroidNodes(n: nat, items: seq<Scored>): (cs: seq<nat>)
    ensures |cs| == Min(n, |items|)
    ensures forall k :: 0 <= k < |cs| ==> exists j :: 0 <= j < |items| && items[j].node == cs[k]
  {
    var biggest := NLargest(n, items);
    seq(|biggest|, k requires 0 <= k < |biggest| => biggest[k].node)
  }

  /** The chosen node ids are pairwise distinct, being keys of the score dict. */
  lemma CentroidNodesDistinct(n: nat, items: seq<Scored>)
    requires DistinctNodes(items)
    ensures forall a, b :: 0 <= a < b < |CentroidNodes(n, items)| ==>
      CentroidNodes(n, items)[a] != CentroidNodes(n, items)[b]
  {
    var sel := TopPositions(n, items);
    TopPositionsAreStableTopN(n, items);
    PrecedesIsStrictTotalOrder(items);
    forall a, b | 0 <= a < b < |sel| ensures items[sel[a]].node != items[sel[b]].node {
      assert Precedes(items, sel[a], sel[b]);
    }
  }

  /**
   * On the path graph 0-1-2-3-4 with unit weights the normalised betweenness
   * scores are 0, 1/2, 2/3, 1/2, 0: the three centroids are nodes 2, 1 and 3,
   * the tie between 1 and 3 going to the one iterated first.
   */
  lemma PathGraphExample()
    ensures CentroidNodes(3, [Scored(0, 0.0), Scored(1, 0.5), Scored(2, 2.0 / 3.0), Scored(3, 0.5), Scored(4, 0.0)])
      == [2, 1, 3]
  {
    var items := [Scored(0, 0.0), Scored(1, 0.5), Scored(2, 2.0 / 3.0), Scored(3, 0.5), Scored(4, 0.0)];
    assert RankPrefix(items, 1) == [0];
    assert RankPrefix(items, 2) == [1, 0];
    assert RankPrefix(items, 3) == [2, 1, 0];
    assert RankPrefix(items, 4) == [2, 1, 3, 0];
    assert RankPrefix(items, 5) == [2, 1, 3, 0, 4];
    assert TopPositions(3, items) == [2, 1, 3];
  }

  /**
   * select_centroids from the centrality dict on: the top-n pick and the gather
   * loop. Every scored node is a row of Z, because the graph's nodes are the
   * row indices of the data Z was computed from.
   */
  method SelectCentroids(z: Matrix, nClusters: nat, centrality: seq<Scored>) returns (clustersCentroids: Matrix)
    requires forall k :: 0 <= k < |centrality| ==> centrality[k].node < |z|
    ensures RowIndices(z, CentroidNodes(nClusters, centrality))
    ensures |clustersCentroids| == Min(nClusters, |centrality|)
    ensures Gathered(z, CentroidNodes(nClusters, centrality), clustersCentroids)
  {
    var centroids := CentroidNodes(nClusters, centrality);
    clustersCentroids := GatherRows(z, centroids);
  }
}
