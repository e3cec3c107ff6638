/**
 * The co-training runner: an object holding the soft assignment Q, the target
 * distribution P, the centroid set and the first-interaction flag, a train
 * step that updates them, and the epoch loop that drives it.
 *
 * The encoder, the reconstruction loss, the clustering-loss formulas, the
 * centroid strategies and the metrics are collaborators whose internals are
 * not modelled; they are given as functions.
 */
module Runner {
  import opened Wrappers
  import opened Embedding
  import opened TrainingControl

  /** p_interval: any integer but 0, where `epoch % p_interval` would raise. */
  type NonZeroInt = x: int | x != 0 witness 1

  /** The constructor arguments the run depends on. */
  datatype Config = Config(
    epochs: nat,
    nClusters: nat,
    findCentroidsAlg: string,
    cLossGama: real,
    pInterval: NonZeroInt)

  /**
   * The graph auto-encoder. `encode(e)` is the embedding Z of the forward pass
   * at epoch e (with the parameters trained so far); `reconLoss(e, Z)` is the
   * reconstruction loss over the graph's edges at epoch e, which also depends
   * on the negative edges it samples at random on each call.
   */
  datatype Network = Network(encode: nat -> Matrix, reconLoss: (nat, Matrix) -> real)

  /** The clustering-loss formulas. */
  datatype LossEngine = LossEngine(
    calculateQ: (Matrix, Matrix) -> Matrix,             // (centroids, Z) -> Q
    calculateP: Matrix -> Matrix,                       // Q -> P
    klDivLoss: (Matrix, Matrix) -> real,                // (Q, P) -> Lc
    qGrad: (Matrix, Matrix) -> Matrix,                  // (Q, P) -> Q.grad after the backward pass
    updateClustersCenters: (Matrix, Matrix) -> Matrix)  // (centroids, Q.grad) -> centroids

  /** The reporting metrics of a hard labelling. */
  datatype Metrics = Metrics(
    modularity: seq<nat> -> real,
    nmi: seq<nat> -> real,
    ari: seq<nat> -> real)

  /** A centroid strategy: select_centroids(data, Z, n_clusters) for the run's graph. */
  type Strategy = (Matrix, nat) -> Matrix

  /** What a successful train step returns besides Z: total, clustering and reconstruction loss. */
  datatype StepLosses = StepLosses(loss: real, cLoss: real, gaeLoss: real)

  /** One row of loss_log: [epoch, loss, c_loss, gae_loss]. */
  datatype LossEntry = LossEntry(epoch: nat, loss: real, cLoss: real, gaeLoss: real)

  /** One row of metrics_log: [epoch, mod, nmi, ari]. */
  datatype MetricsEntry = MetricsEntry(epoch: nat, modularity: real, nmi: real, ari: real)

  /** Why a run stopped early. */
  datatype AbortReason =
    | CentroidsMissing     // the train step returned None, so unpacking its result raises
    | EmptyAssignmentRow   // np.argmax of an empty row of Q raises

  datatype Outcome = Finished | Aborted(epoch: nat, reason: AbortReason)

  /**
   * What one completed train step did: the centroid set it worked with, Q and
   * P after it, and whether it nudged the centroids.
   */
  datatype StepRecord = StepRecord(centroids: Matrix, q: Matrix, p: Matrix, nudged: bool)

  /** The losses a loss_log row records. */
  function LossesOf(entry: LossEntry): StepLosses
  {
    StepLosses(entry.loss, entry.cLoss, entry.gaeLoss)
  }

  /** The centroid set a recorded step leaves behind. */
  function CentroidsLeft(engine: LossEngine, t: StepRecord): Matrix
  {
    CentroidsAfterStep(engine, t.centroids, t.q, t.p, t.nudged)
  }

  function Nmis(log: seq<MetricsEntry>): seq<real>
  {
    seq(|log|, i requires 0 <= i < |log| => log[i].nmi)
  }

  function Aris(log: seq<MetricsEntry>): seq<real>
  {
    seq(|log|, i requires 0 <= i < |log| => log[i].ari)
  }

  function Modularities(log: seq<MetricsEntry>): seq<real>
  {
    seq(|log|, i requires 0 <= i < |log| => log[i].modularity)
  }

  /** The centroid set a train step leaves: nudged along Q's gradient, or unchanged. */
  function CentroidsAfterStep(engine: LossEngine, c: Matrix, q: Matrix, p: Matrix, nudged: bool): Matrix
  {
    if nudged then engine.updateClustersCenters(c, engine.qGrad(q, p)) else c
  }

  /**
   * The reporting part of a run: row e of metricsLog holds epoch e and the
   * metrics of labelsLog[e], which is the hard labelling of trace[e].q, and
   * each best record is the running record over its metric's column.
   */
  ghost predicate MetricsOk(metrics: Metrics, trace: seq<StepRecord>, metricsLog: seq<MetricsEntry>,
                            labelsLog: seq<seq<nat>>, bestNmi: BestRecord, bestAri: BestRecord, bestMod: BestRecord)
  {
    && |metricsLog| == |labelsLog| <= |trace|
    && (forall e :: 0 <= e < |metricsLog| ==>
          && IsHardLabelling(trace[e].q, labelsLog[e])
          && metricsLog[e] == MetricsEntry(e, metrics.modularity(labelsLog[e]), metrics.nmi(labelsLog[e]),
                                           metrics.ari(labelsLog[e])))
    && bestNmi == BestOf(Nmis(metricsLog))
    && bestAri == BestOf(Aris(metricsLog))
    && bestMod == BestOf(Modularities(metricsLog))
  }

  /** A longer trace keeps the reporting part valid. */
  lemma MetricsTraceGrows(metrics: Metrics, trace: seq<StepRecord>, t: StepRecord, metricsLog: seq<MetricsEntry>,
                          labelsLog: seq<seq<nat>>, bestNmi: BestRecord, bestAri: BestRecord, bestMod: BestRecord)
    requires MetricsOk(metrics, trace, metricsLog, labelsLog, bestNmi, bestAri, bestMod)
    ensures MetricsOk(metrics, trace + [t], metricsLog, labelsLog, bestNmi, bestAri, bestMod)
  {
    assert forall e :: 0 <= e < |trace| ==> (trace + [t])[e] == trace[e];
  }

  /**
   * Reporting the next epoch: the labelling of its Q is logged with its
   * metrics, and each best record is replaced exactly on a strict improvement.
   */
  lemma MetricsExtend(metrics: Metrics, trace: seq<StepRecord>, metricsLog: seq<MetricsEntry>,
                      labelsLog: seq<seq<nat>>, bestNmi: BestRecord, bestAri: BestRecord, bestMod: BestRecord,
                      labels: seq<nat>)
    requires MetricsOk(metrics, trace, metricsLog, labelsLog, bestNmi, bestAri, bestMod)
    requires |metricsLog| < |trace| && IsHardLabelling(trace[|metricsLog|].q, labels)
    ensures
      var e := |metricsLog|;
      var m := MetricsEntry(e, metrics.modularity(labels), metrics.nmi(labels), metrics.ari(labels));
      MetricsOk(metrics, trace, metricsLog + [m], labelsLog + [labels],
                UpdateBest(bestNmi, e, m.nmi), UpdateBest(bestAri, e, m.ari), UpdateBest(bestMod, e, m.modularity))
  {
    var e := |metricsLog|;
    var m := MetricsEntry(e, metrics.modularity(labels), metrics.nmi(labels), metrics.ari(labels));
    var log' := metricsLog + [m];
    assert Nmis(log')[..e] == Nmis(metricsLog);
    assert Aris(log')[..e] == Aris(metricsLog);
    assert Modularities(log')[..e] == Modularities(metricsLog);
  }

  /**
   * The reporting half of an epoch, for the step last recorded in `trace`:
   * the hard labels of its Q, the metrics row logged for them, and the best
   * records, each replaced only on a strictly better value. Fails, logging
   * nothing, when Q has an empty row.
   */
  method ReportEpoch(metrics: Metrics, q: Matrix, ghost trace: seq<StepRecord>, ghost t: StepRecord,
                     metricsLog: seq<MetricsEntry>, ghost labelsLog: seq<seq<nat>>,
                     bestNmi: BestRecord, bestAri: BestRecord, bestMod: BestRecord)
    returns (ok: bool, metricsLog': seq<MetricsEntry>, ghost labelsLog': seq<seq<nat>>,
             bestNmi': BestRecord, bestAri': BestRecord, bestMod': BestRecord)
    requires |metricsLog| == |trace| && t.q == q
    requires MetricsOk(metrics, trace, metricsLog, labelsLog, bestNmi, bestAri, bestMod)
    ensures !ok <==> exists i :: 0 <= i < |q| && |q[i]| == 0
    ensures !ok ==> metricsLog' == metricsLog && labelsLog' == labelsLog
    ensures ok ==> |metricsLog'| == |trace| + 1
    ensures MetricsOk(metrics, trace + [t], metricsLog', labelsLog', bestNmi', bestAri', bestMod')
  {
    var epoch := |metricsLog|;
    MetricsTraceGrows(metrics, trace, t, metricsLog, labelsLog, bestNmi, bestAri, bestMod);
    metricsLog', labelsLog', bestNmi', bestAri', bestMod' := metricsLog, labelsLog, bestNmi, bestAri, bestMod;
    var r := HardLabels(q);
    if r.None? {
      return false, metricsLog', labelsLog', bestNmi', bestAri', bestMod';
    }
    var labels := r.value;
    var mod := metrics.modularity(labels);
    var nmi := metrics.nmi(labels);
    var ari := metrics.ari(labels);
    MetricsExtend(metrics, trace + [t], metricsLog, labelsLog, bestNmi, bestAri, bestMod, labels);
    metricsLog' := metricsLog + [MetricsEntry(epoch, mod, nmi, ari)];
    labelsLog' := labelsLog + [labels];
    if nmi > bestNmi.value {
      bestNmi' := BestRecord(epoch, nmi);
    }
    if ari > bestAri.value {
      bestAri' := BestRecord(epoch, ari);
    }
    if mod > bestMod.value {
      bestMod' := BestRecord(epoch, mod);
    }
    ok := true;
  }

  /**
   * The hard labels r: for each row of Q, in row order, np.argmax of the row.
   * Fails when a row is empty, where np.argmax raises.
   */
  method HardLabels(q: Matrix) returns (r: Option<seq<nat>>)
    ensures r.None? <==> exists i :: 0 <= i < |q| && |q[i]| == 0
    ensures r.Some? ==> IsHardLabelling(q, r.value)
  {
    var labels: seq<nat> := [];
    var i := 0;
    while i < |q|
      invariant 0 <= i <= |q|
      invariant |labels| == i
      invariant forall k :: 0 <= k < i ==> IsFirstArgMax(q[k], labels[k])
    {
      if |q[i]| == 0 {
        return None;
      }
      labels := labels + [ArgMax(q[i])];
      i := i + 1;
    }
    return Some(labels);
  }

  class GaeRunner {
    const config: Config
    const network: Network
    const engine: LossEngine
    const metrics: Metrics
    /** The strategy registry, by strategy name. */
    const registry: map<string, Strategy>

    /** The soft assignment of the last train step (the source's placeholder 0 is None). */
    var Q: Option<Matrix>
    /** The target distribution (the source's placeholder 0 is None). */
    var P: Option<Matrix>
    var clustersCentroids: Option<Matrix>
    var firstInteraction: bool

    constructor (config: Config, network: Network, engine: LossEngine, metrics: Metrics,
                 registry: map<string, Strategy>)
      ensures this.config == config && this.network == network && this.engine == engine
      ensures this.metrics == metrics && this.registry == registry
      ensures Q.None? && P.None? && clustersCentroids.None? && firstInteraction
    {
      this.config := config;
      this.network := network;
      this.engine := engine;
      this.metrics := metrics;
      this.registry := registry;
      Q := None;
      P := None;
      clustersCentroids := None;
      firstInteraction := true;
    }

    /** The centroid set `_find_centroids(Z)` leaves: the strategy's result, or the old set for an unknown name. */
    function FoundCentroids(z: Matrix): Option<Matrix>
      reads this
    {
      if config.findCentroidsAlg in registry
      then Some(registry[config.findCentroidsAlg](z, config.nClusters))
      else clustersCentroids
    }

    /** The centroid set a train step works with, after the optional (re)selection. */
    function CentroidsInUse(choseCentroids: bool, z: Matrix): Option<Matrix>
      reads this
    {
      if choseCentroids then FoundCentroids(z) else clustersCentroids
    }

    /** _find_centroids: replaces the centroid set, or leaves it unchanged when the strategy name is unknown. */
    method FindCentroids(z: Matrix)
      modifies this`clustersCentroids
      ensures config.findCentroidsAlg in registry ==>
        clustersCentroids == Some(registry[config.findCentroidsAlg](z, config.nClusters))
      ensures config.findCentroidsAlg !in registry ==> clustersCentroids == old(clustersCentroids)
    {
      if config.findCentroidsAlg !in registry {
        return;
      }
      clustersCentroids := Some(registry[config.findCentroidsAlg](z, config.nClusters));
    }

    /**
     * __train_network, given the embedding z of this epoch's forward pass.
     * Returns None (abort) before touching Q when there are no centroids.
     * Otherwise Q is recomputed, P only on p_interval boundaries, and the
     * centroids are nudged only when this is not the first interaction and
     * Lc is non-zero. `nudged` records whether the nudge ran.
     */
    method TrainNetwork(epoch: nat, choseCentroids: bool, z: Matrix)
      returns (res: Option<StepLosses>, ghost nudged: bool)
      requires RecomputesP(epoch) || P.Some?
      modifies this
      ensures res.None? <==> old(CentroidsInUse(choseCentroids, z)).None?
      ensures res.None? ==>
        && Q == old(Q) && P == old(P) && clustersCentroids.None?
        && firstInteraction == old(firstInteraction) && !nudged
      ensures res.Some? ==>
        && Q.Some? && P.Some?
        && var t := StepRecord(old(CentroidsInUse(choseCentroids, z)).value, Q.value, P.value, nudged);
        && StepDid(epoch, z, choseCentroids, old(clustersCentroids), old(P), old(firstInteraction), t, res.value)
        && clustersCentroids == Some(CentroidsLeft(engine, t))
        && !firstInteraction
    {
      nudged := false;
      if choseCentroids {
        FindCentroids(z);
      }
      if clustersCentroids.None? {
        return None, false;
      }
      Q := Some(engine.calculateQ(clustersCentroids.value, z));
      if RecomputesP(epoch) {
        P := Some(engine.calculateP(Q.value));
      }
      var lc := engine.klDivLoss(Q.value, P.value);
      var gaeLoss := network.reconLoss(epoch, z);
      var totalLoss := gaeLoss + config.cLossGama * lc;
      if !firstInteraction && lc != 0.0 {
        clustersCentroids := Some(engine.updateClustersCenters(clustersCentroids.value, engine.qGrad(Q.value, P.value)));
        nudged := true;
      }
      firstInteraction := false;
      res := Some(StepLosses(totalLoss, lc, gaeLoss));
    }


    /**
     * A train step of epoch e on embedding z did what __train_network does,
     * given whether it was asked to choose centroids and the centroid set, P
     * and first-interaction flag it started from: `t` records what it worked
     * with and left, `l` is what it returned.
     */
    ghost predicate StepDid(e: nat, z: Matrix, chose: bool, centroidsBefore: Option<Matrix>, pBefore: Option<Matrix>,
                            firstBefore: bool, t: StepRecord, l: StepLosses)
    {
      var lc := engine.klDivLoss(t.q, t.p);
      && Some(t.centroids) == (if chose && config.findCentroidsAlg in registry
                               then Some(registry[config.findCentroidsAlg](z, config.nClusters))
                               else centroidsBefore)
      && t.q == engine.calculateQ(t.centroids, z)
      && (RecomputesP(e) ==> t.p == engine.calculateP(t.q))
      && (!RecomputesP(e) ==> pBefore == Some(t.p))
      && l == StepLosses(network.reconLoss(e, z) + config.cLossGama * lc, lc, network.reconLoss(e, z))
      && t.nudged == (!firstBefore && lc != 0.0)
    }

    /** Epoch e is a p_interval boundary, where P is recomputed. */
    predicate RecomputesP(e: nat)
    {
      e % config.pInterval == 0
    }

    /** The centroid set the step of epoch e started from: the run's initial one, or what step e-1 left. */
    function CentroidsBefore(e: nat, initial: Option<Matrix>, trace: seq<StepRecord>): Option<Matrix>
      requires e <= |trace|
    {
      if e == 0 then initial else Some(CentroidsLeft(engine, trace[e - 1]))
    }

    /** P as the step of epoch e found it. */
    function PBefore(e: nat, initial: Option<Matrix>, trace: seq<StepRecord>): Option<Matrix>
      requires e <= |trace|
    {
      if e == 0 then initial else Some(trace[e - 1].p)
    }

    /** The recorded step of epoch e did what __train_network does, starting from the state its predecessor left. */
    ghost predicate StepOk(e: nat, initialCentroids: Option<Matrix>, initialP: Option<Matrix>, initialFirst: bool,
                           choseLog: seq<bool>, trace: seq<StepRecord>, lossLog: seq<LossEntry>)
      requires e < |trace| && |trace| <= |choseLog| && |trace| <= |lossLog|
    {
      && lossLog[e].epoch == e
      && StepDid(e, network.encode(e), choseLog[e], CentroidsBefore(e, initialCentroids, trace),
                 PBefore(e, initialP, trace), initialFirst && e == 0, trace[e], LossesOf(lossLog[e]))
    }

    /** Every recorded step did what __train_network does. */
    ghost predicate TraceOk(initialCentroids: Option<Matrix>, initialP: Option<Matrix>, initialFirst: bool,
                            choseLog: seq<bool>, trace: seq<StepRecord>, lossLog: seq<LossEntry>)
      requires |trace| <= |choseLog| && |trace| <= |lossLog|
    {
      forall e :: 0 <= e < |trace| ==> StepOk(e, initialCentroids, initialP, initialFirst, choseLog, trace, lossLog)
    }

    /** Appending a step that starts from the state the trace leaves keeps the trace valid. */
    lemma TraceExtends(initialCentroids: Option<Matrix>, initialP: Option<Matrix>, initialFirst: bool,
                       choseLog: seq<bool>, trace: seq<StepRecord>, lossLog: seq<LossEntry>,
                       t: StepRecord, entry: LossEntry)
      requires |trace| + 1 == |choseLog| && |trace| == |lossLog|
      requires TraceOk(initialCentroids, initialP, initialFirst, choseLog[..|trace|], trace, lossLog)
      requires entry.epoch == |trace|
      requires StepDid(|trace|, network.encode(|trace|), choseLog[|trace|], CentroidsBefore(|trace|, initialCentroids, trace),
                       PBefore(|trace|, initialP, trace), initialFirst && |trace| == 0, t, LossesOf(entry))
      ensures TraceOk(initialCentroids, initialP, initialFirst, choseLog, trace + [t], lossLog + [entry])
    {
      var trace', lossLog' := trace + [t], lossLog + [entry];
      forall e | 0 <= e < |trace'|
        ensures StepOk(e, initialCentroids, initialP, initialFirst, choseLog, trace', lossLog')
      {
        assert CentroidsBefore(e, initialCentroids, trace') == CentroidsBefore(e, initialCentroids, trace);
        assert PBefore(e, initialP, trace') == PBefore(e, initialP, trace);
        if e < |trace| {
          assert StepOk(e, initialCentroids, initialP, initialFirst, choseLog[..|trace|], trace, lossLog);
          assert choseLog[..|trace|][e] == choseLog[e];
        }
      }
    }

    /** Off a p_interval boundary a step keeps the P its predecessor left; on one, P is recomputed from the new Q. */
    lemma PRecomputedOnlyOnInterval(initialCentroids: Option<Matrix>, initialP: Option<Matrix>, initialFirst: bool,
                                    choseLog: seq<bool>, trace: seq<StepRecord>, lossLog: seq<LossEntry>, e: nat)
      requires |trace| <= |choseLog| && |trace| <= |lossLog|
      requires TraceOk(initialCentroids, initialP, initialFirst, choseLog, trace, lossLog)
      requires e < |trace|
      ensures RecomputesP(e) ==> trace[e].p == engine.calculateP(trace[e].q)
      ensures !RecomputesP(e) && e > 0 ==> trace[e].p == trace[e - 1].p
      ensures !RecomputesP(e) && e == 0 ==> initialP == Some(trace[0].p)
    {
      assert StepOk(e, initialCentroids, initialP, initialFirst, choseLog, trace, lossLog);
    }

    /**
     * The centroid nudge: never on the first interaction, and on every later
     * step exactly when Lc is non-zero.
     */
    lemma NudgeRule(initialCentroids: Option<Matrix>, initialP: Option<Matrix>, initialFirst: bool,
                    choseLog: seq<bool>, trace: seq<StepRecord>, lossLog: seq<LossEntry>, e: nat)
      requires |trace| <= |choseLog| && |trace| <= |lossLog|
      requires TraceOk(initialCentroids, initialP, initialFirst, choseLog, trace, lossLog)
      requires e < |trace|
      ensures e == 0 && initialFirst ==> !trace[0].nudged && CentroidsLeft(engine, trace[0]) == trace[0].centroids
      ensures e > 0 ==> (trace[e].nudged <==> lossLog[e].cLoss != 0.0)
    {
      assert StepOk(e, initialCentroids, initialP, initialFirst, choseLog, trace, lossLog);
    }

    /**
     * A step not asked to choose centroids, or whose strategy name is unknown,
     * works with the centroid set its predecessor left.
     */
    lemma CentroidsCarriedOver(initialCentroids: Option<Matrix>, initialP: Option<Matrix>, initialFirst: bool,
                               choseLog: seq<bool>, trace: seq<StepRecord>, lossLog: seq<LossEntry>, e: nat)
      requires |trace| <= |choseLog| && |trace| <= |lossLog|
      requires TraceOk(initialCentroids, initialP, initialFirst, choseLog, trace, lossLog)
      requires 0 < e < |trace| && (!choseLog[e] || config.findCentroidsAlg !in registry)
      ensures trace[e].centroids == CentroidsLeft(engine, trace[e - 1])
    {
      assert StepOk(e, initialCentroids, initialP, initialFirst, choseLog, trace, lossLog);
    }

    /** A step asked to choose centroids with a known strategy works with that strategy's selection on its Z. */
    lemma CentroidsReselected(initialCentroids: Option<Matrix>, initialP: Option<Matrix>, initialFirst: bool,
                              choseLog: seq<bool>, trace: seq<StepRecord>, lossLog: seq<LossEntry>, e: nat)
      requires |trace| <= |choseLog| && |trace| <= |lossLog|
      requires TraceOk(initialCentroids, initialP, initialFirst, choseLog, trace, lossLog)
      requires e < |trace| && choseLog[e] && config.findCentroidsAlg in registry
      ensures trace[e].centroids == registry[config.findCentroidsAlg](network.encode(e), config.nClusters)
      ensures trace[e].q == engine.calculateQ(trace[e].centroids, network.encode(e))
    {
      assert StepOk(e, initialCentroids, initialP, initialFirst, choseLog, trace, lossLog);
    }

    /**
     * The training part of a run: one loss, loss_log row and recorded step per
     * completed train step, each chose_centroids flag decided by the plateau
     * counter over the losses before it, and every step valid.
     */
    ghost predicate LossesOk(initialCentroids: Option<Matrix>, initialP: Option<Matrix>, initialFirst: bool,
                             choseLog: seq<bool>, losses: seq<real>, lossLog: seq<LossEntry>, trace: seq<StepRecord>)
    {
      && |losses| == |lossLog| == |trace|
      && |losses| <= |choseLog| <= |losses| + 1
      && (forall e :: 0 <= e < |choseLog| ==> choseLog[e] == ChoseCentroids(losses[..e]))
      && TraceOk(initialCentroids, initialP, initialFirst, choseLog, trace, lossLog)
      && (forall e :: 0 <= e < |losses| ==> losses[e] == lossLog[e].loss)
    }

    /** Deciding chose_centroids for the next step by the plateau counter keeps the training part valid. */
    lemma ChoseExtends(initialCentroids: Option<Matrix>, initialP: Option<Matrix>, initialFirst: bool,
                       choseLog: seq<bool>, losses: seq<real>, lossLog: seq<LossEntry>, trace: seq<StepRecord>,
                       chose: bool)
      requires LossesOk(initialCentroids, initialP, initialFirst, choseLog, losses, lossLog, trace)
      requires |choseLog| == |losses| && chose == ChoseCentroids(losses)
      ensures LossesOk(initialCentroids, initialP, initialFirst, choseLog + [chose], losses, lossLog, trace)
    {
      var choseLog' := choseLog + [chose];
      forall e | 0 <= e < |trace|
        ensures StepOk(e, initialCentroids, initialP, initialFirst, choseLog', trace, lossLog)
      {
        assert StepOk(e, initialCentroids, initialP, initialFirst, choseLog, trace, lossLog);
        assert choseLog'[e] == choseLog[e];
      }
      assert losses[..|losses|] == losses;
    }

    /**
     * Recording a completed step that started from the state the trace leaves
     * keeps the training part valid.
     */
    lemma StepAppended(initialCentroids: Option<Matrix>, initialP: Option<Matrix>, initialFirst: bool,
                       choseLog: seq<bool>, losses: seq<real>, lossLog: seq<LossEntry>, trace: seq<StepRecord>,
                       t: StepRecord, entry: LossEntry)
      requires LossesOk(initialCentroids, initialP, initialFirst, choseLog, losses, lossLog, trace)
      requires |choseLog| == |trace| + 1 && entry.epoch == |trace|
      requires StepDid(|trace|, network.encode(|trace|), choseLog[|trace|], CentroidsBefore(|trace|, initialCentroids, trace),
                       PBefore(|trace|, initialP, trace), initialFirst && |trace| == 0, t, LossesOf(entry))
      ensures LossesOk(initialCentroids, initialP, initialFirst, choseLog, losses + [entry.loss], lossLog + [entry],
                       trace + [t])
    {
      assert choseLog[..|trace|] == choseLog[..|choseLog| - 1];
      forall e | 0 <= e < |trace|
        ensures StepOk(e, initialCentroids, initialP, initialFirst, choseLog[..|trace|], trace, lossLog)
      {
        assert StepOk(e, initialCentroids, initialP, initialFirst, choseLog, trace, lossLog);
      }
      TraceExtends(initialCentroids, initialP, initialFirst, choseLog, trace, lossLog, t, entry);
      var losses' := losses + [entry.loss];
      forall e | 0 <= e < |choseLog| ensures choseLog[e] == ChoseCentroids(losses'[..e]) {
        assert losses'[..e] == losses[..e];
      }
    }

    /**
     * The object holds the state the recorded steps leave: the initial Q,
     * centroid set, P and first-interaction flag while there are none, and
     * afterwards the Q, P and centroid set the last one left, with the first
     * interaction over.
     */
    ghost predicate Continues(initialQ: Option<Matrix>, initialCentroids: Option<Matrix>, initialP: Option<Matrix>,
                              initialFirst: bool, trace: seq<StepRecord>)
      reads this
    {
      && clustersCentroids == CentroidsBefore(|trace|, initialCentroids, trace)
      && P == PBefore(|trace|, initialP, trace)
      && firstInteraction == (initialFirst && |trace| == 0)
      && (|trace| == 0 ==> Q == initialQ)
      && (|trace| > 0 ==> Q == Some(trace[|trace| - 1].q))
    }

    /**
     * The training half of an epoch of run_training, for the epoch |losses|:
     * the reselection check on the plateau counter, the train step, and the
     * counter update. Fails, recording no step, when the step finds no
     * centroids, which happens only at epoch 0 with an unknown strategy and no
     * earlier centroid set.
     */
    method TrainEpoch(counter: nat, loss: real, losses: seq<real>, lossLog: seq<LossEntry>,
                      ghost initialQ: Option<Matrix>, ghost initialCentroids: Option<Matrix>,
                      ghost initialP: Option<Matrix>, ghost initialFirst: bool,
                      ghost choseLog: seq<bool>, ghost trace: seq<StepRecord>)
      returns (ok: bool, counter': nat, loss': real, losses': seq<real>, lossLog': seq<LossEntry>,
               ghost choseLog': seq<bool>, ghost trace': seq<StepRecord>, ghost record: StepRecord)
      modifies this
      requires counter == CounterAt(losses) && loss == PastLoss(losses)
      requires |choseLog| == |losses|
      requires LossesOk(initialCentroids, initialP, initialFirst, choseLog, losses, lossLog, trace)
      requires Continues(initialQ, initialCentroids, initialP, initialFirst, trace)
      ensures !ok <==> |losses| == 0 && config.findCentroidsAlg !in registry && initialCentroids.None?
      ensures !ok ==> losses' == losses && lossLog' == lossLog && trace' == trace
      ensures ok ==> |losses'| == |losses| + 1 && counter' == CounterAt(losses') && loss' == PastLoss(losses')
      ensures ok ==> trace' == trace + [record] && Q == Some(record.q)
      ensures |choseLog'| == |losses| + 1
      ensures LossesOk(initialCentroids, initialP, initialFirst, choseLog', losses', lossLog', trace')
      ensures Continues(initialQ, initialCentroids, initialP, initialFirst, trace')
    {
      var epoch := |losses|;
      var chose := false;
      counter' := counter;
      // first iteration, or loss not improving: choose centroids (again)
      if epoch == 0 || counter' == NOT_IMPROVING_LIMIT {
        if RECHOSE_CENTROIDS {
          chose := true;
        }
        counter' := 0;
      }
      var pastLoss := loss;
      ChoseExtends(initialCentroids, initialP, initialFirst, choseLog, losses, lossLog, trace, chose);
      choseLog' := choseLog + [chose];

      var z := network.encode(epoch);
      ghost var inUse := CentroidsInUse(chose, z);
      var step, nudged := TrainNetwork(epoch, chose, z);
      if step.None? {
        // no step is recorded; `record` is unused
        ok, loss', losses', lossLog', trace', record := false, loss, losses, lossLog, trace, StepRecord([], [], [], false);
        return;
      }
      loss' := step.value.loss;

      // is the loss lowering?
      if loss' >= pastLoss {
        counter' := counter' + 1;
      } else {
        counter' := 0;
      }
      record := StepRecord(inUse.value, Q.value, P.value, nudged);
      var entry := LossEntry(epoch, loss', step.value.cLoss, step.value.gaeLoss);
      assert LossesOf(entry) == step.value;
      StepAppended(initialCentroids, initialP, initialFirst, choseLog', losses, lossLog, trace, record, entry);
      losses' := losses + [loss'];
      lossLog' := lossLog + [entry];
      trace' := trace + [record];
      assert losses'[..epoch] == losses;
      ok := true;
    }

    /**
     * run_training: the epoch loop. The logs and the ghost traces have one
     * entry per completed train step, in epoch order; choseLog[e] is the
     * chose_centroids flag passed to the step of epoch e (it has one more entry
     * when that step aborted), trace[e] records what the step did, and
     * labelsLog[e] holds the hard labels derived from its Q.
     */
    method RunTraining()
      returns (outcome: Outcome, losses: seq<real>, lossLog: seq<LossEntry>, metricsLog: seq<MetricsEntry>,
               bestNmi: BestRecord, bestAri: BestRecord, bestMod: BestRecord,
               ghost choseLog: seq<bool>, ghost trace: seq<StepRecord>, ghost labelsLog: seq<seq<nat>>)
      modifies this
      // exactly `epochs` iterations unless the run aborts
      ensures outcome.Finished? ==> |losses| == config.epochs && |metricsLog| == config.epochs
      ensures outcome.Aborted? ==> outcome.epoch < config.epochs
      ensures outcome.Aborted? && outcome.reason == CentroidsMissing ==>
        |losses| == outcome.epoch && |metricsLog| == outcome.epoch
      ensures outcome.Aborted? && outcome.reason == EmptyAssignmentRow ==>
        |losses| == outcome.epoch + 1 && |metricsLog| == outcome.epoch
      ensures |labelsLog| == |metricsLog|
      ensures |choseLog| == if outcome == Aborted(|losses|, CentroidsMissing) then |losses| + 1 else |losses|
      // the abort on missing centroids: only at epoch 0, exactly for an unknown strategy and no earlier centroids
      ensures (outcome.Aborted? && outcome.reason == CentroidsMissing) <==>
        (config.epochs > 0 && config.findCentroidsAlg !in registry && old(clustersCentroids).None?)
      ensures outcome.Aborted? && outcome.reason == CentroidsMissing ==> outcome.epoch == 0
      // every completed step did what __train_network does, with centroid (re)selection
      // decided by the plateau counter over the losses so far
      ensures LossesOk(old(clustersCentroids), old(P), old(firstInteraction), choseLog, losses, lossLog, trace)
      // hard labels, metrics and best records
      ensures outcome.Aborted? && outcome.reason == EmptyAssignmentRow ==>
        exists i :: 0 <= i < |trace[outcome.epoch].q| && |trace[outcome.epoch].q[i]| == 0
      ensures MetricsOk(metrics, trace, metricsLog, labelsLog, bestNmi, bestAri, bestMod)
      // the object state left behind
      ensures Continues(old(Q), old(clustersCentroids), old(P), old(firstInteraction), trace)
    {
      losses, lossLog, metricsLog := [], [], [];
      bestNmi, bestAri, bestMod := INITIAL_BEST, INITIAL_BEST, INITIAL_BEST;
      choseLog, trace, labelsLog := [], [], [];
      outcome := Finished;
      var counter: nat := 0;
      var loss: real := 0.0;
      var epoch: nat := 0;
      ghost var q0, c0, p0, f0 := Q, clustersCentroids, P, firstInteraction;
      while epoch < config.epochs
        invariant epoch <= config.epochs
        invariant |losses| == epoch && |metricsLog| == epoch && |choseLog| == epoch
        invariant counter == CounterAt(losses) && loss == PastLoss(losses)
        invariant epoch > 0 ==> !(config.findCentroidsAlg !in registry && c0.None?)
        invariant LossesOk(c0, p0, f0, choseLog, losses, lossLog, trace)
        invariant MetricsOk(metrics, trace, metricsLog, labelsLog, bestNmi, bestAri, bestMod)
        invariant Continues(q0, c0, p0, f0, trace)
      {
        var ok;
        ghost var traceBefore := trace;
        ghost var record;
        ok, counter, loss, losses, lossLog, choseLog, trace, record :=
          TrainEpoch(counter, loss, losses, lossLog, q0, c0, p0, f0, choseLog, trace);
        if !ok {
          outcome := Aborted(epoch, CentroidsMissing);
          return;
        }
        ok, metricsLog, labelsLog, bestNmi, bestAri, bestMod :=
          ReportEpoch(metrics, Q.value, traceBefore, record, metricsLog, labelsLog, bestNmi, bestAri, bestMod);
        if !ok {
          outcome := Aborted(epoch, EmptyAssignmentRow);
          return;
        }
        epoch := epoch + 1;
      }
    }
  }
}
