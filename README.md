# Co-training runner of a GAT graph auto-encoder with a centroid-based clustering loss

This project models the control logic of the co-training loop that trains a
graph auto-encoder together with a set of cluster centroids, and two of the
centroid strategies that seed it:

- **The runner** (`GaeRunner`, module `Runner`) is a class with the fields the
  source updates in place: the soft assignment `Q`, the target distribution
  `P`, the centroid set and the first-interaction flag.
  - `FindCentroids` replaces the centroid set through the strategy registry. It
    leaves the set unchanged when the strategy name is unknown.
  - `TrainNetwork` is one train step. It may (re)select centroids. It aborts
    when there are none. It recomputes `Q` on every step, but `P` only when
    `epoch % p_interval == 0`. It nudges the centroids only when this is not
    the first interaction and the clustering loss Lc is non-zero.
  - `RunTraining` is the epoch loop. It keeps the not-improving counter and
    the one-shot `chose_centroids` flag, and logs losses and metrics. It
    derives hard labels by a per-row argmax and keeps the best NMI, ARI and
    modularity records, each replaced only on a strictly better value.
  - The loop body is split into `TrainEpoch` (the reselection check, the train
    step and the counter update) and `ReportEpoch` (labels, metrics and
    records).
- **Training control** (module `TrainingControl`) is pure. It holds the
  functions behind those decisions: the counter as a function of the losses
  so far, when centroids are chosen again, the best-record fold and
  `np.argmax`. The lemmas say what they guarantee.
- **Random seeds** (module `RandomSeeds`) is the random draw of `n_clusters`
  distinct node indices from `[1, len(Z))`. It is modelled as a
  nondeterministic choice among all valid samples, followed by the row gather.
  The draw fails exactly when no valid sample exists.
- **Weighted betweenness** (module `WeightedBetweenness`) starts once every
  node's score is known. It models `heapq.nlargest` over the score dict as a
  stable descending sort of the dict's items truncated to `n`. Then it takes
  the node ids and gathers their rows of Z.
- **`Embedding`** holds the matrix types and the gather loop both strategies
  end with. **`Wrappers`** holds `Option`/`Result`.

The collaborators are given as total functions, and only their use is modelled:

| collaborator | modelled as |
|---|---|
| encoder forward pass | `Network.encode(epoch)`, the embedding Z of that epoch |
| reconstruction loss | `Network.reconLoss(epoch, Z)`: it draws its own random negative edges, so it depends on the epoch as well as on Z |
| `calculate_q`, `calculate_p`, `kl_div_loss`, `update_clusters_centers` | fields of `LossEngine` |
| the autograd gradient of Q | `LossEngine.qGrad` |
| modularity, NMI and ARI of a labelling | fields of `Metrics` |
| each registered centroid strategy | a function `(Z, n_clusters) -> centroids` |

The source's placeholder `0` for `Q` and `P` before the first step is
`None`. Python floats are `real`.

The first interaction is a persistent flag on the object, not the test
`epoch == 0`, so a second `run_training` call on the same object never skips
the nudge on its first step. When the counter reaches the limit it is reset whether or not
`RECHOSE_CENTROIDS` is set; only `chose_centroids` depends on that flag.

## Model

| member | source | states |
|---|---|---|
| Embedding.GatherRows | centroids_finder/random_seeds.py:10-16 | the result holds, in order, the rows of Z named by the selected indices, one per index |
| RandomSeeds.SelectCentroids | centroids_finder/random_seeds.py:5-16 | fails exactly when n_clusters exceeds max(0, len(Z)-1), the size of range(1, len(Z)); otherwise the result is the rows of Z at some n_clusters distinct indices, all in [1, len(Z)) |
| RandomSeeds.SampleExists | centroids_finder/random_seeds.py:8 | whenever n does not exceed max(0, len(Z)-1), the indices 1..n are a valid sample |
| RandomSeeds.SampleBounded | centroids_finder/random_seeds.py:8 | pigeonhole: a valid sample has at most max(0, len(Z)-1) elements, so the draw fails only when no sample exists |
| WeightedBetweenness.PrecedesIsStrictTotalOrder | centroids_finder/weighted_betweenness_centrality.py:39 | output order (score descending, then dict order) is irreflexive, total and transitive on item positions |
| WeightedBetweenness.InsertRanked | centroids_finder/weighted_betweenness_centrality.py:39 | inserting a new position into a ranked list keeps it ranked |
| WeightedBetweenness.RankPrefixRanked | centroids_finder/weighted_betweenness_centrality.py:39 | the stable sort of the first m items lists them in output order |
| WeightedBetweenness.NLargest | centroids_finder/weighted_betweenness_centrality.py:39 | nlargest returns min(n, number of items) items, each one of the dict's items |
| WeightedBetweenness.TopPositionsAreStableTopN | centroids_finder/weighted_betweenness_centrality.py:39 | the chosen items are in output order, and every item left out is preceded by every chosen one |
| WeightedBetweenness.NLargestNonIncreasing | centroids_finder/weighted_betweenness_centrality.py:39 | the output scores never increase |
| WeightedBetweenness.NLargestDominates | centroids_finder/weighted_betweenness_centrality.py:39 | every chosen item scores at least as high as every item left out |
| WeightedBetweenness.NLargestTiesPreferEarlier | centroids_finder/weighted_betweenness_centrality.py:39 | on equal scores an item is chosen only if every earlier item with that score is chosen too |
| WeightedBetweenness.NLargestTiesKeepOrder | centroids_finder/weighted_betweenness_centrality.py:39 | chosen items with equal scores appear in dict order |
| WeightedBetweenness.CentroidNodes | centroids_finder/weighted_betweenness_centrality.py:40 | the centroid list has min(n, number of items) node ids, each a key of the score dict |
| WeightedBetweenness.CentroidNodesDistinct | centroids_finder/weighted_betweenness_centrality.py:40 | the chosen node ids are pairwise distinct |
| WeightedBetweenness.PathGraphExample | centroids_finder/weighted_betweenness_centrality.py:37-40 | on the five-node path graph the three centroids are nodes 2, 1, 3 (the tie between 1 and 3 goes to the earlier item) |
| WeightedBetweenness.SelectCentroids | centroids_finder/weighted_betweenness_centrality.py:39-48 | the result has min(n_clusters, number of nodes) rows, and they are, in order, the rows of Z of the top-scoring nodes |
| TrainingControl.CounterBounded | runners/gae_runner.py:135-153 | the not-improving counter never exceeds NOT_IMPROVING_LIMIT (100) and is below it after the check |
| TrainingControl.CounterMeansStall | runners/gae_runner.py:149-153 | a counter of at least k means each of the last k epochs had a loss no lower than the one before |
| TrainingControl.StallCounts | runners/gae_runner.py:135-153 | after a reset, k ≤ 100 consecutive non-improving epochs make the counter exactly k |
| TrainingControl.StallTriggersReselection | runners/gae_runner.py:135-138 | 100 non-improving epochs after a reset make the next epoch choose centroids again and reset the counter |
| TrainingControl.ReselectionNeedsStall | runners/gae_runner.py:135-138 | after epoch 0, an epoch that chooses centroids was preceded by 100 non-improving epochs |
| TrainingControl.ImprovementResets | runners/gae_runner.py:150-153 | an epoch whose loss drops below the previous loss leaves the counter at 0 |
| TrainingControl.UpdateBest | runners/gae_runner.py:176-186 | a strictly greater value replaces the record with (this epoch, this value); otherwise the record stays, so a tie never replaces it |
| TrainingControl.BestOfIsFirstMaximum | runners/gae_runner.py:123-125 | the final record holds max(0.0, all values); when positive, its epoch is the first epoch reaching that value; otherwise it is the initial record (epoch 0, value 0.0) |
| TrainingControl.BestOfExample | runners/gae_runner.py:176-178 | the values 0.2, 0.5, 0.3, 0.7, 0.4 end in the record (epoch 3, 0.7) |
| TrainingControl.ArgMax | runners/gae_runner.py:164-165 | the label of a non-empty row is the first index of a largest entry |
| TrainingControl.FirstArgMaxUnique | runners/gae_runner.py:165 | that index is unique, so a row has exactly one hard label |
| Runner.HardLabels | runners/gae_runner.py:162-165 | fails exactly when some row of Q is empty (np.argmax raises); otherwise one label per row, in row order, each the row's first argmax |
| Runner.MetricsExtend | runners/gae_runner.py:167-186 | logging an epoch's labelling adds its metrics row and replaces each best record exactly on a strict improvement, keeping the records equal to the running best |
| Runner.MetricsTraceGrows | runners/gae_runner.py:162-170 | recording a new step leaves the earlier metrics rows valid |
| Runner.ReportEpoch | runners/gae_runner.py:162-186 | fails exactly when Q has an empty row, logging nothing; otherwise it logs the labels and metrics of that Q and keeps the best records equal to the running best |
| Runner.GaeRunner.constructor | runners/gae_runner.py:58-76 | a new runner has no Q, no P, no centroids, and firstInteraction set |
| Runner.GaeRunner.FindCentroids | runners/gae_runner.py:264-278 | a known strategy replaces the centroid set with its selection on Z; an unknown name leaves the set unchanged |
| Runner.GaeRunner.TrainNetwork | runners/gae_runner.py:219-262 | aborts, changing nothing else, exactly when no centroids are in use after the optional selection; otherwise Q is recomputed from the centroids and Z, P only when epoch % p_interval == 0 (else the old P is kept), the losses are gae + γ·Lc, Lc and gae, the nudge runs iff not the first interaction and Lc ≠ 0, and the first interaction is over |
| Runner.GaeRunner.TraceExtends | runners/gae_runner.py:219-262 | appending a step that starts from the state the trace leaves keeps every recorded step valid |
| Runner.GaeRunner.ChoseExtends | runners/gae_runner.py:135-138 | deciding chose_centroids from the plateau counter over the losses so far keeps the training log valid |
| Runner.GaeRunner.StepAppended | runners/gae_runner.py:143-157 | logging a completed step (losses and loss_log row) keeps the training log valid |
| Runner.GaeRunner.PRecomputedOnlyOnInterval | runners/gae_runner.py:241-242 | on a p_interval boundary P is recomputed from the new Q; off one, the step keeps the previous P |
| Runner.GaeRunner.NudgeRule | runners/gae_runner.py:252-255 | the first interaction never nudges the centroids; every later step nudges exactly when Lc ≠ 0 |
| Runner.GaeRunner.CentroidsCarriedOver | runners/gae_runner.py:229-239 | a step not choosing centroids, or with an unknown strategy name, works with the centroids the previous step left |
| Runner.GaeRunner.CentroidsReselected | runners/gae_runner.py:229-239 | a step choosing centroids with a known strategy works with that strategy's selection on this epoch's Z, and computes Q from it |
| Runner.GaeRunner.TrainEpoch | runners/gae_runner.py:135-157 | the reselection check, the train step and the counter update: fails only at epoch 0 with an unknown strategy and no earlier centroids, leaving Q, P, the flag and the (absent) centroids as they were; otherwise it logs the step, and the counter and last loss become the functions of the new loss list |
| Runner.GaeRunner.RunTraining | runners/gae_runner.py:119-186 | runs `epochs` iterations unless it aborts; it aborts on missing centroids exactly at epoch 0 with an unknown strategy and no centroids, and on an empty row of Q; every logged step did what the train step does, with chose_centroids given by the plateau counter; hard labels, metrics and best records as the running best; the object holds the state the last step left, or its initial Q, P, centroids and flag when no step completed (epochs = 0, or the abort at epoch 0) |

## Left out

- The neural network itself is out of scope: the GAT encoder, the Adam optimizer, the StepLR schedule and backpropagation. What they produce is a given function of the epoch, because the model covers only the loop's control logic.
- The formulas of the clustering loss are out of scope (`calculate_q`, `calculate_p`, `kl_div_loss`, `update_clusters_centers` and its step size 0.001). They are opaque functions; the module that defines them is not part of this model.
- Floating point rounding, NaN and tensor types are not modelled: losses and metrics are exact reals.
- Weighted betweenness: the graph construction, the cosine distances, the edge weights and networkx's betweenness computation are not modelled. The model starts from the score dict, which is an input (its items in iteration order), because those are external library computations.
- Modularity, NMI and ARI are opaque functions of the labelling, because they are library calls.
- Logging, plotting, the CSV writers and the command-line entry point (`run.py`) are not modelled, because they are I/O.
- Runner.GaeRunner.RunTraining: does not model the returned `(data, att_tuple)` or the attention weights, because they only feed plotting and the caller.
- Runner.GaeRunner.FindCentroids: registry strategies are total deterministic functions of (Z, n_clusters). The random-seeds strategy draws afresh on every call, but this is harmless here: each recorded step keeps the centroid set it actually used, and no proved property compares two reselections. With Z fixed, a deterministic strategy still stands for some draw, so every statement about one step holds whatever the draw was. An exception raised inside a strategy (for example `random.sample` with too large a sample, which `RandomSeeds.SelectCentroids` models as a `Failure`) is not propagated through the runner. The registry's other strategies are not modelled.
- RandomSeeds.SelectCentroids: the draw is a nondeterministic choice among all valid samples. It does not model the probability distribution of `random.sample`, because randomness is outside the verifier.
- RandomSeeds.SelectCentroids and WeightedBetweenness.SelectCentroids: `n_clusters` is a natural number. A negative value, which makes `random.sample` raise and `heapq.nlargest` return an empty list, is not modelled.
- WeightedBetweenness.SelectCentroids: requires every scored node to be a row of Z. In the source this holds because the graph's nodes are the row indices of the data.
- `p_interval` is any non-zero integer in the configuration. A negative value is kept: `epoch % p_interval == 0` holds exactly when its absolute value divides the epoch, both in Python and under Dafny's Euclidean `%`. The value 0, where `epoch % p_interval` raises ZeroDivisionError, is excluded by the type.
- Runner.GaeRunner.TrainNetwork: requires P to be defined on steps that do not recompute it. `RunTraining` meets this because epoch 0 always recomputes P; calling it directly otherwise would pass the placeholder `0` to the loss.
