# Model of an event-driven retrieval pipeline

The repository keeps a library of posts in sync, cuts their text into chunks, embeds the chunks on a GPU
worker or a remote embedder, and answers searches and folder suggestions from the embeddings. Most of it is
plumbing between Postgres, RabbitMQ and the models. This project models the parts that carry state, loops or
arithmetic, and proves what they keep over every input and every run.

| module | what it models |
|---|---|
| `Vectors`, `KMeans`, `Mmr`, `Folder`, `Suggest`, `Suggestions` | folder scoring: spherical k-means, silhouette, the theme profile, neighbour density, maximal marginal relevance, suggestions |
| `Text`, `Breaks`, `Chunker`, `ChunkLoops` | words and whitespace as Python sees them, marker search, the boundary chunker, and inputs on which it never ends |
| `Guard`, `Redelivery`, `RedeliveryRuns` | the marker files that stop a killed local run from being retried for ever, and what becomes of its tasks |
| `Broker`, `Worker`, `Scans`, `GpuWorker` | one worker's channel to the broker, the settling of a batch, the priority scan and its accounts, and the warm model |
| `Grouping`, `Embedding`, `Requeue` | dictionary grouping, the embed handler and the chunk rows it writes, the recovery scan |
| `EventBus` | the Postgres event log, polling consumers and their offsets |
| `Freshness` | upserts by `updated_at` as separate check and write steps |
| `Rechunk`, `RechunkRuns` | changed fields, dispatch, hash-deduplicated chunk storage, and every interleaving of them |
| `TableNames` | building and parsing chunk table names under the 63-character limit |
| `Search`, `SearchRuns`, `SearchEnds` | rerank re-alignment, the stable ranking, the job pipeline, and when an ended job stays as it is |
| `Manager` | the remote embedder's model manager |

`Basics` holds a few shared definitions.

## How the outside world is modelled

- Floating-point arithmetic is exact real arithmetic. A norm is any function with `norm(v) >= 0` and
  `norm(v) * norm(v) == Dot(v, v)`. The k-means++ seeds are an arbitrary choice of rows.
- SQL statements are atomic operations on maps and sequences. Rows come back in any order the statement allows.
- Encoders, rerankers, loaders, clocks and the database's answers are parameters that may fail. A model kill, a
  crash or a lost connection is a step that can come between any two others.
- Text hashes are taken to be injective, so stored hashes are modelled by the stored texts.

Hypotheses that the code needs and does not check:

- Chunker (`Chunker.Fits`): in each cutting iteration the search window starts ahead of the cursor and the
  repeated prefix has at most `hard_limit` words. `Chunker.StepAdvancesIff` says exactly which iterations move
  the cursor forward, back or not at all. Without overlap the hypothesis follows from a positive limit and a
  target that leaves a word once the tolerance is taken off (`Chunker.NoOverlapAlwaysFits`), with any overlap
  the window part follows from a tolerance of at most 0.9 (`Chunker.NineTenthsIsEnough`; every caller uses
  0.20). `ChunkLoops` gives an input for each part on which the loop never ends.
- Guard: one process owns the guard directory, runs of one model do not overlap, and sanitised model names differ.
- Event bus: one live consumer per group and topic.
- Embedding: an encoder that answers gives one vector per text, each depending on its own text only.
- Broker: messages returned after a lost connection go to the front of their queue.
- Remote manager: calls are serialised, as they are by its lock, and the clock does not go back.

Where code and documentation disagree, the model follows the code:

- The docstring of the event bus's `subscribe` promises at-least-once delivery; the offset is committed before
  the yield, so delivery is at most once (`EventBus.CrashLosesTheEventInHand`).
- The repositories' docstrings tie "inserted" and "updated" to what was stored; with concurrent upserts the
  guarded write may store nothing and the status is still reported (`Freshness.InsertedMayStoreNothing`), exactly
  when a version at least as new is written in between (`Freshness.StoredNothingIff`).
- A search job reads as finished once it is "complete"; a completion event that cannot be published turns it to
  "failed" afterwards, and so can a redelivered task (`SearchEnds.PublishFailureUndoes`,
  `SearchEnds.RedeliveryCanUndo`, `SearchEnds.EndedStaysIff`).
- The embed handler's docstring says that it returns the done and the failed tasks; a task without rows in a
  batch in which another task has rows is returned as neither and stays outstanding, and so does, when nothing
  is embedded, a task that equals by value one whose fetch failed (`Embedding.SettledIff`).
- The embed handler's comment says that tasks acknowledged for want of a backend leave rows without embedding for
  the recovery scan; rows that an earlier delivery saved before the process died keep their vectors
  (`RedeliveryRuns.StruckAfterSaving`, `Redelivery.StruckRowsIff`).

## Model

| member | source | states |
|---|---|---|
| `Vectors.CauchySchwarz` | src/event_driven_rag_service/services/folder_scoring.py:89-94 | No vector of the unit ball has a larger dot product with s than the length of s; the fact behind the centroid update. |
| `Vectors.NormaliseFacts` | src/event_driven_rag_service/services/folder_scoring.py:29-36 | A normalised row lies in the unit ball and points along the original; a zero row stays as it is. |
| `KMeans.BestIndex` | src/event_driven_rag_service/services/folder_scoring.py:84-85 | The label of an item is the first centroid of greatest similarity. |
| `KMeans.WorstFit` | src/event_driven_rag_service/services/folder_scoring.py:91-92 | An empty cluster restarts at an item whose best similarity is least. |
| `KMeans.NextCentroidServesMembers` | src/event_driven_rag_service/services/folder_scoring.py:89-94 | A recomputed or re-seeded centroid serves its members at least as well as the old one and stays in the unit ball. |
| `KMeans.ObjectiveNeverFalls` | src/event_driven_rag_service/services/folder_scoring.py:83-95 | The total best similarity never falls in an iteration, re-seeding of empty clusters included. |
| `KMeans.RunNeverWorseThanSeed` | src/event_driven_rag_service/services/folder_scoring.py:83-95 | A whole run scores at least as well as its starting centroids, for any number of iterations. |
| `KMeans.UpdateCentroids` | src/event_driven_rag_service/services/folder_scoring.py:89-94 | The in-place update writes every centroid from the similarities taken before the update. |
| `KMeans.RunFromSeed` | src/event_driven_rag_service/services/folder_scoring.py:81-94 | The loop that stops when labels settle computes the bounded Lloyd iteration. |
| `KMeans.NextCentroidIs` | src/event_driven_rag_service/services/folder_scoring.py:89-94 | A recomputed centroid is the coordinate-wise sum of its members divided by its norm; an empty cluster restarts at the first item whose best similarity is least. |
| `KMeans.LloydIs` | src/event_driven_rag_service/services/folder_scoring.py:83-94 | A run is a sequence of rounds of relabelling and moving, as many as allowed or until the labels settle. |
| `KMeans.FirstRoundMoves` | src/event_driven_rag_service/services/folder_scoring.py:80-88 | A run starts from the rows of its seed, and its first round always moves the centroids. |
| `KMeans.BestRestart` | src/event_driven_rag_service/services/folder_scoring.py:78-99 | The run kept scores at least as high as every restart and higher than those before it. |
| `KMeans.BestRunIsGood` | src/event_driven_rag_service/services/folder_scoring.py:78-99 | The best of any restarts labels every item in range, has unit-ball centroids, and scores no worse than any seed. |
| `KMeans.SphericalKMeans` | src/event_driven_rag_service/services/folder_scoring.py:72-99 | The result is that best run on the normalised rows. |
| `Folder.SilhouetteInUnitRange` | src/event_driven_rag_service/services/folder_scoring.py:102-118 | For any non-negative distances and any labels the silhouette lies in [-1, 1]. |
| `Folder.MeanSilhouette` | src/event_driven_rag_service/services/folder_scoring.py:102-118 | The two loops compute the mean of the per-item scores, each of which, times max(a, b, 1e-12), is b - a, for a the mean clipped cosine distance to the rest of the own cluster and b the least mean distance to another. |
| `Folder.SilhouetteIs` | src/event_driven_rag_service/services/folder_scoring.py:102-118 | That is what the silhouette of any vectors and labels is, in sums over the vectors and labels alone; zero for an item alone in its cluster. |
| `Folder.SignOfSilhouette` | src/event_driven_rag_service/services/folder_scoring.py:115-118 | If every item is nearer on average to its own cluster than to any other the silhouette is above zero; if every item is nearer to some other cluster it is below. |
| `Folder.SizesSumToAll` | src/event_driven_rag_service/services/folder_scoring.py:156-156 | Cluster sizes sum to the number of items when labels are in range. |
| `Folder.TryThemes` | src/event_driven_rag_service/services/folder_scoring.py:155-161 | A split is offered exactly when no cluster has fewer than two items, with labels in range, sizes that sum up and its own silhouette. |
| `Folder.BestSplit` | src/event_driven_rag_service/services/folder_scoring.py:153-161 | The loop over k keeps an admissible trial of greatest silhouette, or none if none is admissible. |
| `Folder.BuildProfile` | src/event_driven_rag_service/services/folder_scoring.py:121-164 | The profile is one theme, or the first admissible split of greatest silhouette among all admissible trials, if it clears the floor; one theme is returned only if no admissible trial clears the floor. |
| `Folder.CapIsGreatest` | src/event_driven_rag_service/services/folder_scoring.py:149-150 | The cap is the greatest number of themes within the limit for which all could have the least size. |
| `Folder.AdmissibleIff` | src/event_driven_rag_service/services/folder_scoring.py:156-158 | A split is admissible exactly when every cluster has at least two items. |
| `Folder.SumRowsAt` | src/event_driven_rag_service/services/folder_scoring.py:142-144 | The centroid of a single theme points along the coordinate-wise sum of all items. |
| `Suggest.HeatBetween` | src/event_driven_rag_service/services/folder_scoring.py:178-203 | Weighted heat lies between the least and the greatest similarity of the chosen neighbours, and no folder item is more similar than the first of them. |
| `Suggest.Density` | src/event_driven_rag_service/services/folder_scoring.py:189-203 | max(1, min(knn, n)) neighbours are chosen, nearest first, and the heat is their weighted mean, between the similarities of the last and the first. |
| `Suggest.HeatIsWeightedMean` | src/event_driven_rag_service/services/folder_scoring.py:195-203 | Heat times the sum of the weights is the sum of the weighted similarities. |
| `Suggest.AvoidPenalty` | src/event_driven_rag_service/services/folder_scoring.py:206-215 | The penalty is the strength times the greatest similarity to an avoided story, or nothing if none is above zero; it is never negative. |
| `Suggest.NearestIsGreatestSum` | src/event_driven_rag_service/services/folder_scoring.py:191-199 | No other choice of as many folder items has a greater sum of similarities. |
| `Mmr.Raise` | src/event_driven_rag_service/services/folder_scoring.py:241-241 | The maximum kept incrementally equals the maximum recomputed over all selected items. |
| `Mmr.PickNext` | src/event_driven_rag_service/services/folder_scoring.py:236-239 | The next pick is new and optimal among the unchosen, the earliest on ties. |
| `Mmr.Pick` | src/event_driven_rag_service/services/folder_scoring.py:226-242 | min(k, n) distinct picks, each optimal when it was made. |
| `Mmr.Select` | src/event_driven_rag_service/services/folder_scoring.py:218-242 | The same for cosine similarity of normalised candidates: at each later pick no candidate left over has a greater lambda * heat - (1 - lambda) * (greatest similarity to what was picked before). |
| `Mmr.LessSimilarFirst` | src/event_driven_rag_service/services/folder_scoring.py:236-239 | With lambda below 1 a candidate is never passed over for one of equal heat that is more similar to what was picked. |
| `Mmr.PureHeatIsTopK` | src/event_driven_rag_service/services/folder_scoring.py:221-224 | With lambda = 1 the picks are the top k by heat in non-increasing order. |
| `Suggestions.Gather` | src/event_driven_rag_service/services/folder_suggestion.py:142-147 | One row per post, none excluded, every post some theme query returned, and no row no query returned. |
| `Suggestions.EveryRatedPostExcluded` | src/event_driven_rag_service/services/folder_suggestion.py:124-142 | Exactly the folder posts and the posts with any verdict are excluded; exactly the folder posts and those marked yes or very yes are positives. |
| `Suggestions.RankingHeat` | src/event_driven_rag_service/services/folder_suggestion.py:171-178 | A candidate is ranked by the density among its nearest folder stories, "very yes" counting double, less the penalty for being like a "very no". |
| `Suggestions.PenaltyLowersHeat` | src/event_driven_rag_service/services/folder_suggestion.py:171-178 | Half the greatest similarity to a "very no" story, if above zero, is taken off the weighted mean over the nearest folder stories. |
| `Suggestions.SimsAreCosines` | src/event_driven_rag_service/services/folder_scoring.py:189-190 | The similarities used are cosines. |
| `Suggestions.NoDiversityIsTopK` | src/event_driven_rag_service/services/folder_suggestion.py:178-178 | With diversity 0 the suggestions are the hottest candidates, hottest first. |
| `Suggestions.SuggestForFolder` | src/event_driven_rag_service/services/folder_suggestion.py:124-197 | Profile, gathering, heat and pick composed: suggestions are the greedy picks by ranking heat among the rows found near the folder's own themes; at most k, distinct, disjoint from the folder and every rated post; an empty folder is reported exactly when no positive post has an embedding. |
| `Breaks.BreaksAreExact` | src/event_driven_rag_service/utils/chunk_strategies.py:36-46 | The break positions are exactly the ends of all occurrences, overlapping ones included, ascending. |
| `Breaks.FindBreaks` | src/event_driven_rag_service/utils/chunk_strategies.py:36-46 | The loop over `find` computes them. |
| `Breaks.NearestBreak` | src/event_driven_rag_service/utils/chunk_strategies.py:49-65 | A closest break inside the window of the first marker that has one; None exactly when no marker has one. |
| `Breaks.NearestBreakIs` | src/event_driven_rag_service/utils/chunk_strategies.py:49-65 | The break found is the closest end, the earlier of two, of the first marker that ends in the window; none is found exactly when no marker ends there. |
| `Breaks.FractionStopsAtWord` | src/event_driven_rag_service/utils/chunk_strategies.py:68-92 | For a text with a word and a proper fraction the scan stops at the end of a word with exactly max(1, target) words before it. |
| `Breaks.CharForWordFraction` | src/event_driven_rag_service/utils/chunk_strategies.py:68-92 | The nested scanning loops compute that position, clamped for other fractions. |
| `Text.WordsKeepNonSpace` | src/event_driven_rag_service/utils/chunk_strategies.py:154-156 | Splitting into words loses whitespace only. |
| `Text.WordsOfJoin` | src/event_driven_rag_service/utils/chunk_strategies.py:154-156 | Joining words by blanks and splitting them again gives the same words. |
| `Text.StripIs` | src/event_driven_rag_service/utils/chunk_strategies.py:152-152 | Stripping takes whitespace off both ends and nothing else. |
| `Chunker.StepAdvancesIff` | src/event_driven_rag_service/utils/chunk_strategies.py:168-210 | A cutting iteration moves the cursor forward exactly when the overlap prefix has fewer than hard_limit words and the marker found, if any, lies ahead; the cut then stays inside the text and within (hard_limit - overlap words) times the average word length. With a window that starts ahead, a prefix of exactly hard_limit words leaves the cursor in place and a longer one moves it back. |
| `Chunker.NineTenthsIsEnough` | src/event_driven_rag_service/utils/chunk_strategies.py:172-175 | With a tolerance of at most 0.9 the window starts ahead of the cursor whatever the target. |
| `Chunker.PrefixRepeatsTail` | src/event_driven_rag_service/utils/chunk_strategies.py:145-158 | On the snapped and on the word-count path the prefix is, up to whitespace, a suffix of the previous slice. |
| `Chunker.RunIsSound` | src/event_driven_rag_service/utils/chunk_strategies.py:140-212 | The slices of a run tile the text from the cursor to its end, keep the size limits and repeat only tails. |
| `Chunker.TilesKeepText` | src/event_driven_rag_service/utils/chunk_strategies.py:205-212 | Dropping each overlap prefix and concatenating gives back the visible text. |
| `Chunker.DroppedIsBlank` | src/event_driven_rag_service/utils/chunk_strategies.py:163-165 | A chunk left out for being empty carried no visible text. |
| `Chunker.NoOverlapAlwaysFits` | src/event_driven_rag_service/utils/chunk_strategies.py:145-203 | With overlap = 0, a positive limit and a target that leaves a word after the tolerance, the hypothesis always holds. |
| `Chunker.HardSplitEnd` | src/event_driven_rag_service/utils/chunk_strategies.py:195-203 | The backward scan for a word boundary computes the forced cut. |
| `Chunker.NextCut` | src/event_driven_rag_service/utils/chunk_strategies.py:168-203 | The window arithmetic and the search compute the step's cut. |
| `Chunker.ChunkAtBoundaries` | src/event_driven_rag_service/utils/chunk_strategies.py:124-212 | The whole loop terminates; its slices tile the text, lose no visible character, repeat only tails and keep the size limits; it starts where asked, every cut and every prefix is the one asked for, and no chunk is empty or has whitespace at an end. |
| `Chunker.CutIsAsked` | src/event_driven_rag_service/utils/chunk_strategies.py:167-203 | A cut is the closest end, to target words less the prefix but at least ten, of the first of the five markers that ends within the tolerance and the limit; a forced cut at the last blank within the limit, or at the limit, if none does. |
| `Chunker.PrefixIsAsked` | src/event_driven_rag_service/utils/chunk_strategies.py:143-158 | The prefix is the previous slice from the closest marker near the start of its last share of words, or else that share of its words, at least one; nothing without overlap. |
| `Chunker.StartIsAsked` | src/event_driven_rag_service/utils/chunk_strategies.py:129-136 | Chunking starts at 0, or behind the asked share of the words at the closest clean break within 300 characters. |
| `Chunker.ReplaceIs` | src/event_driven_rag_service/utils/chunk_strategies.py:125-125 | The normalising replacement works on one occurrence after the other, as str.find finds them. |
| `ChunkLoops.OverlapCanLoopForEver` | src/event_driven_rag_service/utils/chunk_strategies.py:195-210 | A concrete text and configuration on which the loop is back at the start after every two iterations. |
| `ChunkLoops.ToleranceOneGetsStuck` | src/event_driven_rag_service/utils/chunk_strategies.py:175-193 | A concrete text on which, with a tolerance of 1 and no overlap, the loop never leaves one position. |
| `Guard.LocalRunGuard.Check` | src/event_driven_rag_service/worker/local_run_guard.py:46-64 | A marker this process does not own turns into a block; the check refuses exactly when a block is there. |
| `Guard.LocalRunGuard.Enter` | src/event_driven_rag_service/worker/local_run_guard.py:69-74 | Entry checks, writes the marker and remembers the run. |
| `Guard.LocalRunGuard.Leave` | src/event_driven_rag_service/worker/local_run_guard.py:77-80 | Exit forgets the run and removes the marker. |
| `Guard.SharePathIff` | src/event_driven_rag_service/worker/local_run_guard.py:43-44 | Two models share their files exactly when their names differ only in characters that are replaced. |
| `Guard.GuardedRun` | src/event_driven_rag_service/worker/local_run_guard.py:66-80 | A run that ends, normally or by an exception, leaves no trace. |
| `Guard.RunKeepsInv` | src/event_driven_rag_service/worker/local_run_guard.py:46-80 | Over every run of starts, exits, kills at any point and restarts, markers and blocks stay consistent with what was killed. |
| `Guard.NeverKilledTwice` | src/event_driven_rag_service/worker/local_run_guard.py:46-80 | A model's guarded run is killed at most once until its block is removed. |
| `Guard.GuardedKillsBounded` | src/event_driven_rag_service/worker/local_run_guard.py:46-80 | Kills that hit a guarded run number at most one per model plus one per removed block. |
| `Guard.BlockOnlyAfterKill` | src/event_driven_rag_service/worker/local_run_guard.py:51-52 | A block appears only after a process died with the model's marker on disk. |
| `Redelivery.RunKeepsInv` | src/event_driven_rag_service/worker/local_run_guard.py:46-80 | Guard files, the batch in hand, how far it got and the places of all tasks stay consistent over every run of deliveries, guarded runs, saves, acknowledgements, exceptions, kills and restarts. |
| `Redelivery.RedeliveryIsBounded` | src/event_driven_rag_service/worker/entrypoints/gpu.py:623-630 | The kills that strike a task's own local run number at most one plus one per removal of its model's block. |
| `Redelivery.StruckTaskIsAcknowledged` | src/event_driven_rag_service/handlers/embed_handler.py:216-237 | In every reachable state a batch of a killed, still blocked model cannot start a run; the check refuses it, after which any of its tasks can be acknowledged, by which no rows change. |
| `Redelivery.StruckStaysAsItWas` | src/event_driven_rag_service/worker/local_run_guard.py:46-64 | However a run goes on, until the block is removed a struck task is not struck again, not dead-lettered and not written. |
| `Redelivery.StruckRowsIff` | src/event_driven_rag_service/handlers/embed_handler.py:216-276 | From a strike on, in every continuation without unblocking, the rows of a task have vectors if and only if an earlier delivery of it was saved; it is queued, in hand or acknowledged. |
| `Redelivery.EmbeddedIffSaved` | src/event_driven_rag_service/handlers/embed_handler.py:272-276 | Over every run the rows of a task have vectors if and only if some delivery of it was saved; kills, exceptions and acknowledgements change nothing. |
| `Redelivery.RowlessAckMeansKilled` | src/event_driven_rag_service/handlers/embed_handler.py:218-240 | A task acknowledged though no delivery of it was saved is one whose model was killed in a local run at some time. |
| `Redelivery.DeadLetterMeansRaised` | src/event_driven_rag_service/handlers/embed_handler.py:238-240 | A task is dead-lettered only in a run in which an encoding raised. |
| `RedeliveryRuns.StruckBeforeSaving` | src/event_driven_rag_service/worker/local_run_guard.py:46-80 | A run from the start that ends with a struck task acknowledged without vectors. |
| `RedeliveryRuns.StruckAfterSaving` | src/event_driven_rag_service/worker/gpu_worker.py:199-210 | A run from the start in which the process dies between save and acknowledgement and the next run is struck: it ends acknowledged with vectors. |
| `Redelivery.NobodyIsLost` | src/event_driven_rag_service/worker/gpu_worker.py:188-210 | Over every run a published task, and no other, is in exactly one place: queued, in hand, acknowledged or dead-lettered. |
| `Broker.Channel.Get` | src/event_driven_rag_service/worker/base_worker.py:92-94 | basic_get hands out the oldest message of the queue under a fresh tag and loses nothing. |
| `Broker.Channel.Settle` | src/event_driven_rag_service/worker/base_worker.py:101-110 | An outstanding tag, never settled before, is acknowledged or dead-lettered, and everything else stays. |
| `Broker.RunConserves` | src/event_driven_rag_service/worker/base_worker.py:79-110 | Over every sequence of broker operations, with the connection lost anywhere, queued + outstanding + acknowledged + dead-lettered messages are conserved. |
| `Broker.TagNeverComesBack` | src/event_driven_rag_service/worker/base_worker.py:101-110 | A tag that was settled is never outstanding again on its connection. |
| `Broker.AnyRun` | src/event_driven_rag_service/worker/base_worker.py:79-110 | Performing operations on the channel computes exactly their effect one after the other. |
| `Broker.PrefixConserves` | src/event_driven_rag_service/worker/base_worker.py:146-156 | After any number of the operations a client performs, and if the connection is then lost, no message is lost or doubled. |
| `Worker.BatchIsProper` | src/event_driven_rag_service/worker/gpu_worker.py:281-348 | No position of a batch is settled twice, both ways, or outside the batch. |
| `Worker.BatchOutcomeIs` | src/event_driven_rag_service/worker/gpu_worker.py:188-210 | For each position of a batch: a query or rerank delivery is acknowledged exactly when its handler succeeded; a chunk delivery when, with rows encoded, it brought one or, with nothing encoded, no equal task lost its fetch; dead-lettered is what its handler or own fetch failed, everything when the encoder broke on chunks or the load failed; and when the batch raises. |
| `Worker.PollTakes` | src/event_driven_rag_service/worker/base_worker.py:90-99 | A poll takes the shortest front of the queue with as many non-empty bodies as asked for, or all; its batch is the valid ones in order. |
| `Worker.EmbedSettles` | src/event_driven_rag_service/worker/gpu_worker.py:312-348 | Every query of an embed batch is settled, a chunk task exactly when the handler hands it back, other kinds never. |
| `Worker.ChunkBatchSettledIff` | src/event_driven_rag_service/worker/gpu_worker.py:188-210 | A batch of chunk tasks is settled completely if and only if the load failed, the encoder broke, with rows every task failed its fetch or contributed one, or with none embedded no task equals one whose fetch failed without failing too. |
| `Worker.OtherBatchesSettled` | src/event_driven_rag_service/worker/gpu_worker.py:292-337 | A query or rerank batch is settled completely if and only if the load failed, or no handler raises and rerank tasks find a rerank handler. |
| `GpuWorker.PollQueue` | src/event_driven_rag_service/worker/base_worker.py:79-99 | A poll takes messages in order until the limit of non-empty ones, dead-letters the empty ones and touches no other queue; it consists of broker operations none of which settles a tag that is not outstanding. |
| `GpuWorker.ParseBatch` | src/event_driven_rag_service/worker/gpu_worker.py:223-247 | The valid messages stay outstanding in order; the malformed ones are dead-lettered. |
| `GpuWorker.SettleAll` | src/event_driven_rag_service/worker/gpu_worker.py:207-210 | Exactly the given deliveries of the batch are settled, each tag once and in the given order. |
| `GpuWorker.GpuEmbedWorker.EnsureModel` | src/event_driven_rag_service/worker/gpu_worker.py:253-275 | Afterwards the warm model is the requested one, or none if the load failed. |
| `GpuWorker.GpuEmbedWorker.ProcessEmbedBatch` | src/event_driven_rag_service/worker/gpu_worker.py:312-348 | Queries are settled one by one by success, chunk tasks as the handler hands them back: the outcome whose meaning `Worker.BatchOutcomeIs` states. |
| `GpuWorker.GpuEmbedWorker.ProcessRerankBatch` | src/event_driven_rag_service/worker/gpu_worker.py:292-310 | The loop splits the batch by success, or raises on a task of another kind or without a handler. |
| `GpuWorker.GpuEmbedWorker.ServeBatch` | src/event_driven_rag_service/worker/gpu_worker.py:188-210 | Load, process and settle leave outstanding exactly the deliveries the outcome does not name. |
| `GpuWorker.GpuEmbedWorker.Scan` | src/event_driven_rag_service/worker/gpu_worker.py:157-213 | The first queue whose poll yields a valid message is served with its own model, a lower one only after every higher one yielded none; what is left queued, kept outstanding, acknowledged and dead-lettered is pinned message by message; the scan is a sequence of broker operations, polls first, then the settling of the batch. |
| `Scans.ServedIsSettled` | src/event_driven_rag_service/worker/gpu_worker.py:188-213 | On the channel: acknowledged are exactly the messages whose handler succeeded, dead-lettered those whose handler failed and what did not parse, and the others stay outstanding; all of the batch does after an exception. |
| `Scans.ScannedAccounts` | src/event_driven_rag_service/worker/gpu_worker.py:157-213 | What a scan leaves queued, outstanding, acknowledged and dead-lettered, queue by queue and position by position, adds up to what there was: no message is left out or counted twice. |
| `GpuWorker.TraceConserves` | src/event_driven_rag_service/worker/gpu_worker.py:150-221 | Over any trace of scans, scans cut short after any broker operation by a death or a lost connection, idle timeouts, publications, reconnections and deaths every message is accounted for once. |
| `GpuWorker.Run` | src/event_driven_rag_service/worker/base_worker.py:137-156 | Each action, cut scans included, takes the worker from one state to the next by the step relation: a lost connection keeps the warm model, a raising scan or a death does not. |
| `Grouping.GroupsPartition` | src/event_driven_rag_service/handlers/embed_handler.py:287-295 | Grouping by key neither loses, repeats nor misfiles a value. |
| `Grouping.Group` | src/event_driven_rag_service/handlers/embed_handler.py:290-295 | The dictionary loop files every value under its key in order, keys in order of arrival. |
| `Embedding.FlattenHolds` | src/event_driven_rag_service/handlers/embed_handler.py:180-204 | The flattened triples are exactly the fetched rows, each with its own task. |
| `Embedding.FetchAll` | src/event_driven_rag_service/handlers/embed_handler.py:180-204 | The fetch loop collects them and the tasks whose fetch failed; tasks without chunks or table are passed over. |
| `Embedding.EmbedHandler.SaveBatch` | src/event_driven_rag_service/repository/chunk_repository.py:300-331 | Filing by table and updating table by table gives every addressed row the encoding of its own text and changes nothing else; a table whose update raises leaves those before it written. |
| `Embedding.EmbedHandler.EmbedChunks` | src/event_driven_rag_service/handlers/embed_handler.py:172-324 | With any fetch order, every fetched row gets its own text's vector in its own table; without vectors no row changes; the tasks handed back are the specified ones; a save or publish that raises hands nothing back, and what was written or sent until then is right. |
| `Embedding.BuildEvents` | src/event_driven_rag_service/handlers/embed_handler.py:287-313 | One completion event per post and table; together they carry exactly the multiset of fetched chunks. |
| `Embedding.NeverSettledTwice` | src/event_driven_rag_service/handlers/embed_handler.py:206-240 | No task is handed back twice, or as done and as failed. |
| `Embedding.HandedBackIff` | src/event_driven_rag_service/handlers/embed_handler.py:206-324 | Exactly which tasks come back as done (with vectors, those that brought rows; otherwise those unlike any whose fetch failed) and which as failed (own fetch failed, or the encoder broke). |
| `Embedding.SettledIff` | src/event_driven_rag_service/handlers/embed_handler.py:206-324 | Exactly when a task is handed back, on every path of the handler. |
| `Embedding.WholeBatchSettled` | src/event_driven_rag_service/handlers/embed_handler.py:206-324 | Exactly when every task of a batch is handed back, tasks equal by value included. |
| `Embedding.RowlessTaskIsLeft` | src/event_driven_rag_service/handlers/embed_handler.py:322-324 | Two concrete tasks, one without rows: it is handed back neither way. |
| `Embedding.TwinOfFailedIsLeft` | src/event_driven_rag_service/handlers/embed_handler.py:206-211 | The same task twice, one fetch failing: the other is handed back neither way. |
| `Requeue.PublishTasks` | src/event_driven_rag_service/services/requeue_service.py:182-212 | One task per post, for one table and queue, asking for exactly what was listed as missing. |
| `Requeue.RequeueMissingEmbeddings` | src/event_driven_rag_service/services/requeue_service.py:111-180 | Published tasks ask for exactly the multiset of unembedded rows of the recognised tables, are addressed to the model and queue of their table, and the counters match. |
| `Requeue.ScanFindsAgain` | src/event_driven_rag_service/services/requeue_service.py:111-146 | While the rows stay as they are, as they do without a backend, every scan finds the same rows, in whatever order they are listed. |
| `Requeue.TaskEmbedsItsRows` | src/event_driven_rag_service/handlers/embed_handler.py:182-275 | Over any sequence of batches a row asked for ends with the encoding of its own text; other rows do not change. |
| `Requeue.RecoveryCompletes` | src/event_driven_rag_service/services/requeue_service.py:111-212 | Once the published tasks are worked through with a working encoder, no row of a recognised table is without an embedding. |
| `EventBus.Select` | src/event_driven_rag_service/infrastructure/event_bus.py:163-175 | The polling query returns the topic's visible rows above an id in order, with none missing below the last one. |
| `EventBus.ResumeReadsOn` | src/event_driven_rag_service/infrastructure/event_bus.py:148-198 | Resuming from the offset of any event of a batch reads on exactly where the batch stood. |
| `EventBus.PostgresEventBus.Poll` | src/event_driven_rag_service/infrastructure/event_bus.py:151-175 | A poll creates the offset row if missing and reads the next batch. |
| `EventBus.PostgresEventBus.Consume` | src/event_driven_rag_service/infrastructure/event_bus.py:181-198 | A caller that leaves after n events got the first n of the batch, each with its own payload, and the offset is that of the last one. |
| `EventBus.RunKeepsInv` | src/event_driven_rag_service/infrastructure/event_bus.py:132-198 | Over every interleaving every visible event up to the offset is accounted for. |
| `EventBus.AtMostOnceInOrder` | src/event_driven_rag_service/infrastructure/event_bus.py:132-198 | Ids are handed out in strictly increasing order; an event passed over was lost to a stop, at most one per stop, or became visible too late. |
| `EventBus.RunOnlyAdvances` | src/event_driven_rag_service/infrastructure/event_bus.py:181-198 | The offset never goes back, and nothing handed out is taken back or reordered. |
| `EventBus.EmptyPollMeansCaughtUp` | src/event_driven_rag_service/infrastructure/event_bus.py:177-179 | A poll that finds nothing has left no visible event unaccounted for. |
| `EventBus.NoInterference` | src/event_driven_rag_service/infrastructure/event_bus.py:151-197 | Taking all other consumers out of a run leaves a run in which this one does the same. |
| `EventBus.InOrderNeverLate` | src/event_driven_rag_service/infrastructure/event_bus.py:163-175 | If rows of a topic become visible in id order, none is ever late. |
| `EventBus.InOrderLosesOnlyToStops` | src/event_driven_rag_service/infrastructure/event_bus.py:181-198 | Then the events passed over are exactly those lost to a stop. |
| `EventBus.CrashLosesTheEventInHand` | src/event_driven_rag_service/infrastructure/event_bus.py:182-198 | A stop between commit and yield loses the event in every continuation. |
| `EventBus.CrashRun` | src/event_driven_rag_service/infrastructure/event_bus.py:182-198 | A run from the start that does so with the only event there is. |
| `Freshness.Repository.Upsert` | src/event_driven_rag_service/repository/folder_repository.py:83-108 | With no other writer the status tells exactly what was stored, and kept columns stay. |
| `Freshness.StoredTimeNeverFalls` | src/event_driven_rag_service/repository/folder_repository.py:20-31 | Along any run no row disappears and no stored `updated_at` goes back. |
| `Freshness.GreatestVersionWins` | src/event_driven_rag_service/repository/post_repository.py:146-185 | When all upserts have finished, each row is one of its competing versions and none is newer. |
| `Freshness.OrderDoesNotMatter` | src/event_driven_rag_service/repository/post_repository.py:146-185 | If no two different versions share the greatest time, two complete runs agree on every column of the SET clause. |
| `Freshness.SkippedMeansBeaten` | src/event_driven_rag_service/repository/folder_repository.py:98-99 | "skipped" is reported only if the stored version is, and stays, at least as new. |
| `Freshness.KeptColumnsStay` | src/event_driven_rag_service/repository/post_repository.py:34-58 | Upserts never change `added_at` or `embedded_at` of an existing row. |
| `Freshness.StoredNothingIff` | src/event_driven_rag_service/repository/post_repository.py:164-185 | Over every run, an upsert past its check reports a write; nothing was stored if and only if a version of the row at least as new was written between its check and its write. |
| `Freshness.WroteIsTrue` | src/event_driven_rag_service/repository/post_repository.py:34-58 | A write on record as done has stored the row and kept the kept columns; one that is not has changed nothing. |
| `Freshness.AloneStatusIsTrue` | src/event_driven_rag_service/repository/folder_repository.py:92-108 | With no other write to the row in between, what is reported was stored. |
| `Freshness.InsertedMayStoreNothing` | src/event_driven_rag_service/repository/post_repository.py:164-185 | Two interleaved upserts both report "inserted" though one stored nothing. |
| `Rechunk.EvaluateChangedFields` | src/event_driven_rag_service/api/sync.py:183-201 | The loop lists exactly the differing fields, None and empty being the same. |
| `Rechunk.ChangeIsDispatched` | src/event_driven_rag_service/dispatchers/post_dispatcher.py:95-108 | A sync that changes the windows of a promised kind makes the dispatcher send a task of that kind. |
| `Rechunk.DispatchedIff` | src/event_driven_rag_service/dispatchers/post_dispatcher.py:95-108 | A kind is sent exactly for a new post, one in which nothing changed, or one in which a field of that kind changed, and summaries only if there is one. |
| `Rechunk.Library.SyncPosts` | src/event_driven_rag_service/api/sync.py:117-154 | The loop stores, announces and reports post by post; a post whose treatment raises is reported as an error, stored but unannounced if publishing raised. |
| `Rechunk.SyncKeepsNewest` | src/event_driven_rag_service/api/sync.py:117-136 | A stored version is replaced only by a strictly newer one, every version that could be stored is there or beaten, and nothing else is stored. |
| `Rechunk.SyncAnnouncesEach` | src/event_driven_rag_service/api/sync.py:117-154 | One status per post and one event per post reported as stored; errors only where the treatment raised. |
| `RechunkRuns.SyncIsOneRound` | src/event_driven_rag_service/api/sync.py:117-154 | A sync step of the runs below is one round of that loop. |
| `Rechunk.Library.HandleTask` | src/event_driven_rag_service/handlers/chunk_handler.py:223-287 | Handling a task inserts exactly the missing windows of the current text of its key: of the edited body or title before the original, or of "Title: ..." and "Summary: ..." written out. |
| `Rechunk.WantedIsGained` | src/event_driven_rag_service/handlers/chunk_handler.py:326-346 | Which text each kind of task chunks, by the fields of the post. |
| `Rechunk.HandleTwice` | src/event_driven_rag_service/handlers/chunk_handler.py:255-283 | Handling a task again inserts nothing. |
| `RechunkRuns.StepKeepsInv` | src/event_driven_rag_service/api/sync.py:117-136 | After every step each promised kind of each post has all its windows stored, or work for it is pending or recorded as lost. |
| `RechunkRuns.RunKeepsInv` | src/event_driven_rag_service/handlers/chunk_handler.py:223-287 | The same over every run of syncs, dispatches, handler steps, redeliveries before and after the insert, and failures. |
| `RechunkRuns.NothingLostWithoutFailures` | src/event_driven_rag_service/dispatchers/post_dispatcher.py:95-120 | Nothing is lost in a run in which nothing fails. |
| `RechunkRuns.QuietMissesNothing` | src/event_driven_rag_service/handlers/chunk_handler.py:223-287 | Once nothing is pending, no window of current text is missing except where work was lost to a failure. |
| `RechunkRuns.QuietHoldsText` | src/event_driven_rag_service/handlers/chunk_handler.py:326-346 | By the fields of the post: the windows of its edited body, or else of the original, and likewise of title and summary, are stored once nothing is pending, except where work was lost. |
| `RechunkRuns.FailureCanLose` | src/event_driven_rag_service/handlers/chunk_handler.py:223-287 | A run from the start in which a handler raises and a quiet system misses the windows of a post. |
| `RechunkRuns.QuietIsConsistent` | src/event_driven_rag_service/dispatchers/post_dispatcher.py:95-120 | Without failures there is no exception. |
| `TableNames.ParsedRebuilds` | src/event_driven_rag_service/utils/build_table_names.py:99-137 | A successful parse names a configured type whose rebuilt name is exactly the name parsed. |
| `TableNames.BuildIs` | src/event_driven_rag_service/utils/build_table_names.py:44-62 | A name is the post table, "_chunks_", the lower-case type, "_" and the sanitised model, cut to 63 characters. |
| `TableNames.SanitizeAt` | src/event_driven_rag_service/utils/build_table_names.py:35-42 | Slashes, dashes and dots become underscores, everything else its lower case. |
| `TableNames.ParsesIff` | src/event_driven_rag_service/utils/build_table_names.py:99-137 | Any name parses if and only if it is the name of a configured type for some post table of at most 55 characters without an earlier marker. |
| `TableNames.RoundTripIff` | src/event_driven_rag_service/utils/build_table_names.py:44-137 | A built name parses back if and only if the marker survives truncation, comes first, and the surviving suffix differs from those before it. |
| `TableNames.CurrentRoundTrip` | src/event_driven_rag_service/utils/build_table_names.py:70-137 | For the four types in use: up to 54 characters all round-trip, at 55 only "body", above that none. |
| `TableNames.FullNamesCollide` | src/event_driven_rag_service/utils/build_table_names.py:13-62 | At 55 characters all types share one table name. |
| `Search.Realign` | src/event_driven_rag_service/worker/reranking.py:176-182 | The list filled by index holds the last score given for each position, 0 for none; an index out of range raises. |
| `Search.OrderOfAnswerDoesNotMatter` | src/event_driven_rag_service/worker/reranking.py:176-182 | In whatever order the pairs arrive, each document mentioned gets its own score. |
| `Search.SameAnswerSameScores` | src/event_driven_rag_service/worker/reranking.py:176-182 | Two answers that mention the same documents align to the same scores. |
| `Search.RankedFacts` | src/event_driven_rag_service/handlers/rerank_handler.py:150-150 | The ranking is a rearrangement in non-increasing score order. |
| `Search.RankedIsStable` | src/event_driven_rag_service/handlers/rerank_handler.py:150-150 | Equal scores keep their original order. |
| `Search.RankedIff` | src/event_driven_rag_service/handlers/rerank_handler.py:150-150 | The ranking is the one sequence that falls and keeps ties in order. |
| `Search.RerankResultsAreTopK` | src/event_driven_rag_service/handlers/rerank_handler.py:119-162 | The best k of the surviving candidates: distinct, best first, ties in order, none left out scoring higher than one kept, and the start of every falling and stable arrangement. |
| `Search.FinalResultsAreCandidates` | src/event_driven_rag_service/handlers/search_finalize_handler.py:90-109 | Without reranking: exactly the surviving ones of the first k candidates, distinct, in the order of the candidates whatever their scores. |
| `SearchRuns.SearchJobRepository.HandleRank` | src/event_driven_rag_service/handlers/rerank_handler.py:111-194 | Every path of the rerank handler, a completion event that cannot be published included, leaves the job as specified, and says which messages are acknowledged. |
| `SearchRuns.SearchJobRepository.HandleFinalize` | src/event_driven_rag_service/handlers/search_finalize_handler.py:84-132 | The same for the finalize handler. |
| `SearchRuns.SameAnswerSameJob` | src/event_driven_rag_service/worker/reranking.py:176-182 | Two orders of the server's answer leave the same job. |
| `SearchRuns.RankCompletesIff` | src/event_driven_rag_service/handlers/rerank_handler.py:111-194 | A rerank task completes its job exactly when the rows can be read and none is left or the reranker answers in range; otherwise it fails the job and keeps its results. |
| `SearchRuns.FinalizeCompletesIff` | src/event_driven_rag_service/handlers/search_finalize_handler.py:84-132 | A finalize task completes its job exactly when the rows can be read. |
| `SearchRuns.SearchSendsIff` | src/event_driven_rag_service/handlers/search_handler.py:90-137 | A search sends its candidates on exactly when the query is embedded, the database answers and the event can be published. |
| `SearchRuns.SearchJobRepository.CompleteJob` | src/event_driven_rag_service/repository/search_job_repository.py:141-151 | Completion overwrites status and results of a known job, whatever its status was. |
| `SearchRuns.RunKeepsInv` | src/event_driven_rag_service/dispatchers/search_dispatcher.py:106-151 | Over every run, redelivery included, a task carries its own job's candidates and is of the kind the job asked for. |
| `SearchRuns.ResultsWereStored` | src/event_driven_rag_service/handlers/rerank_handler.py:111-163 | Over every run the results of a job were stored by a delivery of its own rerank task if it asked for reranking, of its own finalize task if not, with the rows and scores of that delivery. |
| `SearchRuns.CompletedJobIsSound` | src/event_driven_rag_service/handlers/rerank_handler.py:119-163 | So a completed rerank job holds the best k of its surviving candidates under the reranker's own scores, and another job the surviving ones of its first k candidates in search order. |
| `SearchRuns.CandidatesWereFound` | src/event_driven_rag_service/handlers/search_handler.py:120-137 | The candidates of a job are what one of its own searches found. |
| `SearchEnds.EndedStaysIff` | src/event_driven_rag_service/repository/search_job_repository.py:125-168 | An ended job keeps its outcome in every continuation, redelivery included, if and only if nothing that disturbs it is on its way. |
| `SearchEnds.EndedJobsStay` | src/event_driven_rag_service/handlers/rerank_handler.py:163-194 | Without redelivery a failed job stays failed, and a completed one stays complete if and only if its announcement is not still to come. |
| `SearchEnds.OneEachAlways` | src/event_driven_rag_service/dispatchers/search_dispatcher.py:72-151 | Without redelivery at most one message per job is on its way: none for a failed job, and for a completed one only its announcement. |
| `SearchEnds.PublishFailureUndoes` | src/event_driven_rag_service/handlers/rerank_handler.py:163-194 | A run from the start, without redelivery, in which a completed job is failed because its event cannot be published. |
| `SearchEnds.RedeliveryCanUndo` | src/event_driven_rag_service/repository/search_job_repository.py:133-168 | A run from the start in which a second delivery of the rerank task fails a job that was completed and announced. |
| `Manager.SubBatchedIsPointwise` | remote_embedder_service/src/remote_embedder/manager.py:512-522 | For a pointwise encoder, encoding in slices of any size equals encoding each text alone, in order. |
| `Manager.EncodeAll` | remote_embedder_service/src/remote_embedder/manager.py:512-522 | The slicing loop computes that. |
| `Manager.ModelManager.Load` | remote_embedder_service/src/remote_embedder/manager.py:378-456 | After success the requested model is resident at the resolved precision; an unknown id changes nothing; a failed load leaves nothing resident; it succeeds exactly when the model is there at that precision or the loader gives one that has its width. |
| `Manager.ResidentHasWidth` | remote_embedder_service/src/remote_embedder/manager.py:437-456 | In every valid state a resident embedder answers the probe with a vector of its registered width. |
| `Manager.QuantizationByWord` | remote_embedder_service/src/remote_embedder/manager.py:49-92 | The int8 words quantise embedders, the int4 words rerankers, "none" and its kin turn it off for both, and a word for the other kind or no request leaves the default. |
| `Manager.ModelManager.Unload` | remote_embedder_service/src/remote_embedder/manager.py:458-480 | Frees exactly when something matching is resident. |
| `Manager.ModelManager.Encode` | remote_embedder_service/src/remote_embedder/manager.py:487-534 | One vector per text in input order, for any batch size; unknown or reranking models are refused without effect. |
| `Manager.ModelManager.Rerank` | remote_embedder_service/src/remote_embedder/manager.py:536-574 | One score per document by the resident reranker. |
| `Manager.ModelManager.ReapOnce` | remote_embedder_service/src/remote_embedder/manager.py:578-600 | Frees exactly when reaping is on and the model has been idle for the threshold. |
| `Manager.ModelManager.States` | remote_embedder_service/src/remote_embedder/manager.py:347-374 | Every registered model is listed, the resident one and no other as loaded, at the precision recorded. |
| `Manager.AlwaysValid` | remote_embedder_service/src/remote_embedder/manager.py:378-600 | After every prefix of every sequence of calls a model is present iff an id is, and a resident embedder has passed its width check. |
| `Manager.ReapedIff` | remote_embedder_service/src/remote_embedder/manager.py:578-600 | Over every sequence of calls a reap that meets a resident model frees it if and only if reaping is on and every use recorded before lies at least the threshold back. |
| `Manager.NeverReapedTooSoon` | remote_embedder_service/src/remote_embedder/manager.py:378-600 | Over every sequence of calls a reap that frees a model comes at least the threshold after the end of every earlier call that used one. |
| `Manager.Run` | remote_embedder_service/src/remote_embedder/manager.py:302-600 | The manager's methods compute those steps. |

## Left out

- Routes, user interface, schemas, settings, tracing, metrics and logging: request shaping and plumbing.
- RabbitMQ topology, Redpanda, SQL text, asyncpg and pgvector: replaced by the operations described above.
- Model loading, quantisation, tokenising and GPU code: replaced by encoders, scorers and loaders that may fail.
- The local and remote fallback ladder for embedding and reranking (`worker/entrypoints/gpu.py`, `worker/reranking.py`): a sequence of calls whose result is one encoder's or scorer's answer.
- The precision a quantised load ends up with: the manager records what was requested, and the model says no more.
- `_split_text_fallback`: reached only for text that is whitespace.
- A flat limit of `hard_limit` words per chunk: slices are cut by average characters per word, so it does not hold.
- Slices with a negative end: the chunker is followed up to the first cursor that does not advance, and along the looping input, not into Python's negative slicing.
- Float rounding, k-means++ randomness and SHA-256: exact reals, arbitrary seeds, injective hashes.
- Lower-casing beyond ASCII in table names.
- Liveness of search jobs: a query that cannot be embedded leaves its job as it is; only safety is stated.
- A search or rerank handler that dies before it has stored its results: up to there a handler is a single step, so the "searching" or "reranking" status written first is not seen on its own.
- Unique task ids: tasks published by the recovery scan carry an empty id in the model.
- The stop flag of the worker's loop: a scan in the model always looks at every queue it needs.
- Theme summaries, titles and the "because" lists of a suggestion: read off the same numbers for display.
- A batch served by the remote leg in `Redelivery`: it enters no guarded run, so the guard has no part in it.
- Tasks in `Redelivery` without rows or with a failing fetch: how they are settled is stated in `Embedding` and `Worker`.
