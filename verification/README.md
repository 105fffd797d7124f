# Verified model of the ingest, delivery and retrieval core

This project models the parts of the service where state, failure and order matter, and proves what they promise.

* **Incremental ingest** (`Fingerprint`, `Corpus`, `MapReduce`, `IngestContext`, `Detection`, `Enrichment`, `Overview`, `Storing`, `BatchRun`, `RunRecord`, `IngestEngine`, `IngestTheorems`).
  A vector store is kept in step with a list of documents, batch by batch: chunk, fingerprint, compare, summarise, embed, upsert, and sweep at the end behind a gate.
  Splitter, model, embedder and store sit behind an oracle that lets any call fail, take effect and then fail, or answer short.
  The capstone is `IngestTheorems.IncrementalOrRebuilt`: after any number of earlier runs, however they failed, an error-free run leaves the passages that wiping the store and running once would leave, in any document order and batch size, precisely when a condition on the starting store (`IngestEngine.Converges`) holds; it then stores exactly the pieces the splitter returns for the live documents. What such a run does beside the passages, `IngestEngine.RunTold`, it does in its own right: the summary of every document that was new to the store and has enough pieces, and the overview once anything was new or has gone, are stored and map-reduced from the texts they are said to be of (`IngestTheorems.NewIsSummarised`, `NewIsDescribed`). A run in which no call fails, and no document summary is blank, is error-free.
* **Delivery** (`Delivery`). One engine query from its first delivery to its last settlement, with independent failures of plugin, publish, republish, acknowledge and reject; the effects of every delivery are stated exactly.
* **Query-vector cache** (`SingleFlight`). One provider call per key at a time, for every interleaving of calls, completions, callbacks, cancellations and the exit of the scope, itself cancelled or not.
* **Retrieval ranking** (`RankFusion`, `HybridRetrieval`, `LexicalScore`, `Rerank`, `RetrievalChain`). Rank fusion, arm muting and degradation, lexical scoring, blended re-ranking, threshold, top-K and context budget.
* **Smaller algorithms** (`Assertions`, `PromptGraph`, `CrawlUrl`, `Crawler`, `BodyReader`, `SpaceTree`).

## How to read it

A source object that changes in place is a class whose methods are proved against functions on its old and new state; a loop of the source is a loop here; expressions are functions. What those functions mean is then proved as lemmas. Ports, clocks and libraries are parameters: any function, or any oracle of outcomes.

Hypotheses the proofs need, each a condition a caller could check:

* live documents sharing an id are the same document, ids are non-empty and hashed fields contain no NUL (`IngestEngine.ValidDocuments`); `Fingerprint.NulCollides` and `IngestTheorems.SharedIdOrphans` show what happens otherwise;
* the store found satisfies "the id of a passage is the fingerprint of its own fields" (`IngestContext.WellFormed`), which every run keeps, failed or not;
* for idempotence, no live or stored document is named like a generated summary or the overview (`IngestEngine.NoReservedIds`).

SHA-256 is an injective constructor whose values are never equal to a `<document id>-<index>` id. Optional ids are `""` when absent. Scores are real numbers and the logarithm behind the inverse document frequency is any function positive where it is used.

## Results that are conditions

Some expected properties fail for some inputs. The code is kept as it is, and the boundary is proved in both directions, with one limit said where it applies.

* Convergence of an error-free run is equivalent to `IngestEngine.Converges`. It fails for a live page named after a removed page plus `-summary`, which is swept along with it (`IngestTheorems.SummarySlugIsLost`), for a live document that yields no chunk while old passages of it are stored (`IngestTheorems.ChunklessIsStale`), and for an empty list of documents while passages are stored, since no batch then looks at the store.
* The cleanup run made when a source yields no documents leaves the overview entry of the emptied corpus behind, unless a stored document is itself named like the overview (`IngestTheorems.RunCleanup` states exactly when).
* A provider call can outlive the scope only if it is submitted while the exit waits for earlier ones. Without such a call none outlives it (`SingleFlight.NoLateCallNoneOutlives`), and from every state in which the exit waits, a call for any key not cached can (`SingleFlight.LateCallOutlives`; `ExitWaits` reaches such a state). An exit that finds no live task does not wait.
* The cache is empty once the scope is left unless the exit was itself cancelled while it waited (`SingleFlight.ExitSettles`); then it is empty if and only if every call failed and was evicted (`SingleFlight.UnclearedCache`), and a success can stay cached (`SingleFlight.SuccessOutlivesExit`).
* An answer in normalization form C passes the assertions derived from it if every derived value survives that form, that is, if the value after it is still found in the value as written (`Assertions.OwnAnswerPasses`): the code strips quotes from a derived value before it normalises, so the form can compose what a quote kept apart (`Assertions.QuotedMarkFails`). The value of an item holds of every such answer the item can stand in if and only if it survives (`Assertions.HoldsWherever`), and an enumeration, its values without comma and full stop, passes if and only if each value survives among its items (`Assertions.SentencePasses`).
* An answer passes whatever another answer passes if and only if its normalised text contains the other's (`Assertions.PassesWhatever`). Containing the other answer is enough in normalization form C (`Assertions.LongerAnswerPasses`), and not otherwise (`Assertions.ComposedEndFails`).
* At lexical weight 0 re-ranking reproduces the vector order exactly when the scores spread over at least 1e-12 or never rise (`Rerank.VectorOrderKept`).
* The category of a refusal depends on how the body was chunked if and only if the body is over the limit, the limit has room for a whole window, and the policy refuses the window (`BodyReader.ReadingDependsOnChunks`); acceptance never does.
* URL normalisation is idempotent on a URL if and only if the URL settles at once (`CrawlUrl.NormalizeTwice`): a segment such as `b;` before a trailing slash loses its semicolon only the second time (`CrawlUrl.SemicolonGoesLater`). A crawl whose queue runs empty has visited the target of every eligible link that settles at once, and for every link that does not there is a site where it has not (`Crawler.EmptyQueueCloses`, `Crawler.UnsettledLinkIsMissed`).
* An enumeration item made of quotes and white space yields an assertion that every answer satisfies (`Assertions.QuoteItemChecksNothing`).

## Model

| member | source | states |
|---|---|---|
| Fingerprint.CutJoin | core/domain/pipeline/steps.py:472-489 | joining segments with NUL can be undone: the segments of a canonical string are recovered, whatever their number |
| Fingerprint.CanonicalInjective | core/domain/pipeline/steps.py:448-492 | equal canonical strings mean equal content, identity, position and label, although position and label segments are optional (5, 6, 9 or 10 segments) |
| Fingerprint.CanonicalReads | core/domain/pipeline/steps.py:472-489 | a canonical string, cut at NUL, reads text, title, source, kind, document id, then the place if there is one, then the label unless it is "chunk" |
| Fingerprint.NulCollides | core/domain/pipeline/steps.py:448-492 | without NUL-freedom two different chunks share one canonical string |
| Fingerprint.DecimalInjective | core/domain/pipeline/steps.py:484 | two depths with the same decimal text are the same depth, negative ones included |
| Fingerprint.DigitsRead | core/domain/pipeline/steps.py:484 | the digits written for a number read back as that number |
| Corpus.PassageMeans | core/domain/pipeline/steps.py:546-566 | what counts as a passage: the labels "chunk" and "overview", and no label unless the document id is that of the overview or ends in "-summary" |
| MapReduce.MapAll | core/domain/pipeline/steps.py:219-252 | one answer per chunk in input order, absent exactly where its own call failed; empty and absent answers drop out and nothing else does |
| MapReduce.MergeBatch | core/domain/pipeline/steps.py:265-285 | a batch becomes one merge node over its summaries in order: the separator join exactly if its call fails, otherwise the model's answer; a lone summary moves up unchanged and without a call |
| MapReduce.ReduceLevel | core/domain/pipeline/steps.py:262-290 | one level keeps the partial summaries in order, leaves ceil(n / fanin) summaries and spends at most the number it removes in calls |
| MapReduce.ReduceAll | core/domain/pipeline/steps.py:260-292 | the merge tree uses every partial summary exactly once and in order, is no deeper than the least L with fanin^L >= n, spends at most n - 1 calls; if all of these calls fail the text is the plain separator join, and if none fails there is no join in it |
| MapReduce.MapReduceSummarize | core/domain/pipeline/steps.py:178-292 | the whole of map and reduce under any fault pattern: empty input, invalid fan-in, single chunk, nothing produced, or a merge tree over exactly the non-empty answers; an answer is absent exactly where its call failed; failing of all or of none of the merging calls decides between plain join and no join; at most 2n - 1 model calls |
| MapReduce.MapBudgetMeans | core/domain/pipeline/steps.py:219-222 | the lengths asked of the partial summaries add up to no more than the whole length and use it up but for a rest below one each, unless the floor of 500 applies, and exactly when it does |
| MapReduce.AllJoinedRenders | core/domain/pipeline/steps.py:280-285 | a tree in which every merge fell back reads as the separator join of its partial summaries |
| MapReduce.LevelsAreLeast | core/domain/pipeline/steps.py:262-290 | no smaller number of levels would have sufficed |
| MapReduce.GroupSections | core/domain/pipeline/steps.py:984-1003 | greedy grouping concatenates back to the sections, every group fits or is a single section, and no group could have taken the first section of the next |
| IngestContext.ChunkDocuments | core/domain/pipeline/steps.py:405-433 | the chunks are, in order, one for each piece the splitter returned for each document whose split did not raise, with that piece's text and number, the document's metadata and the label of its kind; one error names each of the others |
| IngestContext.SplitBySize | core/domain/pipeline/steps.py:376-403 | the splitter is asked with the size and overlap of the document's kind, an overlap not below the size counting as none |
| IngestContext.HashContent | core/domain/pipeline/steps.py:448-492 | gives every content chunk, and no other, the fingerprint of its own hashed fields |
| IngestContext.HashReads | core/domain/pipeline/steps.py:448-492 | the fingerprint of a content chunk, cut at NUL, reads its text, title, source, kind and document, then its place if it has one, then "overview" if that is its label |
| IngestContext.SameHash | core/domain/pipeline/steps.py:448-492 | two content chunks get one fingerprint if and only if they agree on text, title, source, kind, document, place and label, an absent or empty label being "chunk" |
| IngestContext.ReadyIsSound | core/domain/pipeline/steps.py:1164-1187 | what a fingerprinted, correctly embedded chunk is stored as satisfies the store's invariant under its storage id |
| IngestContext.SoundEntriesAgree | core/domain/pipeline/steps.py:448-492 | two sound entries under one id agree on every hashed field and on the vector |
| Detection.GroupByDocument | core/domain/pipeline/steps.py:530-538 | groups the selected chunks by document: each document once, with all its chunks and in order |
| Detection.DetectDocument | core/domain/pipeline/steps.py:574-605 | for one document: chunks stored already get the stored vector and are marked unchanged; new chunks or leftover stored ids mark the document changed; the leftover ids become orphans |
| Detection.ChangeDetection | core/domain/pipeline/steps.py:510-614 | unchanged, changed, orphaned and removed sets exactly as the comparison with the store defines them, or one error and nothing else when a read fails |
| Enrichment.EmbedBatch | core/domain/pipeline/steps.py:697-708 | only embeddings are filled in, each that of its own text; a failed call is one recorded error; a call that succeeds fills the whole batch |
| Enrichment.EmbedStep | core/domain/pipeline/steps.py:1099-1113 | every chunk still missing a vector is embedded in batches; if the step's own calls all succeed none is missing and no error is recorded |
| Enrichment.Triage | core/domain/pipeline/steps.py:711-741 | which documents qualify for a summary, and which stale summaries become orphans: exactly the changed documents below the threshold |
| Enrichment.SummarizeDocuments | core/domain/pipeline/steps.py:750-822 | one result per qualifying document in order, and each that is there is not blank and map-reduced from all the document's chunks in order |
| Enrichment.SummarizeOne | core/domain/pipeline/steps.py:750-817 | one document's summary is map-reduced from all its chunks; it is there whenever no call fails and the model never answers blank |
| Enrichment.DocumentSummary | core/domain/pipeline/steps.py:710-857 | appends one summary chunk for each summarised document, of its own text and with the source, title and place of its first chunk, without errors for every qualifying one; keeps every passage but for filled-in vectors; extends the orphans by exactly the stale summaries; makes no call when nothing changed |
| Overview.BokExists | core/domain/pipeline/steps.py:911-923 | whether an overview is stored; a failed read counts as no |
| Overview.SeenDocuments | core/domain/pipeline/steps.py:936-955 | the documents that have texts, each once and in order of first mention; in a one-pass run those of its chunks that are no summaries |
| Overview.MentionedInOrder | core/domain/pipeline/steps.py:936-944 | a document mentioned first before another is listed before it |
| Overview.OwnTextsCover | core/domain/pipeline/steps.py:945-955 | a one-pass run lists exactly the documents with a chunk that is no summary, each once |
| Overview.OwnTextsAre | core/domain/pipeline/steps.py:951-955 | under each of these documents are the texts of all its chunks that are no summary, in order |
| Overview.Sections | core/domain/pipeline/steps.py:967-1003 | one section per document, its summary if this run made one, grouped only where that makes fewer of them |
| Overview.SectionLimitMeans | core/domain/pipeline/steps.py:900 | sections are grouped up to the configured size, and never below 1000 |
| Overview.StoreInline | core/domain/pipeline/steps.py:1041-1072 | either the overview with its own vector is stored and nothing else changes, or it is handed on |
| Overview.Describe | core/domain/pipeline/steps.py:1005-1077 | the overview chunk is map-reduced from one section per document listed, grouped where that makes fewer, placed at the root of the ingest, and stored or handed on |
| Overview.RootMeans | core/domain/pipeline/steps.py:149-171 | the root of the ingest is the space of the first entry at depth 0 that names one, documents before chunks, else of the first that names one at all |
| Overview.JoinLinesAppend | core/domain/pipeline/steps.py:971-972 | a section made of passages is their texts with one line break between any two |
| Overview.BodyOfKnowledge | core/domain/pipeline/steps.py:925-1077 | the overview ends up stored or handed on whenever there is something to describe, and is of exactly the documents that have texts; none is made only for want of texts, or because nothing changed and one is stored; it is marked for removal exactly for a corpus emptied by removals, and on an unchanged corpus no call is made |
| Storing.Deduplicate | core/domain/pipeline/steps.py:1189-1199 | of the writes under one id the last one wins, and no id is lost |
| Storing.StoreChunks | core/domain/pipeline/steps.py:1135-1213 | everything written is sound, and under an id is what one of the chunks with that id says; without errors every embedded chunk is stored or was already; the store never shrinks |
| Storing.RemoveDocument | core/domain/pipeline/steps.py:1252-1267 | deletes the document's entries and its summary's, stops at the first failure with one error, and leaves a part of the store |
| Storing.OrphanCleanup | core/domain/pipeline/steps.py:1235-1275 | an error-free sweep leaves exactly the entries outside the orphans, the removed documents and their summaries; with errors at most those are gone |
| BatchRun.LoadBatch | core/domain/pipeline/engine.py:164-166 | chunking, fingerprinting and change detection of one batch, composed |
| BatchRun.RunBatch | core/domain/pipeline/engine.py:145-186 | one batch under any fault pattern: nothing is deleted; without errors all its passages are stored, the orphans name exactly its documents' other entries and summaries of documents with too few pieces, each changed document with enough pieces, and no other, has a recorded summary of its pieces in order that is stored under the document, and no other entry is touched; on a settled store no call is made |
| BatchRun.FinishBatch | core/domain/pipeline/engine.py:167-186 | after change detection: without errors every qualifying document, and no other, has a recorded summary, and it is stored with source, title and place of its first chunk |
| BatchRun.TextsArePieces | core/domain/pipeline/steps.py:405-433 | the texts of a document's chunks in a batch are the pieces the splitter returned for it, in order |
| BatchRun.HashedIds | core/domain/pipeline/steps.py:448-492 | the fingerprints of a batch are exactly the live ids of its documents |
| BatchRun.BatchConcludes | core/domain/pipeline/engine.py:145-186 | an error-free batch leaves what `BatchDone` says |
| RunRecord.OwnPieces | core/domain/pipeline/steps.py:405-433 | in a list without repetition the texts gathered under a document are the pieces of its own text |
| RunRecord.NewIsChanged | core/domain/pipeline/steps.py:574-605 | a document of which the store a run found lacks a passage, or holds something else, is found changed by its batch, whatever the batches before it stored |
| IngestEngine.ProgressStep | core/domain/pipeline/engine.py:146-186 | one more batch keeps the relation between the store found, the store now and the accumulated orphans and removed documents |
| IngestEngine.UnderwayStep | core/domain/pipeline/engine.py:145-186 | one more batch also keeps what is recorded: the texts of all pieces so far, the documents that were new, their summaries as they are stored, and summaries given up only of documents with too few pieces |
| IngestEngine.Survives | core/domain/pipeline/steps.py:1235-1267 | exactly which passages are left by the sweep after all batches |
| IngestEngine.SweepConverges | core/domain/pipeline/steps.py:568-605 | the sweep leaves exactly the live passages if and only if the run converges |
| IngestEngine.SweepSettles | core/domain/pipeline/steps.py:716-745 | without reserved ids the swept store is one on which a further run has nothing to do |
| IngestEngine.RunTells | core/domain/pipeline/engine.py:188-212 | what the sweep leaves besides the passages: recorded summaries as they were made, the run's own overview once anything changed or went, and without reserved ids no summary of a document with enough pieces, and no overview, is lost |
| IngestEngine.GatedCleanup | core/domain/pipeline/engine.py:229-257 | with an earlier error the sweep is skipped and recorded; otherwise it runs and any later error is its own |
| IngestEngine.FinishOverview | core/domain/pipeline/engine.py:188-210 | the finalize steps before the sweep: the overview, of all the texts and summaries recorded, embedded and stored a second time if needed |
| IngestEngine.RunBatches | core/domain/pipeline/engine.py:145-186 | all batches under any fault pattern, with the accumulators merged: the store only grows, and without errors `Underway` holds of all documents: convergence so far, the texts, the documents found new, their summaries |
| IngestEngine.RunBatched | core/domain/pipeline/engine.py:122-212 | a whole run under every fault pattern: the store stays sound; if any error other than the sweep's own was recorded, nothing present is missing afterwards; deletion starts only when every passage of every document is stored; live passages found are never lost; without errors exactly the live passages remain if and only if the run converges, and summaries and overview are as `RunTold` says; a run in which no call fails and no document summary is blank records no error; on a settled store no call is made |
| IngestTheorems.RebuildConverges | core/domain/pipeline/engine.py:122-212 | a run from an empty store always converges |
| IngestTheorems.ConvergedRunsAgree | core/domain/pipeline/engine.py:122-212 | starting store, batch size and document order do not show in the passages: same ids, hashed fields and vectors |
| IngestTheorems.FaultFreeRunsAgree | core/domain/pipeline/engine.py:122-212 | two fault-free runs over the same documents, in any order and batch size and from any stores they converge from, leave the same passages, and these are the pieces of the documents' texts |
| IngestTheorems.PassageAgrees | core/domain/pipeline/steps.py:448-492 | each stored live passage agrees with its chunk on every hashed field and on its vector |
| IngestTheorems.LiveArePieces | core/domain/pipeline/steps.py:405-433 | with exactly the live passages stored, every piece the splitter returns for a live document's text is stored under that document with its metadata, label and own vector, and every passage stored is such a piece |
| IngestTheorems.RunStoresPieces | core/domain/pipeline/engine.py:122-212 | any run that ends without errors and converges leaves the store so |
| IngestTheorems.NewIsSummarised | core/domain/pipeline/steps.py:710-857 | after an error-free run every live document that was new to the store and has enough pieces has its summary stored, map-reduced from its pieces in order and reported under the document |
| IngestTheorems.NewIsDescribed | core/domain/pipeline/steps.py:925-1077 | once a document was new or has gone, the overview stored after an error-free run is map-reduced from one section for every document with pieces, its summary if the run made one, else its pieces |
| IngestTheorems.SharedIdOrphans | core/domain/pipeline/steps.py:574-605 | two documents under one id in different batches orphan each other's passages |
| IngestTheorems.SummarySlugIsLost | core/domain/pipeline/steps.py:1252-1262 | for any removed document x and any text the splitter leaves whole, a live page x + "-summary" of that text makes the run not converge |
| IngestTheorems.ChunklessIsStale | core/domain/pipeline/steps.py:574-605 | a live document whose text yields no chunk keeps its old passage: the run does not converge |
| IngestTheorems.RunTwice | core/domain/pipeline/steps.py:925-934 | after an error-free run, a second fault-free one makes no model, embedding, write or delete call |
| IngestTheorems.RunHistory | core/domain/pipeline/engine.py:122-212 | every sequence of runs, each with its own configuration, documents and failures, keeps the store's invariant |
| IngestTheorems.IncrementalOrRebuilt | core/domain/pipeline/engine.py:122-212 | after any history of runs under any configurations, an error-free run equals wipe and rebuild on ids and hashed fields, in any order and batch size, if and only if it converges; it then stores exactly the pieces the splitter returns; it is error-free if nothing fails and no summary is blank |
| IngestTheorems.RunCleanup | core/domain/pipeline/engine.py:104-116 | the one-pass cleanup engine empties the passages of the store; without errors the overview entry stays if and only if it was there and no stored document has the name of the overview or of what it summarises |
| Delivery.NoRetryAfterResult | main.py:812-900 | in a recorded run no retry is queued after a result was published |
| Delivery.Consumer.RetryOrReject | main.py:812-900 | the exact effects of a failed attempt: another attempt is queued exactly while attempts are left, the failure is not terminal and queueing succeeds; otherwise the error is published once; one settlement, an acknowledgement only where the caller asked for it and the error is out |
| Delivery.Consumer.DeliveryMeans | main.py:749-900 | of the effects of one delivery an answer is published if and only if the plugin gave one and that publish succeeded, an error exactly when the failed attempt was the last or terminal or could not be queued again and the publish succeeded, and settling comes last and once |
| Delivery.Consumer.HandleQuery | main.py:749-810 | the exact effects of one parsed delivery; a retry is queued exactly when attempts are left and no embedding failure or published result forbids it; acknowledged exactly after an answer is out or the error of a permanent embedding failure is |
| Delivery.Consumer.OnMessage | main.py:725-810 | the exact effects of one delivery: one plugin run if the body parses, exactly one settlement attempt, and a result, a retry or a failed publish |
| Delivery.Consumer.NextInChain | main.py:749-900 | what holds after n deliveries of the chain holds after n + 1 |
| Delivery.Consumer.Drain | main.py:749-900 | the whole retry chain, for every failure pattern: at most max_retries runs (the configuration enforces max_retries >= 1, core/config.py), at most one result and nothing queued after it, one settlement per delivery, exactly one result if the body parses and no result publish fails; an answer is published if and only if some delivery's run answered and that publish succeeded, and likewise the error |
| Delivery.Consumer.ChainMeans | main.py:749-900 | the effects of a chain of deliveries hold a published answer, or error, exactly where some delivery has one |
| Delivery.Consumer.PipelineMeans | main.py:642-709 | of the effects of one pipeline run an answer is published if and only if the plugin answered and the publish succeeded, and the generic error exactly when no answer is out and its own publish succeeds |
| Delivery.Consumer.RunPipeline | main.py:642-709 | the exact effects of one run: one published result, the generic error standing in for an answer that could not be published |
| Delivery.Consumer.OnIngest | main.py:749-810 | an ingest event is acknowledged first; a failed acknowledgement runs nothing, a successful one is followed by exactly the effects of one pipeline run |
| SingleFlight.NextKeeps | core/adapters/chromadb.py:55-113 | every event keeps the cache's invariant |
| SingleFlight.RunKeeps | core/adapters/chromadb.py:55-113 | every interleaving reaches only states in the invariant |
| SingleFlight.OneMoreThanFailures | core/adapters/chromadb.py:76-113 | submissions per key are at most one more than its failed or cancelled calls |
| SingleFlight.EveryInterleaving | core/adapters/chromadb.py:55-113 | for every sequence of events: at most one call per key outstanding, every caller with vectors has those of a successful call for its key, every caller that raised had a failed or cancelled one, nothing failed is cached, submissions bounded by failures |
| SingleFlight.CallerIsAnswered | core/adapters/chromadb.py:76-113 | in every reachable state a waiting caller whose call has settled gets that call's vectors if it succeeded and raises otherwise; with the call still out it waits on |
| SingleFlight.CallersShare | core/adapters/chromadb.py:76-113 | from every reachable open state two callers of a key that is not cached share one call and its outcome; a later caller hits the cache after a success and starts a new call after a failure |
| SingleFlight.CancellationIsPrivate | core/adapters/chromadb.py:76-113 | cancelling one waiting caller anywhere in a run changes nothing about the rest of it: calls, cache, phase and every other caller are as without it |
| SingleFlight.ExitSettles | core/adapters/chromadb.py:55-74 | once the scope is left, every call submitted before the exit began is settled, and the cache is empty unless the exit was itself cancelled |
| SingleFlight.UnclearedCache | core/adapters/chromadb.py:60-74 | after an exit cancelled while it waited, the cache is empty if and only if every call failed and was evicted |
| SingleFlight.SuccessOutlivesExit | core/adapters/chromadb.py:66-74 | such an exit, after which a success stays cached |
| SingleFlight.LateCallOutlives | core/adapters/chromadb.py:55-113 | from every reachable state in which the exit waits, a call for any key that is not cached can still be outstanding once the scope is left |
| SingleFlight.NoLateCallNoneOutlives | core/adapters/chromadb.py:55-74 | if no call is made while the exit waits, every call ever submitted is settled once the scope is left |
| SingleFlight.ExitWaits | core/adapters/chromadb.py:60-72 | a call under way when the exit begins makes the exit wait |
| SingleFlight.QueryEmbeddingScope.EmbedQuery | core/adapters/chromadb.py:76-113 | lookup and installation are one event of the interleaving model |
| SingleFlight.QueryEmbeddingScope.CompleteProviderTask | core/adapters/chromadb.py:97-113 | the done-callback replaces its own slot by a success and evicts anything else, as the model's event does |
| SingleFlight.QueryEmbeddingScope.StartExit | core/adapters/chromadb.py:55-74 | the exit collects the live tasks, and closes the scope at once if there are none, as the model's event does |
| SingleFlight.QueryEmbeddingScope.FinishExit | core/adapters/chromadb.py:55-74 | an exit that is not cancelled empties the cache with every awaited call settled |
| SingleFlight.QueryEmbeddingScope.AbortExit | core/adapters/chromadb.py:66-74 | a cancelled exit ends with every awaited call settled and the cache as it was |
| RankFusion.LessIsTotal | core/domain/rank_fusion.py:45-52 | any two candidates with different ids are ordered |
| RankFusion.LessIsTransitive | core/domain/rank_fusion.py:45-52 | the sort key's order is transitive |
| RankFusion.OneArrangement | core/domain/rank_fusion.py:127-136 | candidates with distinct ids have only one sorted arrangement |
| RankFusion.SortRanks | core/domain/rank_fusion.py:127-136 | sorting yields that arrangement of the same candidates |
| RankFusion.OrderIrrelevant | core/domain/rank_fusion.py:79-136 | the fused list does not depend on the order the dictionaries list documents in |
| RankFusion.DominantComesFirst | core/domain/rank_fusion.py:79-136 | a document ranked no worse in every arm and better in one of positive weight precedes the other |
| RankFusion.PrecedingComesFirst | core/domain/rank_fusion.py:45-52 | of two listed documents the one with the higher score comes first; with equal scores the one the dense arm ranks earlier or alone ranks; then the one with the earlier best lexical rank; then the smaller id |
| RankFusion.LexicalRankMeans | core/domain/rank_fusion.py:79-136 | the lexical rank is the best rank in any arm after the first |
| RankFusion.StringLessMeans | core/domain/rank_fusion.py:45-52 | ids are compared by code points: at the first difference, or as a proper prefix |
| RankFusion.DistanceIsDense | core/domain/rank_fusion.py:79-136 | a returned distance is the dense arm's own or None |
| RankFusion.TextIsItsOwn | core/domain/rank_fusion.py:79-136 | a returned text is one an arm holds for that very id |
| RankFusion.FirstSupplied | core/domain/rank_fusion.py:79-136 | text and metadata are those of the first arm and row that has any for the id |
| RankFusion.ReciprocalRankFusion | core/domain/rank_fusion.py:55-136 | the loops over dictionaries compute exactly the fused ranking |
| HybridRetrieval.FuseIsFusion | core/domain/hybrid_retrieval.py:51-197 | the fusion retrieval uses is the one the loops compute, whatever their order |
| HybridRetrieval.BothArmsAnswer | core/domain/hybrid_retrieval.py:182-197 | with both arms answering and weights not zero, retrieval answers, within the limit, with exactly the ids some arm returned; a distance is the dense arm's or None |
| HybridRetrieval.BothArmsOrder | core/domain/hybrid_retrieval.py:182-197 | in that answer a document that precedes another by score and ranks, or dominates it under the arms and their weights, comes first |
| HybridRetrieval.OneArmAnswers | core/domain/hybrid_retrieval.py:73-197 | with the feature off, no terms, a zero weight or no lexical arm the one arm asked answers as it is, except that a lost store of the lexical arm alone leaves no rows |
| HybridRetrieval.WhenItFails | core/domain/hybrid_retrieval.py:95-181 | exactly when retrieval raises, and which error: a store failure of a dense arm that is asked, or an embedding failure of any arm that is asked |
| HybridRetrieval.LosingLexicalKeepsDense | core/domain/hybrid_retrieval.py:51-197 | a lexical arm lost other than to an embedding error leaves the dense rows in dense order |
| HybridRetrieval.NothingDropped | core/domain/rank_fusion.py:55-136 | within the limit the fused list holds exactly the documents some arm returned, whatever the weights |
| HybridRetrieval.MutingIsNotZeroWeight | core/domain/hybrid_retrieval.py:73-93 | a document only the lexical arm returned surfaces when that arm is fused at weight zero, and not when it is muted |
| LexicalScore.CountDocuments | core/domain/lexical_score.py:84-95 | the counter holds every occurring term with the number of documents it occurs in |
| LexicalScore.DocumentFrequencyMeans | core/domain/lexical_score.py:67-95 | the document frequency is the number of passages that hold the term |
| LexicalScore.SaturationMeans | core/domain/lexical_score.py:152 | more occurrences of a term score higher and a longer passage lower, within the bound 2.2 |
| LexicalScore.NormMeans | core/domain/lexical_score.py:151 | a passage is discounted exactly if it is longer than the average |
| LexicalScore.BetterMatchesScoreMore | core/domain/lexical_score.py:143-153 | a passage no longer than another, with no fewer occurrences of any term, scores no lower, and higher if it has more of some term or is shorter and the other holds one |
| LexicalScore.RawScoreSign | core/domain/lexical_score.py:143-153 | a raw score is positive exactly for a passage that holds a term of the question |
| LexicalScore.ScoreMeans | core/domain/lexical_score.py:98-154 | every score lies in [0, 1] and is positive exactly for a passage that holds a term of the question |
| LexicalScore.LexicalScores | core/domain/lexical_score.py:98-154 | the nested loops compute those scores, one per passage, zeros when there is nothing to measure |
| Rerank.MinMaxKeeps | core/domain/rerank.py:22-36 | rescaled scores lie in [0, 1], never invert a comparison, and keep every one when the spread is wide enough |
| Rerank.DescendingIsOrder | core/domain/rerank.py:125-128 | the order lists every candidate once, better scores first and ties as given |
| Rerank.OneOrder | core/domain/rerank.py:125-128 | that order is unique |
| Rerank.VectorOrderKept | core/domain/rerank.py:103-106 | with no lexical share or signal the order is the stable vector order if and only if the spread is at least 1e-12 or the scores never rise |
| Rerank.Overtakes | core/domain/rerank.py:68-88 | the worst-vector, best-lexical passage listed after the best-vector one overtakes it if and only if w > 1 / (2 - L0) |
| Rerank.DominantPrecedes | core/domain/rerank.py:39-56 | a candidate no worse on both signals stays ahead, and moves ahead where a signal with weight and spread prefers it |
| Rerank.Rerank | core/domain/rerank.py:94-129 | a permutation of the candidates, its top-K slice, an empty list, or an error for lists that are not parallel |
| Rerank.UpToMeans | core/domain/rerank.py:125-129 | what a Python slice up to top-K keeps, a negative K included |
| RetrievalChain.RowOrderLists | plugins/expert/plugin.py:60-120 | with or without re-ranking every retrieved row occurs exactly once in the order |
| RetrievalChain.ApplyRerank | plugins/expert/plugin.py:60-120 | all four lists are permuted alike, short lists filled with the code's defaults |
| RetrievalChain.PickedFrom | plugins/expert/plugin.py:115-120 | a permuted row has the id, text, metadata and distance of the row it was, list by list, with the defaults of the code beyond a short list |
| RetrievalChain.SimilarityMeans | plugins/expert/plugin.py:93-108 | a nearer row is more similar, and a row with a distance passes the threshold by the similarity it is ranked by |
| RetrievalChain.BetterRowFirst | plugins/expert/plugin.py:60-120 | a row no farther and no worse matched than another comes before it, given first or better on a signal with weight and spread |
| RetrievalChain.PickPick | plugins/expert/plugin.py:115-120 | permuting then selecting takes every field of a row from one and the same retrieved row |
| RetrievalChain.PassingAfterPick | plugins/expert/plugin.py:137-158 | the same rows pass the threshold before and after re-ranking, missing distances included |
| RetrievalChain.PassingCount | plugins/expert/plugin.py:137-158 | how many rows pass does not depend on their order |
| RetrievalChain.PassingInOrder | plugins/expert/plugin.py:137-158 | the threshold keeps the order of the rows that pass |
| RetrievalChain.FilterAndFormat | plugins/expert/plugin.py:123-172 | the passing rows in order, with blocks numbered 1..n over the same rows |
| RetrievalChain.BlockShows | core/domain/prompts_shared.py:174-211 | a block is its number, the rest of its label, and the text of the row of that number |
| RetrievalChain.BlockCharge | core/domain/prompts_shared.py:222-231 | a block is charged its text by character and its label by UTF-8 byte, never less than its length |
| RetrievalChain.SuffixRemoved | core/domain/prompts_shared.py:230 | removing a suffix leaves what stood before it, and a text that does not end so as it is |
| RetrievalChain.Utf8SizeMeans | core/domain/prompts_shared.py:231 | the bytes of a character by the range its code point is in, section 3 of RFC 3629 |
| RetrievalChain.EnforceBudget | plugins/expert/plugin.py:435-496 | the kept blocks are the longest prefix whose charge with separators fits, with rows and blocks in step |
| RetrievalChain.BestRows | plugins/expert/plugin.py:274-295 | before budgeting there are K rows whenever K rows pass, no row twice, and all of them pass |
| RetrievalChain.RetrievePipeline | plugins/expert/plugin.py:498-527 | the composed chain: every final row's text, metadata, distance and id come from one retrieved row, blocks are numbered 1..n, and the rows are the longest fitting prefix of the best rows |
| RetrievalChain.JoinedWithinCost | core/domain/prompts_shared.py:217-231 | the joined context is never longer than what its blocks were charged |
| RetrievalChain.JoinedCosts | core/domain/prompts_shared.py:217-231 | with labels in ASCII the joined context is exactly as long as what its blocks were charged |
| Assertions.NormalizedContains | evaluation/assertions.py:52-68 | in text in normalization form C, normalising (that form, quote removal, case folding, white-space collapse) keeps the substring relation |
| Assertions.ValueNormalizes | evaluation/assertions.py:125-139 | a value stripped of quotes is found in its item, both normalised, if and only if it survives; unchanged by the form it normalises like the item |
| Assertions.HoldsWherever | evaluation/assertions.py:52-68 | the value of an item holds of every answer in the form that contains the item if and only if it survives |
| Assertions.PiecesSplit | evaluation/assertions.py:142-160 | the comma split is lossless, cuts only outside parentheses and at every comma there |
| Assertions.OneSplit | evaluation/assertions.py:142-160 | no other list of pieces is such a split |
| Assertions.SplitTopLevelCommas | evaluation/assertions.py:142-160 | the accumulating loop computes that split, stripped |
| Assertions.ItemsContained | evaluation/assertions.py:171-183 | every cleaned enumeration item is a substring of the answer's body, the conjunction's removal included |
| Assertions.EnumerationHolds | evaluation/assertions.py:163-198 | every enumeration value that survives holds of the answer in the form it was derived from |
| Assertions.NothingMissing | evaluation/assertions.py:237-246 | nothing is missing if and only if the answer holds every value of every assertion |
| Assertions.EvaluateAssertions | evaluation/assertions.py:226-246 | the nested loops report exactly the missing values, in order, and the status |
| Assertions.OwnAnswerPasses | scripts/build_golden_set.py:82-104 | for any answer in the form and any literals quoted from it, only enumeration values that do not survive can be missing, so evaluating its own derived assertions does not fail if all survive |
| Assertions.EnumerationReads | evaluation/assertions.py:163-198 | three or more short items written out as a sentence are derived back, each as its value |
| Assertions.ConjunctionReads | evaluation/assertions.py:176-183 | with "and" or "or" before the last item, in any case, the same values are derived |
| Assertions.OnlyConjunctionsGo | evaluation/assertions.py:176-178 | of an item nothing but a leading "and" or "or" followed by white space is removed |
| Assertions.ParenthesesGo | evaluation/assertions.py:194 | parentheses are taken off both ends of a word as far as they reach, and nothing else is |
| Assertions.OnlyEnumerationsRead | evaluation/assertions.py:163-198 | values are derived only from an answer that ends in a full stop and consists of three or more items of one to four words with balanced parentheses, the first not opening with a stop-word |
| Assertions.SpacedRead | evaluation/assertions.py:52-68 | words joined by single spaces are split back into those words |
| Assertions.HoldsInSentence | evaluation/assertions.py:226-246 | a value without comma and full stop holds of an enumeration in the form if and only if it survives among the items |
| Assertions.SentencePasses | scripts/build_golden_set.py:82-104 | an enumeration in the form whose values have no comma or full stop passes its own assertions, literals included, if and only if every value survives among its items |
| Assertions.CopiesPass | scripts/build_golden_set.py:82-104 | an enumeration of copies of one item passes if and only if its value survives |
| Assertions.QuotedMarkFails | evaluation/assertions.py:52-68 | an enumeration that begins with a base character, a quote and a mark composing with the base misses that value, unless it holds the composed character elsewhere |
| Assertions.LongerAnswerPasses | evaluation/assertions.py:226-246 | an answer in the form that contains a passing answer passes |
| Assertions.PassesWhatever | evaluation/assertions.py:226-246 | one answer passes whatever another passes if and only if its normalised text contains the other's |
| Assertions.ComposedEndFails | evaluation/assertions.py:52-68 | an answer followed by a mark that composes with its end contains it and fails where it passes |
| Assertions.QuoteItemChecksNothing | evaluation/assertions.py:125-139 | a derived value is empty if and only if its item is made of quotes and white space |
| PromptGraph.NormalizeCleans | core/domain/prompt_graph.py:318-370 | normalising leaves no list-form properties at any position it visits |
| PromptGraph.NormalizeTwice | core/domain/prompt_graph.py:318-370 | normalising is idempotent, and a schema is unchanged if and only if it was clean |
| PromptGraph.NormalizeKeeps | core/domain/prompt_graph.py:318-370 | what is neither visited nor filled in is left as it was |
| PromptGraph.ListFormReads | core/domain/prompt_graph.py:326-352 | a list-form schema requires the names that are not optional unless it says itself what is required, and is an object unless it says what it is |
| PromptGraph.ConvertedReads | core/domain/prompt_graph.py:333-341 | a property keeps what its entry says, but for name and optionality |
| PromptGraph.LastEntryDecides | core/domain/prompt_graph.py:326-344 | the last list entry of a name decides its property and no other name becomes one |
| PromptGraph.RequiredAre | core/domain/prompt_graph.py:339-346 | the names required are those of the entries not marked optional |
| PromptGraph.EntryReads | core/domain/prompt_graph.py:331-343 | an entry has a text for a name, and is optional if the value it gives for that is true in the sense of Python |
| PromptGraph.NullableAllows | core/domain/prompt_graph.py:304-316 | an optional property allows null and every type it allowed before; it keeps its default or gets null, and keeps all else |
| PromptGraph.Recovery.Walk | core/domain/prompt_graph.py:251-269 | the recursive walk binds fields exactly as the preorder list of their occurrences does |
| PromptGraph.OccurrenceReads | core/domain/prompt_graph.py:257-264 | a key stands for the field of its name, else for the field it names before "_text", else for none |
| PromptGraph.RecoveredSomething | core/domain/prompt_graph.py:266-268 | something is recovered if and only if some field occurs |
| PromptGraph.FirstOccurrenceWins | core/domain/prompt_graph.py:251-269 | a field is bound to its first non-null occurrence, and to null only if all occurrences are null |
| PromptGraph.RecoveredBinds | core/domain/prompt_graph.py:269-294 | after completion: the first value, the stand-in of a required field without one, or null for an optional field with only nulls; fields of the model only |
| PromptGraph.WrappingIsHarmless | core/domain/prompt_graph.py:222-231 | an answer wrapped under foreign keys recovers as if it were bare |
| PromptGraph.RecoverFields | core/domain/prompt_graph.py:221-294 | nothing found gives no answer; otherwise the answer is what the model's validation makes of the completed binding, which may be none |
| CrawlUrl.PathFixed | plugins/ingest_website/crawler.py:34-39 | normalising leaves a path as it is if and only if it is the root or does not end in a slash, and parameters of its last segment are not empty and stand behind some text or directly under the root |
| CrawlUrl.NormalizeReads | plugins/ingest_website/crawler.py:34-39 | the fragment goes and so do the slashes at the end of the path, or of what precedes its parameters; a path of slashes becomes the root; empty parameters go; all else stays |
| CrawlUrl.NormalizeTwice | plugins/ingest_website/crawler.py:34-39 | normalising a second time changes nothing if and only if what is left of the path after the first cut settles; the domain never changes |
| CrawlUrl.SemicolonGoesLater | plugins/ingest_website/crawler.py:34-39 | "/b;/" becomes "/b;" the first time and "/b" the second |
| Crawler.PoppedHolds | plugins/ingest_website/crawler.py:84-95 | settling the head of the queue keeps the crawl's invariant |
| Crawler.WithPageHolds | plugins/ingest_website/crawler.py:114-138 | returning a page and queueing its links keeps the crawl's invariant |
| Crawler.AnswersAreDistinct | plugins/ingest_website/crawler.py:84-121 | returned URLs are pairwise distinct, on the base domain, at most page_limit, and each its own page's URL as it is normalised, with the page's HTML; each page answers a request on the domain that is not for a file |
| Crawler.EmptyQueueCloses | plugins/ingest_website/crawler.py:84-138 | if the queue runs empty, for every eligible link on a returned page its target was visited, or what is requested for it was visited or is not eligible; the target itself was visited whenever the link settles at once |
| Crawler.UnsettledLinkIsMissed | plugins/ingest_website/crawler.py:84-138 | for every link that does not settle at once there is a site whose crawl works off its queue and never visits the eligible target |
| Crawler.EveryTurnKeeps | plugins/ingest_website/crawler.py:84-140 | every state any number of worklist turns can reach satisfies the invariant |
| Crawler.CrawlSite | plugins/ingest_website/crawler.py:57-143 | the crawl terminates in a state of that worklist; returned URLs are distinct, on the domain, at most page_limit and each found from the base through earlier pages; it raises if and only if the first request cannot reach the base |
| BodyReader.Decode | plugins/url_guard.py:433-436 | the identity path loses nothing and yields at most one byte over the limit |
| BodyReader.ReadChunk | plugins/url_guard.py:489-512 | one chunk through decoder and window: refused only with a full window the policy dislikes |
| BodyReader.ReadBounded | plugins/url_guard.py:458-524 | terminates with the specified answer; the policy is asked about the first min(4096, length) bytes and nothing else |
| BodyReader.AcceptanceIgnoresChunks | plugins/url_guard.py:458-524 | acceptance and returned bytes depend only on the whole body, which an accepted read returns in full and within the limit |
| BodyReader.RefusalDependsOnChunks | plugins/url_guard.py:489-512 | one over-long body with an unwanted window, in two chunks refused for its type and in one for its size |
| BodyReader.ReadingDependsOnChunks | plugins/url_guard.py:458-524 | two chunkings of one body can be answered differently if and only if the body is over the limit, the limit is at least a window, and the policy refuses the window |
| SpaceTree.Reader.AppendUnique | plugins/ingest_space/space_reader.py:253-290 | appends exactly when the stripped content is non-empty and its key is new |
| SpaceTree.Reader.ProcessCallout | plugins/ingest_space/space_reader.py:368-536 | a callout and its contributions are emitted in order, contributions at tier 3, a callout without id not at all |
| SpaceTree.Reader.ProcessSpace | plugins/ingest_space/space_reader.py:293-365 | the recursion emits the preorder listing, each draft under the position its path gives |
| SpaceTree.ReadTree | plugins/ingest_space/space_reader.py:118-168 | a whole tree, or a knowledge base under its own kind |
| SpaceTree.EmitDropsRepetitions | plugins/ingest_space/space_reader.py:266-290 | the documents are the drafts with empty contents and later repetitions of a content key dropped |
| SpaceTree.KeysDiffer | plugins/ingest_space/space_reader.py:266-290 | no two documents share a content key |
| SpaceTree.KeyKept | plugins/ingest_space/space_reader.py:266-290 | every non-empty content is represented by a document with its key |
| SpaceTree.SpaceInTree | plugins/ingest_space/space_reader.py:293-365 | every draft sits under spaces and a callout that really enclose it, all with an id |
| SpaceTree.SpaceDrafted | plugins/ingest_space/space_reader.py:330-365 | every described space reached through identified spaces is drafted, name and description as its text, under its own id, kind and place |
| SpaceTree.CalloutDrafted | plugins/ingest_space/space_reader.py:368-420 | every described, identified callout of a reachable space is drafted at its place, name and description as its text |
| SpaceTree.ContributionDrafted | plugins/ingest_space/space_reader.py:421-536 | every post and whiteboard with a text, and every link that has anything, of an identified callout of a reachable space is drafted at its place with its title and text |
| SpaceTree.TextsRead | plugins/ingest_space/space_reader.py:421-536 | the text of a post follows the callout's introduction and its title; a link with a body has the body's text and no introduction, one without names its address |
| SpaceTree.ContextReads | plugins/ingest_space/space_reader.py:410-416 | the introduction is the callout's name and the first 400 characters of its stripped description |
| SpaceTree.ParagraphsAppend | plugins/ingest_space/space_reader.py:421-536 | paragraphs that are empty are left out, with one blank line between any two others |
| SpaceTree.TreeDocuments | plugins/ingest_space/space_reader.py:118-137 | the documents of a tree, both facts together |

## Left out

- Ingest: chunk objects are values at positions of the context's list, so aliasing between a chunk and its batch is not modelled; concurrent summaries and embeddings run in list order.
- Ingest: `uri`, display names and `chunkIndex` are outside the fingerprint, so agreement of runs covers ids, hashed fields and vectors only.
- Ingest: counters, metrics, spans and log lines; the generic step list is unrolled to the wiring the plugins use, and a step that itself raises is not modelled.
- Ingest: a failed UTF-8 encoding of a lone surrogate, and the quality or later self-healing of summary texts.
- Detection.ChangeDetection: the store's two reads see one snapshot; entries lost to a concurrent writer are not modelled.
- IngestTheorems.IncrementalOrRebuilt: agreement is of passages; a document that was not new keeps the summary an earlier run made, if any could reach the model, and the code does not promise more.
- Delivery: redelivery by the broker after a failed acknowledgement or rejection, cancellation of a running pipeline, task bookkeeping and tracing.
- SingleFlight: calls made after the scope is closed are not events; thread pools and the HTTP client behind a provider call.
- LexicalScore: the tokenizer's regular expression, the truncation of long questions and passages, and the logarithm itself.
- Rerank: floating-point rounding; scores are real numbers.
- RetrievalChain: the hierarchy stage in front of the flat retrieval only chooses which predicate is queried; the sentence that replaces an empty context; the parts of a label after its number are any text derived from the metadata.
- Assertions: the patterns that find literals are replaced by any substrings of the answer; normalization form C is any function under which text in the form is closed under substrings (section 1.4 of UAX #15), and its composition tables are not part of this model.
- Assertions.SentencePasses: a value with a comma, which only parentheses allow, or a full stop can be found across two items and is not covered by the converse; OwnAnswerPasses covers it in the other direction.
- PromptGraph.NormalizeCleans: an entry whose name is not a string is skipped, where the code would keep a hashable one as a key or raise.
- PromptGraph: finding the JSON text within an answer, model creation (its validation is any function), routing, node execution, definition parsing and the document join are not part of this model.
- Crawler: only the outer split of a URL into scheme, domain, path, query and fragment is taken to be undone by printing; resolving links, the extension list, and fetching; that redirects stay on the domain is the fetch policy's promise.
- BodyReader: gzip and deflate coding, and the check of decoded bytes against the remaining room, which cannot fail for identity coding.
- SpaceTree: fetching and extracting link bodies (a link carries the text it would yield), the fetch statistics, `uri` and `source`; a post, whiteboard or link without an id, on which the code raises.
- Everything else in the repository: adapters, configuration, routing tables, classifiers, prompts, evaluation reports, address and redirect policy, and guidance's cross-collection merge.
