# jumpdrive-index, verified

The repository is an event-sourced knowledge-graph store. An append-only fact log is the truth; a
projection (entities, external ids, embeddings, edges, full-text rows) is kept in step with it by
every write and can be folded again from the log. This project models the store, the workflows and
caches around it, and proves what they promise over all inputs, all runs and all interleavings.
Where a promise does not hold of the code, the exact condition under which it does is proved, and a
short concrete run shows it failing.

`dafny verify dfyconfig.toml` checks everything (Dafny 4.11).

## How it is laid out

| module | what it holds |
|---|---|
| `Order`, `Json`, `Domain`, `DedupeKey`, `Resolve` | orders and sorts; merge patch and the two unions; the vocabulary; the dedupe-key bytes; the resolve decision and the exact ranking |
| `Tables`, `Store` | the projection tables and what one fact does to them; every write as a script of emissions (each changes the tables and logs the fact that says so); runs |
| `Invariants`, `Acceptance`, `Runs`, `Merging`, `Spaces`, `FullText` | what every write and every run keeps; which writes go through and what the others are told; rebuild; merging; spaces; full text |
| `Effects`, `OtherWrites` | what an accepted write leaves in every table and in the log, told column by column from the request and the tables before it |
| `Search` | the filtered nearest-neighbour search |
| `SqliteStore` | the SQLite adapter as a class whose methods update the tables in place and roll back on error, each equal to its `Store` function |
| `Access`, `Reachability`, `Neighbors`, `Dual` | `CanRead`, the WHERE fragments both adapters compile, the bounded traversal, dual verification |
| `DecisionCache`, `KeyCache`, `Proposals` | the LRU decision cache; the shared key cache and the governed writes as interleaved state machines |
| `Fusion` | reciprocal-rank fusion |
| `Ingest`, `OneSpace`, `FirstIngest`, `IngestedGraph`, `Reingest`, `Heirs`, `Histories` | the ingestion workflow, the graph it draws, running it again, and doing so after any history of other writes and other ingestions, whole or interleaved call by call |
| `Witnesses`, `WorkExample`, `RerunFails` | short runs and a history in which a promise fails |

Ids and clock readings are inputs: a run is any list of writes whose minted ids are new to the log
where they are used (`Store.IsRun`). Timestamps are the stored RFC 3339 text, ordered as text, which is what
`ORDER BY created_at, id` compares; no time order is assumed. Cosine similarity, Unicode lower-casing and
the SHA-256 digest are parameters; the digest is taken to be injective only where that is written as a
premise. SQLite has one writer connection, so its writes are serial and all-or-nothing; the key cache and
the proposal deciders are interleaved step by step.

## Where the code and its comments differ

- "Existing values WIN" (internal/store/sqlite/entities.go:213-215) fails for a stored JSON `null`: the merge
  patch deletes it. `Json.UnionKeepsStoredIff` gives the exact condition.
- A rebuild "cannot diverge" from the live tables (internal/store/sqlite/sqlite.go:177-180) fails for an entity
  asserted with no props at all, and leaves full-text rows of retracted entities behind.
  `Runs.RebuildExactThroughoutIff` and `FullText.RebuildOrphansIff` are exact; `Witnesses.RebuildCanDiffer` and
  `Witnesses.RebuildCanOrphan` are the runs. Edge props that are SQL NULL and the JSON text `null` count as equal.
- A write in one space can neither attach to nor reveal an entity in another
  (internal/store/sqlite/entities.go:449-453): the vector lookup is not scoped by space, so an attach by vector
  can file a key under the candidate's space on an entity of another. `Spaces.SpacesAgreeThroughoutIff` is
  exact, `Spaces.NextAttachesIff` says when the next append still finds the entity; `Witnesses.VectorCanStray`
  is the run.
- Re-running an ingestion is meant to be idempotent (internal/ingest/ingest.go:50-52, 300-301). The anchor step repeats
  the tmdb key, which the derived dedupe key counts twice, so the second run logs a second anchor, and fails if that key
  was ever logged for an entity that is gone. `Histories.RerunIff` is exact; `Histories.RerunSucceeds`: it cannot
  happen unless somebody retracts an entity or merges two directly, which nothing but the store's own interface
  offers; `RerunFails.RerunCanFail` is such a history.
- A reject that loses the race reports success (internal/store/sqlite/proposals.go:62-67). `Proposals.RejectDiscardsIff`
  says which successful rejects discarded, `Proposals.RejectsAlwaysDiscardIff` when all of them must.
- Of several `max-age` directives the code keeps the last (internal/access/jumpdrive/jumpdrive.go:370-381), where
  section 4.2.1 of RFC 9111 uses the first or treats the response as stale: a decision can outlive it.
  `DecisionCache.NeverOutlivesIff` says for which headers, `DecisionCache.TwoMaxAgesOutlive` is the example. A `max-age` beyond 292 years
  wraps a 64-bit duration, which only shortens the time.

## Model

| member | source | states |
|---|---|---|
| Json.UnionKeepsStoredIff | internal/store/sqlite/entities.go:213-221 | attaching keeps every stored leaf, for every candidate, exactly when the stored bag holds no null |
| Json.AttachedIff | internal/store/sqlite/entities.go:213-221 | the merge patch is the only bag in which no stored leaf is lost or changed but the null members (which go), stored objects stay objects, what only the candidate has arrives whole, and there is nothing else |
| Json.UnionAddsMissing | internal/store/sqlite/entities.go:213-221 | a candidate key missing from a stored object, at any depth, is added with its whole value |
| Json.UnionInventsNothing | internal/store/sqlite/entities.go:213-221 | every leaf of the union comes from the stored bag or the candidate |
| Json.UnionFixedIff | internal/store/sqlite/entities.go:213-221 | the union changes nothing exactly when the stored bag holds no null and the candidate brings no new key at any depth |
| Json.UnionIdempotentIff | internal/store/sqlite/entities.go:213-221 | applying the same candidate a second time changes nothing exactly when, wherever both sides are objects, no candidate key meets a stored null and what only the candidate has holds no null |
| Json.UnionNullFree | internal/store/sqlite/entities.go:213-221 | the union of null-free bags stays null-free |
| Json.AdaptersAgreeIff | internal/store/postgres/entities.go:221-225 | for any two objects the merge patch equals the shallow jsonb union exactly when the stored bag holds no null and no object under a shared key gains anything |
| DedupeKey.DeriveDedupeKey | internal/domain/idkey.go:28-46 | the hashed bytes, built key by key, are those of the specification |
| DedupeKey.DerivedBytesIff | internal/domain/idkey.go:18-46 | without NULs two calls hash the same bytes exactly for the same type and the same multiset of keys, or with no keys the same normalised name; so key order never matters |
| DedupeKey.NulCollides | internal/domain/idkey.go:28-46 | with a NUL inside an id, two different key lists hash the same bytes |
| DedupeKey.RandomKeyNeededIff | internal/domain/idkey.go:48-54 | a random key is asked for exactly when the derived bytes would be every anonymous entity's |
| DedupeKey.NormalizedIff | internal/domain/idkey.go:56-60 | two names normalise alike exactly when, lower-cased, they consist of the same words |
| Domain.ExtractNameIs | internal/store/sqlite/entities.go:611-623 | the name a key falls back on is the text at that path of the props, and empty when there is none |
| Resolve.DedupeIDs | internal/domain/resolve.go:188-201 | the loop computes the list without repeats |
| Resolve.OncesKeepOrder | internal/domain/resolve.go:186-201 | same elements, each once, in the order of their first places (so the first stays the merge target) |
| Resolve.MaxScoreOf | internal/domain/resolve.go:203-214 | the loop computes the first highest-scoring neighbour |
| Resolve.MaxScoreIsFirstMax | internal/domain/resolve.go:203-214 | it is a greatest score, and no earlier neighbour reaches it |
| Resolve.DecisionOnHits | internal/domain/resolve.go:128-184 | one hit attaches, several merge into the oldest, and the vector bands decide only under auto with no hit |
| Resolve.RankedIsExact | internal/store/sqlite/search.go:74-90 | the ranking lists every scored entity once, score descending then id ascending |
| Resolve.WalkOrderIrrelevant | internal/store/sqlite/search.go:74-88 | whatever order the score map is walked in, sorting gives that ranking |
| Resolve.NearestIsChosen | internal/domain/resolve.go:203-214 | the neighbour acted on is the smallest id among the entities with the greatest best-score |
| Resolve.TruncationHarmless | internal/store/sqlite/entities.go:88-94 | keeping only a few ranked neighbours never changes the decision |
| Resolve.ClampRows | internal/store/postgres/search.go:66-83 | the row loop clamps every score into [0,1] |
| Resolve.ClampingHarmlessIff | internal/domain/resolve.go:44-61 | with the bands in order, clamping never changes a decision exactly when the thresholds validate |
| Effects.HitsOldestFirst | internal/store/sqlite/entities.go:449-480 | the lookup returns exactly the live holders of one of the keys in that space, each once, by the text of their time of creation and then by id |
| Order.TextLeIff | internal/store/sqlite/entities.go:466 | text is ordered by the first character that differs, a prefix first |
| Effects.OldestSurvives | internal/store/sqlite/entities.go:152-184 | an accepted append that finds holders and is not forced is written to one created no later than any other (equal times: no greater id); the other holders are gone and everyone else stays |
| Effects.NearestIsWritten | internal/store/sqlite/entities.go:76-150 | without holders, or forced, it is written to the live entity of its type with the greatest similarity (least id first) when that reaches the first threshold under the auto policy, and to a new entity otherwise |
| Effects.RowAfterAppend | internal/store/sqlite/entities.go:191-227 | a new entity's row holds the candidate's type, props, space, owner, visibility and provenance and the time; a row attached to keeps all of its own but the props, which take the candidate's in, and the time of update; every other row is untouched |
| Effects.IdsAfterAppend | internal/store/sqlite/entities.go:229-238 | every external-id row was there, on the same entity or on a holder merged into it, or files one of the candidate's ids in its space; bystanders keep theirs |
| Effects.VectorsAfterAppend | internal/store/sqlite/entities.go:239-245 | each slot the candidate lists holds the last vector listed for it; the others what the oldest holder that filled it had; bystanders keep theirs |
| Effects.EdgesAfterAppend | internal/store/sqlite/entities.go:105-184 | every edge is there, its ends at holders moved to the entity written to; and one edge more, the inferred sameAs? to the nearest neighbour, exactly in the review band |
| Effects.LogAfterAppend | internal/store/sqlite/entities.go:254-279 | the assertion is logged under the given key, one merge for each other holder and the flagging edge under keys of their own, and nothing else |
| Effects.DerivedKeysIff | internal/domain/idkey.go:28-46 | with an injective digest two writes derive one key exactly when they agree on the type and on how often they name each external id |
| Invariants.StepKeepsInv | internal/store/sqlite/entities.go:24-184 | every write and every rebuild keeps keys, foreign keys, unique dedupe keys, current full-text rows and a log that folds back |
| Invariants.RunKeepsInv | internal/store/sqlite/migrations/0001_init.sql:14-91 | the same over every run: in particular each (writer, dedupe key) is logged once and every edge joins two live entities |
| Acceptance.AcceptedIff | internal/store/sqlite/entities.go:24-184 | an entity write goes through exactly when the request is well formed, the policy decides, the new row passes the checks, and no dedupe key of its merges, its assertion or its flagging edge is logged |
| Acceptance.EarlyAnswers | internal/store/sqlite/entities.go:24-74 | an unknown type or visibility, then an unknown policy, is refused as such; a key that asserted an entity before names that entity, or reports it gone |
| Acceptance.EdgeAcceptedIff | internal/store/sqlite/edges.go:20-95 | an edge write goes through exactly when predicate and visibility are known, both ends are live, the method is known, the props are JSON and the key is unused |
| Acceptance.EdgeAnswers | internal/store/sqlite/edges.go:20-95 | each other answer: unknown, first asserted under that key as (or gone), does not fit, duplicate |
| Acceptance.DefaultKeysIff | internal/store/store.go:63-69 | without bars two edges derive one key exactly when they agree on space, predicate and both ends |
| Runs.RepeatIsNoOp | internal/store/sqlite/entities.go:58-74 | a write under a logged (writer, key), of whatever kind, changes neither log nor projection |
| Runs.ReplayChangesNothing | internal/store/sqlite/entities.go:270-279 | over every run, repeating an accepted write at any later point changes nothing |
| Runs.GoneStaysGone | internal/store/sqlite/entities.go:340-345 | an entity id merged away or retracted never returns, in any continuation of the run |
| Runs.EdgeStaysGone | internal/store/sqlite/edges.go:138-157 | nor does an edge that was there and is gone, by a write or a rebuild |
| Runs.RetractedForGood | internal/store/sqlite/edges.go:138-157 | so a retracted edge is gone for good |
| Runs.LogGrows | internal/store/sqlite/entities.go:270-279 | the log is append-only along a run |
| Runs.StepExactIff | internal/store/sqlite/entities.go:191-250 | from an exact state a write keeps a rebuild exact precisely when it logs all it did |
| Runs.RebuildExactThroughoutIff | internal/store/sqlite/sqlite.go:177-217 | over every run, folding the log gives exactly the live entities, external ids, embeddings and edges after every step precisely when every append carried props or attached to null-free ones |
| Runs.RebuildExactWithProps | internal/store/sqlite/sqlite.go:177-217 | so in runs whose appends all carry props a rebuild changes nothing |
| Merging.MergeAbsorbs | internal/store/sqlite/entities.go:319-352 | merging two live entities breaks no constraint; keep has both key sets and both slot sets (its own vectors winning), every edge id stays re-pointed, drop is gone, all others are as before |
| Merging.MergeListAbsorbs | internal/store/sqlite/entities.go:152-166 | a whole merge list gives the union over the list, earlier holders' vectors winning |
| Spaces.AppendCarriesAllKeysIff | internal/store/sqlite/entities.go:229-238 | after an accepted append the entity carries every key of the candidate, unless the policy was force_new and one is already held in that space, exactly |
| Spaces.HolderAttracts | internal/domain/resolve.go:133-153 | an entity under which all of a candidate's keys are filed in the candidate's space takes the write |
| Spaces.NextAttachesIff | internal/store/sqlite/entities.go:454-480 | after a write, every append there of any non-empty choice of its keys, under a new dedupe key and not force_new, attaches to the same entity exactly when the keys are all filed under that entity in the write's own space |
| Spaces.RunNextAttaches | internal/store/sqlite/entities.go:229-238 | so over every run that never strays, after any append that stays in its space and is not force_new |
| Spaces.SpacesAgreeThroughoutIff | internal/store/sqlite/migrations/0004_per_space_external_ids.sql:1-19 | over every run each external-id row stays in its entity's space precisely when no vector attach or direct merge carried a new key across spaces |
| Spaces.AppendIsolated | internal/store/sqlite/entities.go:449-480 | where rows and entities agree on spaces, an append that does not attach by vector into another space leaves the entities, keys and embeddings of every other space as they were |
| Spaces.RunAppendIsolated | internal/store/sqlite/entities.go:449-480 | and so in every run that never strays |
| Spaces.AppendKeepsEdges | internal/store/sqlite/entities.go:152-166 | and every edge of any space stays, at most re-pointed |
| FullText.RunHasNoOrphans | internal/store/sqlite/fts.go:67-83 | until a rebuild the full-text table holds exactly one current row for each live entity and no other |
| FullText.IndexedText | internal/store/sqlite/fts.go:85-98 | that row is the type and every non-empty top-level text of the stored props |
| FullText.RebuildOrphansIff | internal/store/sqlite/entities.go:290-292 | a rebuild leaves a row without an entity exactly when the log retracts an entity that was live |
| Witnesses.RebuildCanDiffer | internal/store/sqlite/entities.go:199-202 | one entity without props: the rebuild is not exact |
| Witnesses.RebuildCanOrphan | internal/store/sqlite/entities.go:290-292 | one entity written and retracted: no orphan live, one after a rebuild |
| Witnesses.VectorCanStray | internal/store/sqlite/entities.go:88-94 | two near-identical notes in two spaces: a key filed under the wrong space |
| SqliteStore.Sqlite.SyncEntityFTS | internal/store/sqlite/fts.go:67-83 | afterwards a live entity has one row, the text of its stored props, a dead one none, and every other entity's rows are as they were |
| SqliteStore.Sqlite.UpsertEntitySnapshot | internal/store/sqlite/entities.go:191-250 | the statements do to the tables what the table function says (`Effects.RowAfterAppend`, `IdsAfterAppend` and `VectorsAfterAppend` say what that is), or nothing on error |
| SqliteStore.Sqlite.UpsertEdgeSnapshot | internal/store/sqlite/edges.go:80-95 | inserts the specified edge row (`OtherWrites.EdgeWritten`) under the foreign keys and checks, or nothing |
| SqliteStore.Sqlite.InsertFact | internal/store/sqlite/entities.go:270-279 | appends the fact, or reports a duplicate and leaves the log |
| SqliteStore.Sqlite.MergeEntitiesTx | internal/store/sqlite/entities.go:319-352 | the statement list as a whole is the merge of the tables |
| SqliteStore.Sqlite.MoveExternalIds | internal/store/sqlite/entities.go:337-338 | deleting what keep has and reassigning the rest moves every key |
| SqliteStore.Sqlite.MoveEmbeddings | internal/store/sqlite/entities.go:341-342 | the same for the embedding slots |
| SqliteStore.Sqlite.MoveEdges | internal/store/sqlite/entities.go:343-344 | both endpoints re-pointed |
| Search.FilteredKnnIsExact | internal/store/sqlite/search.go:40-91 | under a caller's filter the search lists exactly the entities the caller can read that have an embedding of the model and type, each once with its best score, best first and equal scores by id; a limit keeps the first of them |
| SqliteStore.Sqlite.KnnByModel | internal/store/sqlite/search.go:40-91 | the row loop, map walk and sort, in any order, return that list, filtered or not |
| SqliteStore.Sqlite.AppendEntityFact | internal/store/sqlite/entities.go:24-184 | the transaction ends in the specified store and outcome (`Effects`), rolled back on every error |
| SqliteStore.Sqlite.AppendEdgeFact | internal/store/sqlite/edges.go:20-76 | likewise for edges (`OtherWrites.EdgeWritten`, `EdgeNotWritten`), with the replay short-circuit |
| SqliteStore.Sqlite.MergeEntities | internal/store/sqlite/entities.go:355-383 | likewise for direct merges, refusing missing endpoints |
| SqliteStore.Sqlite.RetractEntity | internal/store/sqlite/entities.go:387-407 | likewise, with the cascade and the full-text row |
| SqliteStore.Sqlite.RetractEdge | internal/store/sqlite/edges.go:140-157 | likewise for edges (`OtherWrites.EdgeRetraction`) |
| OtherWrites.EdgeWritten | internal/store/sqlite/edges.go:63-95 | an accepted edge write adds one edge under a new id with the requested ends, predicate, space, owner, visibility, props and provenance, and its fact; no other edge, entity, key, vector or text changes |
| OtherWrites.EdgeNotWritten | internal/store/sqlite/edges.go:43-62 | any other answer changes nothing; a replay names the edge first asserted under the key, which is still there |
| OtherWrites.EdgeRetraction | internal/store/sqlite/edges.go:140-157 | goes through exactly when its key is unused, and then removes that edge and nothing else, and logs one fact |
| OtherWrites.EntityRetraction | internal/store/sqlite/entities.go:387-407 | likewise removes the entity, its external ids, its vectors, the edges at it and its full-text row, and nothing else |
| OtherWrites.DirectMerge | internal/store/sqlite/entities.go:355-383 | goes through exactly when both entities are there and the key is unused; then the one is absorbed into the other, which is updated at that time, and the text row goes |
| SqliteStore.Sqlite.FoldOne | internal/store/sqlite/entities.go:282-314 | one logged fact folded into the tables |
| SqliteStore.Sqlite.RebuildProjection | internal/store/sqlite/sqlite.go:181-217 | clearing the tables and looping over the log gives the fold of the log, or leaves the store alone |
| Access.FilterIsCanRead | internal/access/starchart/starchart.go:114-142 | the filter admits a row exactly when CanRead does; without the type gate, exactly when CanRead without its type test does |
| Access.ClauseIsCanRead | internal/store/sqlite/sqlite.go:263-287 | evaluating the compiled fragment with its arguments equals CanRead, spliced anywhere, for `?` and `$n` alike |
| Access.AccessClause | internal/store/sqlite/sqlite.go:263-287 | the positional compiler builds that fragment and its arguments |
| Access.ArgList.AccessClause | internal/store/postgres/postgres.go:222-257 | the numbered compiler appends the arguments after those it has and numbers on |
| Access.SqliteIncidentQuery | internal/store/sqlite/neighbors.go:82-108 | for every joined row the whole query evaluates to: incident, edge visible, far end visible, predicate wanted |
| Access.PostgresIncidentQuery | internal/store/postgres/neighbors.go:91-116 | the same rows, numbered |
| Neighbors.QueryIsIncident | internal/store/sqlite/neighbors.go:82-108 | the query's rows are the edges the traversal should follow, each with its far end, and besides them only self-loops |
| Neighbors.IncidentVisible | internal/store/sqlite/neighbors.go:82-130 | those edges, each once, in whatever order they come |
| Neighbors.Expand | internal/store/sqlite/neighbors.go:46-70 | one frontier node: gains exactly its far ends and edges, or stops right after reaching the limit |
| Neighbors.Level | internal/store/sqlite/neighbors.go:44-74 | one hop over the frontier |
| Neighbors.Traverse | internal/store/sqlite/neighbors.go:23-78 | either exactly the visible entities within the clamped hops and exactly the edges leaving inner ones, or, under a limit, just max(2, limit) entities, cut while one of them was looked at, all visible edges of those before it listed; always without repeats, closed under endpoints, nearer entities first, each but the start joined by a listed edge to one listed before |
| Neighbors.HiddenPartIrrelevant | internal/store/sqlite/neighbors.go:12-22 | stores that agree on the visible part give the same sets, whatever they hide |
| Reachability.WithinStops | internal/store/sqlite/neighbors.go:44-46 | an empty frontier ends the search: nothing new at a level, nothing new later |
| Dual.Intersect | internal/access/jumpdrive/jumpdrive.go:453-461 | the loop computes the common spaces in order |
| Dual.CommonIsBoth | internal/access/jumpdrive/jumpdrive.go:453-461 | exactly the members of both, each once, in the order of their first places in the first list |
| Dual.DualIsBoth | internal/access/jumpdrive/jumpdrive.go:225-276 | the credential's refusal comes first, then the control plane's, then a disagreement on the principal; a dual decision exists exactly when both paths grant the same principal, and reads, writes and approves exactly what both do |
| DecisionCache.CacheUntil | internal/access/jumpdrive/jumpdrive.go:366-394 | the directive loop computes the specified time: last valid max-age wins, any no-store or no-cache forbids |
| DecisionCache.NeverOutlivesIff | internal/access/jumpdrive/jumpdrive.go:366-394 | whenever it is received and whenever it expires, a decision is never kept longer than sections 4.2.1 and 5.2.2 of RFC 9111 and the expiry allow, exactly when the header has no-store or no-cache, or its last readable max-age is no larger than its first max-age (an unreadable one being 0); beyond 292 years, what a 64-bit count of nanoseconds leaves of it |
| DecisionCache.OneMaxAgeIsKept | internal/access/jumpdrive/jumpdrive.go:366-394 | which holds of every response with at most one max-age |
| DecisionCache.TwoMaxAgesOutlive | internal/access/jumpdrive/jumpdrive.go:370-381 | and fails of a max-age of a second followed by one of an hour |
| DecisionCache.WrapIsExactIff | internal/access/jumpdrive/jumpdrive.go:382-389 | the 64-bit duration never gains time, and loses none exactly up to 292 years |
| DecisionCache.Cache.constructor | internal/access/jumpdrive/jumpdrive.go:413-418 | an empty cache, 1024 entries by default |
| DecisionCache.Cache.Get | internal/access/jumpdrive/jumpdrive.go:420-435 | list and map stay in step; a live entry moves to the front, an expired one is dropped |
| DecisionCache.Cache.Put | internal/access/jumpdrive/jumpdrive.go:437-451 | list and map stay in step; the entry is first and the last ones over the bound are gone |
| DecisionCache.Cache.Remember | internal/access/jumpdrive/jumpdrive.go:360-363 | an answer is stored until the time CacheUntil computes, and not at all when it computes none |
| DecisionCache.SurvivesIff | internal/access/jumpdrive/jumpdrive.go:396-451 | over any operations on other keys an entry survives, unchanged, exactly while fewer than max keys were in front of it throughout |
| DecisionCache.RecentIsServed | internal/access/jumpdrive/jumpdrive.go:396-451 | once touched, a decision is served until its time is up after any operations on fewer than max other keys |
| DecisionCache.ServedInTime | internal/access/jumpdrive/jumpdrive.go:295-301 | in every run a served decision is the latest reusable answer for its bearer, before received + the last max-age and before the expiry; and before what the standard allows, when the header is as in NeverOutlivesIff |
| KeyCache.NextKeepsInv | internal/access/jumpdrive/verifier.go:264-314 | every critical section of every call, in any order, keeps the cache equal to the last success, the lock, and the spacing |
| KeyCache.FetchesAreLimited | internal/access/jumpdrive/verifier.go:285-314 | under every interleaving attempts are at least minRefetch apart, one in flight, and the keys are the last successful fetch's (so a failure changes nothing) |
| KeyCache.AnswersAreFresh | internal/access/jumpdrive/verifier.go:261-283 | a call answers from an installed set younger, at its start, than max(refreshAfter, minRefetch), or younger than minRefetch if it says unknown, unless a fetch in that window failed |
| KeyCache.UpToDateIff | internal/access/jumpdrive/verifier.go:117-122 | while fetches succeed, keys older than refreshAfter are never used, exactly when the rate limit is no longer than that |
| KeyCache.NewConfig | internal/access/jumpdrive/verifier.go:162-167 | a positive setting is kept; otherwise ten seconds and five minutes |
| KeyCache.LateAnswer | internal/access/jumpdrive/verifier.go:287-296 | the interleaving that serves an old key otherwise |
| KeyCache.Verifier.Key | internal/access/jumpdrive/verifier.go:264-283 | the code, uninterrupted, moves as the machine does and answers from the keys it ends with |
| Proposals.NextKeeps | internal/store/sqlite/proposals.go:22-112 | every step of every decider, proposal and direct write keeps statuses, replays and the graph consistent |
| Proposals.DecidedOnceReplayedOnce | internal/store/sqlite/proposals.go:42-78 | under every interleaving a proposal is decided at most once, its row saying how and by whom, and replayed at most once, only by whoever promoted it and exactly as it holds; a discarded one never |
| Proposals.StatusIsFinal | internal/store/sqlite/proposals.go:57-78 | a decided proposal keeps its status whatever happens next |
| Proposals.GraphIsItsWrites | internal/store/sqlite/proposals.go:14-18 | the graph is what the direct and the replayed writes alone make of it, so a held write leaves no trace until promoted and then is like a direct one |
| Proposals.VerdictsMean | internal/store/sqlite/proposals.go:62-111 | any success means the proposal was decided, a successful approval that it was promoted and replayed (what the store answered then is in the next row) |
| Proposals.ApprovalsTellTheAnswer | internal/store/sqlite/proposals.go:78-111 | in every interleaving a successful approver's write was accepted, a replay or a duplicate on the graph the earlier writes had made, and the row records that answer's subject; an approver fails exactly when, and with the error with which, the store refused its write for another reason |
| Proposals.FailuresMean | internal/store/sqlite/proposals.go:50-93 | who is told of a conflict or a missing proposal decided nothing; who could not unmarshal the payload has promoted it, and the write never happens |
| Proposals.HeldIsKept | internal/store/sqlite/proposals.go:22-40 | what a proposal holds never changes |
| Proposals.NothingUnproposable | internal/store/sqlite/proposals.go:22-26 | every proposal holds an entity or an edge write, so no decider comes upon another kind |
| Proposals.RejectDiscardsIff | internal/store/sqlite/proposals.go:62-67 | in every interleaving a successful reject means discarded exactly when no decision promoted the proposal |
| Proposals.RejectsAlwaysDiscardIff | internal/store/sqlite/proposals.go:42-67 | for any cast of deciders: every successful reject of a proposal discards it, in all interleavings, exactly when none of them approves it or none rejects it |
| Proposals.StoppedMeansNever | internal/store/sqlite/proposals.go:69-78 | if the promoter stops before its replay, the write never happens and the proposal stays promoted |
| Proposals.LosingRejectSucceeds | internal/store/sqlite/proposals.go:62-67 | for any approver and any rejecter, an interleaving in which the approval wins and the reject still reports success |
| Fusion.AddList | internal/service/service.go:143-148 | the inner loop adds each rank's weight and remembers the last entity |
| Fusion.FuseRRF | internal/service/service.go:139-163 | each listed id at most once with score the sum of 1/(60+rank) over its places, sorted by score then id, nothing cut ranking above anything kept |
| Fusion.LastOfIs | internal/service/service.go:143-148 | the entity kept for an id is the one at its last place in the last list that has it |
| Fusion.FusedUnique | internal/service/service.go:149-163 | only one answer has these properties, so no walk of a map matters |
| Fusion.AgreementWinsIff | internal/service/service.go:137-141 | an id in both of two lists outranks every id in only one, exactly for lists of at most 60 |
| FirstIngest.UpsertLeaves | internal/ingest/ingest.go:302-320 | a successful upsert without a merge leaves a live entity under the derived key that carries the external id, removes nothing, and keeps the store sound |
| FirstIngest.LinkLeaves | internal/ingest/ingest.go:342-355 | a successful link leaves its key logged and its edge, or both of its ends, in place |
| FirstIngest.AnchorLeaves | internal/ingest/ingest.go:325-338 | a successful anchor without a merge leaves the work visible to its owner and carrying the tmdb id |
| Ingest.OwnerSeesIff | internal/ingest/ingest.go:394-403 | the owner sees what is public, what is its own, and what its space shares |
| FirstIngest.AboutWorkLeaves | internal/ingest/ingest.go:257-275 | reconciling a work, when it succeeds without a merge, removes nothing and leaves both its upsert and its anchor standing |
| Ingest.Ingestor.LinkSubjects | internal/ingest/ingest.go:193-207 | the loop over subjects, stopping at the first error |
| Ingest.Ingestor.UpsertClips | internal/ingest/ingest.go:212-241 | the loop over segments with its inner loop |
| Ingest.Ingestor.Ingest | internal/ingest/ingest.go:146-244 | the whole workflow, call by call (what it draws is in the next row) |
| IngestedGraph.BadRequestWritesNothing | internal/ingest/ingest.go:146-175 | a request without a reference or with an unknown visibility, a failed fetch and a video without an id write nothing |
| IngestedGraph.FirstIngestDraws | internal/ingest/ingest.go:146-355 | a workflow that succeeds on an empty store without a merge leaves exactly this graph: the video and its channel with the metadata's texts, a work for each subject heyarr knows, a clip with its offsets for each segment, each of its type, under its key and filed as the request asks, and no other entity; the edges author from the video to the channel, about from the video and from each clip to its works, isPartOf from each clip to the video, each once, and no other |
| Histories.HistorySettles | internal/store/sqlite/entities.go:229-238 | after every history of one space, of any writes, any ingestions, finished or not, and any calls of interleaved ingestions (an anchor writing back however old a reading), the store is sound and whatever ingestion asserted keys about carries them as long as it lives |
| Reingest.AnchorRepeats | internal/ingest/ingest.go:325-338 | anchoring again: at most one more fact, refused exactly when its key belongs to an entity that is gone |
| Reingest.BodyRepeats | internal/ingest/ingest.go:146-244 | a workflow run where all its calls stand changes no entity, edge, key or vector, and ends as before exactly when the anchor keys are clear |
| FirstIngest.EntityWriteLeaves | internal/ingest/ingest.go:302-320 | a successful assertion without a merge leaves a live entity under its key, carrying its ids |
| FirstIngest.BodyLeaves | internal/ingest/ingest.go:146-244 | a successful workflow without merges leaves every call standing |
| Histories.RerunIff | internal/ingest/ingest.go:146-355 | after any such history and an ingestion that succeeds without a merge, the same request adds and removes no entity and no edge, and succeeds with the same ids exactly when no anchor key was logged for an entity that is gone |
| Histories.RerunSucceeds | internal/ingest/ingest.go:50-52 | so whenever no write of the history retracts an entity or merges two directly, whatever its appends merged |
| Heirs.StepKeepsSucceeded | internal/store/sqlite/entities.go:152-166 | because every other write keeps this: whatever ingestion asserted keys about, and was merged away, left them all to a live entity that carries another key besides |
| Heirs.StandingIsClear | internal/ingest/ingest.go:325-338 | so no standing anchor derives the key of an entity that is gone |
| Histories.ThirdRunIsNoOp | internal/domain/idkey.go:28-46 | the log may grow the second time, but not the third |
| RerunFails.RerunCanFail | internal/ingest/ingest.go:325-338 | a history in which only ingestion writes as ingestion (a work is created, ingested, retracted and created anew with the same keys), and a request that then succeeds, merges nothing, and fails straight after |

## Left out

- HTTP, MCP, SSE, the CLI, migrations and configuration: plumbing and one-branch validation.
- The Ollama, Fabric, heyarr, yt-dlp and Whisper clients: their answers are inputs.
- Signature checks, token claims, base64, JSON parsing and the digest: opaque. A property bag is absent, malformed or a document; a nil and an empty `RawMessage` are one.
- Cache-Control text: taken as its list of directives, a number that does not parse being its own case.
- The SQL engine, the vector extension and full-text scoring: SQL is given its usual meaning, full text is a bag of words per entity, and SQL NULL does not occur in the columns the access filter reads.
- Floating point: scores are reals; NaN and rounding do not occur.
- The `facts.id` column, `entity_labels` (never written) and lenses (never applied).
- Postgres concurrency: its lock does not order writes under different keys, so that adapter appears only where it is compared with SQLite (the union, the WHERE fragments and the clamp).
- Reads during a traversal: it works on one store that nobody else writes to meanwhile. What interleaved ingestions keep is `Histories.HistorySettles`; running a request again is about a request nobody interrupts.
- `sameSet` and the log lines of dual verification, the vector byte codec, `ProjectionHead`, `ListProposals` and the service's permission gates: easy members.
- Neighbors.Traverse: the store is a value; entities come back as ids, since the rows are read from the same store.
- Ingest.Ingestor.Ingest: the store behind it is the specified store, not the `Sqlite` object, whose methods are proved equal to it; a failed fetch and a bad request give one error.
- IngestedGraph.FirstIngestDraws: external ids hold no NUL and minted ids no bar, which the derived keys would run together; of a clip's props the text is only told by `ClipHolds`.
- Histories.RerunIff: one space; ids hold no NUL byte, facts under the ingest writer have derived keys or keys with a bar, and nobody writes between the two runs.
- KeyCache.Verifier.Key: one call alone; calls that overlap are the machine's, `KeyCache.AnswersAreFresh`.
