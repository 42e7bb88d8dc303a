# Verified model of Semanticore's context session and its stores

Semanticore keeps an agent's context in three tiers, *minor* < *major* < *enduring*, each backed by its own
quad store. A `Session` holds an in-memory index over the three stores (which item is where, how it got
there, how often and when it was accessed) and runs every operation as a series of separate storage
transactions followed by index updates. Items move between tiers by two commits, write the target, then
delete the source; bounds are enforced by a cascade of evictions towards the colder tiers; queries are
answered by scanning the stores and promote items afterwards; opening a session rebuilds the index from
whatever the stores hold.

This project models that session, the storage layout it relies on, the transactional reference store, the
Oxigraph adapter and the subsumption example, and proves what they promise over all inputs, all runs and all
crash points. Check it with `dafny verify dfyconfig.toml`.

## How the model is built

- `Rdf`, `Decimal`, `Items`, `Layout`: terms, scopes, items, graph names and the encoding of an item as quads.
- `Order`, `Entries`: id order and stable sorting; index entries with their incremental access summaries.
  `touches` and `visits` in an entry are history variables (the full record the summaries stand for); no
  decision reads them.
- `Machine`: the session as a state machine. Every storage transaction and every clock reading is an explicit
  step. The environment's script says which storage steps fail and how far the clock moves between readings,
  so clocks and faults are inputs, and a history variable logs the stores after every successful step. An
  operation stops at its first failing step (`Cuts.ApplyStops`), and cut after k steps it leaves the stores the
  uncut operation has after its first k steps (`Crashes.ApplyFollows`), so a crash is such a cut followed by a
  restart that forgets the index.
- `Agreement`, `Steps`: the invariant. A *ledger* records the content of every id any store holds and `Holds`
  says which ids each store holds; a copy outside an item's home is *stale*. `Sound` allows stale copies
  (the weak invariant); no stale copies is the strong one.
- `Flow`, `Laws`, `Policies`: what moves, evictions and promotions do to the index and the counters.
- `Answers`: queries and snapshots. `Recovery`, `Cuts`, `Crashes`, `Runs`: opening, what a failing
  step does, crash points, whole runs.
- `Session`: the session object, with its fields updated in place and its loops; every method is proved to do
  exactly the step of `Machine` that the laws are about.
- `Accesses`: access histories and the answers they stand for.
- `Evictions`, `Replies`, `Outcomes`: what every operation does and replies, entry by entry, in terms of
  histories, settings and tier sizes alone, without the functions by which the machine decides.
- `MemStores`, `Oxigraph`, `Subsumption`: the other three components, self-contained. `Transactions`: the
  session's storage step carried out by the two stores.

Where code and documentation differ, the code is followed: `open` does not enforce bounds; a stale copy left by
an interrupted move stays in place after recovery, so a removed item can come back (`Recovery.RemovedComesBackIff`
says exactly when, `Recovery.HalfMovedComesBack` shows a run); a promotion that fails part-way leaves items
raised that `items_promoted` never counts (`Policies.PromoteShortfall`, `Policies.UnbookedPromotion`); and the
adapter's documentation of "refused" literals is stated as the test it performs.

## Model

| member | source | states |
|---|---|---|
| Layout.GraphNameBijection | crates/semanticore-context/src/record.rs:25-34 | A graph name parses to an id if and only if it is the printed name of that id: names and ids are in bijection. |
| Layout.AcceptedSpellings | crates/semanticore-context/src/record.rs:29-34 | The number part is accepted iff it is digits with no superfluous zero: no "+1", no "01". |
| Layout.OneRecordPerItem | crates/semanticore-context/src/record.rs:100-117 | Whatever triples a payload holds, an item puts exactly one quad, its own record, into the metadata graph. |
| Layout.DecodeEncode | crates/semanticore-context/src/record.rs:68-162 | Decoding the record and graph of an encoded valid item gives the item back. |
| Layout.DecodeTells | crates/semanticore-context/src/record.rs:121-162 | Decoding fails exactly for text that is no record and for unknown scope names; otherwise payload kind, provenance, embedding and scope are those of the record. |
| Layout.DeleteRemovesOwned | crates/semanticore-context/src/session.rs:738-758 | The two scans of delete remove exactly the quads owned by the item, from any store. |
| Agreement.ImageDelete | crates/semanticore-context/src/session.rs:738-758 | Deleting one item leaves the quads of every other stored item untouched. |
| Agreement.MoveKept | crates/semanticore-context/src/session.rs:494-513 | A move under any faults keeps the stores sound and says which stores then hold the item: only the target if it succeeds, the source as before if its first commit fails, and both if only the second fails; the one stale copy is then this item's copy in the target. |
| Agreement.EnforceKept | crates/semanticore-context/src/session.rs:549-590 | The whole bound cascade leaves at most one new stale copy, colder than the home of its live item, and only if a step failed. |
| Steps.NoError | crates/semanticore-context/src/session.rs:657-684 | A batch passes validation iff every item is well formed and cites live items only. |
| Outcomes.RefusedIff | crates/semanticore-context/src/session.rs:657-709 | When each operation is refused and with which error: the first refused item of a batch and its reason (blank source, malformed, first dead citation), a move in the wrong direction, or the first listed id that is not live in the scope; a refusal changes nothing. |
| Steps.ApplyKept | crates/semanticore-context/src/session.rs:134-138 | Every operation under any storage faults keeps index and stores sound, adding at most one stale copy and only when it reports a storage failure: one colder than its item's home, or the target copy of a promotion that the operation set out to make. |
| Cuts.ApplyStops | crates/semanticore-context/src/session.rs:712-728 | An operation takes its storage steps in order, stops at the first that fails, and reports the storage error iff one failed. |
| Crashes.ApplyFollows | crates/semanticore-context/src/session.rs:712-728 | Cut after k storage steps, any operation that has more leaves the stores exactly as the uncut operation has them after its first k steps and reports the storage error; one that has no more is the uncut operation, state and reply. |
| Crashes.CutIsCrash | crates/semanticore-context/src/session.rs:134-138 | So the stores of the operation cut after k steps are the stores a crash after k steps leaves, and the error is reported iff steps were missing. |
| Crashes.CrashSafeEverywhere | crates/semanticore-context/src/session.rs:134-138 | Crash any operation between any two of its storage steps and reopen: the recovery of `Recovery.CrashSafe`. |
| Crashes.CutMovesFound | crates/semanticore-context/src/session.rs:494-513 | A list of moves cut after k steps: reopening finds the j-th item in the target iff k > 2j for a promotion and iff k > 2j + 1 for a demotion, every other item where it was, all content unchanged. |
| Crashes.CutPromoteFound | crates/semanticore-context/src/session.rs:393-415 | The same for a promote cut within its moves. |
| Crashes.CutDemoteFound | crates/semanticore-context/src/session.rs:433-444 | The same for a demotion by name cut within its moves. |
| Recovery.CrashSafe | crates/semanticore-context/src/session.rs:161-189 | Cut any operation by any fault script from a state without stale copies and reopen: exactly the items live at the cut come back, once each, content unchanged, each in the warmest store that holds its record; at most one is in two stores. A cut add, remove or evict displaces nothing; a cut promote at most one of its items, found in the target; a cut query at most one due item, found in the tier its rule sends it to. |
| Recovery.BatchAtomic | crates/semanticore-context/src/session.rs:221-250 | After reopening a batch is absent (refused, or its write failed: the old items are as they were and no issued id is there) or stored whole: every old and issued id is there with its own content, no warmer than it was put, except as many as the cascade booked as evicted. |
| Recovery.LoadsImage | crates/semanticore-context/src/session.rs:761-786 | Loading a laid-out store returns exactly the items it holds, with their content. |
| Recovery.ReadRecordTells | crates/semanticore-context/src/session.rs:761-783 | A metadata quad is read iff its subject is an item's graph name, its object a literal and the literal decodes; it then stands for that item. |
| Recovery.OpenSucceeds | crates/semanticore-context/src/session.rs:761-786 | Stores written by sessions are never reported corrupt: opening them succeeds. |
| Recovery.OpenFinds | crates/semanticore-context/src/session.rs:178-204 | Opening finds every held id once, at its most durable copy, with its content and fresh statistics. |
| Recovery.OpenSound | crates/semanticore-context/src/session.rs:161-204 | Opening any laid-out stores, stale copies included, gives a sound session. |
| Recovery.ReopenRoundTrip | crates/semanticore-context/src/session.rs:156-204 | Without stale copies reopening rebuilds the same ids, scopes and content. |
| Recovery.EnduringSurvive | crates/semanticore-context/src/session.rs:206-212 | With new empty major and minor stores exactly the enduring items come back. |
| Recovery.RemovedComesBackIff | crates/semanticore-context/src/session.rs:252-262 | A removed item is back after reopening iff another store held its record when it was removed. |
| Recovery.RemovedStaysRemoved | crates/semanticore-context/src/session.rs:252-262 | Without stale copies a removed item stays removed after reopening. |
| Recovery.HalfMovedComesBack | crates/semanticore-context/src/session.rs:494-513 | Cutting a promotion between its commits and then removing the item is such a run. |
| Runs.RunSound | crates/semanticore-context/src/session.rs:132-138 | Every state of every run of operations, failures, crashes and restarts is sound, with no more stale copies than storage failures so far. |
| Runs.CleanRunAgrees | crates/semanticore-context/src/session.rs:223-262 | In a run without storage failures each store is exactly the union of the quads of the live items of its tier, in every state. |
| Runs.CitationsPointBack | crates/semanticore-context/src/session.rs:189 | Across any run, crashes and reopenings included, live ids are below next_id and cite only smaller ids, so no id to be issued is cited by a live item. |
| Runs.CleanRunReopens | crates/semanticore-context/src/session.rs:158-204 | After any run without storage failures, reopening rebuilds the same ids, scopes and content with fresh statistics. |
| Runs.CleanRunCrashSafe | crates/semanticore-context/src/session.rs:134-138 | After any such run, whatever then fails in the next operation is recovered from as in `Recovery.CrashSafe`. |
| Runs.CleanRunCrashPoints | crates/semanticore-context/src/session.rs:134-138 | After any such run, a crash at any storage step of the next operation is recovered from. |
| Runs.RunConserves | crates/semanticore-context/src/session.rs:22-38 | Whatever fails: live items + evicted + removed = items at the start + added, over whole runs. |
| Laws.ApplyConserves | crates/semanticore-context/src/session.rs:515-521 | The same for one operation. |
| Flow.EvictVictimsLeave | crates/semanticore-context/src/session.rs:549-573 | Each victim leaves the tier and is booked exactly once, as demoted or as evicted. |
| Policies.EvictReport | crates/semanticore-context/src/session.rs:417-454 | evict returns exactly how much its tier shrank, cascades included. |
| Policies.PromotionsBooked | crates/semanticore-context/src/session.rs:407-414 | items_promoted grows by exactly what promote and query report, and by nothing else. |
| Policies.PromoteShortfall | crates/semanticore-context/src/session.rs:407-411 | A promote that reports a storage failure is booked whole if only its cascade failed; otherwise nothing is booked although exactly the first n items, two storage steps each, have risen. |
| Policies.RaiseShortfall | crates/semanticore-context/src/session.rs:627-641 | The same for the moves of auto-promotion: booked whole or not at all, with the exact number of risen items that stay unbooked. |
| Policies.QueryShortfall | crates/semanticore-context/src/session.rs:627-641 | So for a query that reports a storage failure; nothing rises if a scan failed. |
| Policies.UnbookedPromotion | crates/semanticore-context/src/session.rs:407-410 | Two items promoted and the third storage step failing is such a run: one item has risen and items_promoted is unchanged. |
| Policies.DemoteShortfall | crates/semanticore-context/src/session.rs:438-442 | The same for a demotion by name: booked whole if only its cascade failed, otherwise not at all, although exactly the first n items have sunk. |
| Policies.RefusedChangesNothing | crates/semanticore-context/src/session.rs:390-406 | An operation refused for any reason but storage leaves the whole state unchanged. |
| Policies.PromoteMoves | crates/semanticore-context/src/session.rs:403-409 | A promotion puts exactly the listed items into the target, marked as promoted, and touches no other entry. |
| Outcomes.AddDoes | crates/semanticore-context/src/session.rs:223-250 | A successful add replies the ids in batch order, adds exactly one fresh entry per item at the clock it read, and then runs the cascade from its tier. |
| Outcomes.AddReplies | crates/semanticore-context/src/session.rs:232-249 | The k-th id replied is next_id + k and, if live afterwards, carries the k-th item. |
| Outcomes.RemoveDoes | crates/semanticore-context/src/session.rs:254-262 | A remove replies whether the item was live in the scope and takes out exactly that item if so. |
| Outcomes.PromoteDoes | crates/semanticore-context/src/session.rs:393-415 | A successful promote raises exactly the listed items, books and replies how many distinct ones, then runs the cascade from the target. |
| Outcomes.DemoteDoes | crates/semanticore-context/src/session.rs:433-444 | A successful demotion by name lowers exactly the listed items with their windows forgotten, books and replies how many, then runs the cascade from the target. |
| Outcomes.EvictItemsDoes | crates/semanticore-context/src/session.rs:426-432 | Eviction by name drops exactly the listed items, books and replies how many. |
| Outcomes.EvictPolicyDoes | crates/semanticore-context/src/session.rs:445-452 | Eviction by policy evicts exactly the first items, replies how many, then runs the cascade of the colder tiers. |
| Outcomes.QueryDoes | crates/semanticore-context/src/session.rs:267-353 | A successful query accesses its hits and nothing else; on the cadence it then promotes exactly the items due by either rule on that index, reports and books their number, and runs the cascade from the warmest tier reached; off the cadence nothing moves and it reports none. |
| Outcomes.SparedAreSent | crates/semanticore-context/src/session.rs:594-641 | After such a query every due item the cascade spares is where its rule sends it, marked promoted, and every other spared item is as it was. |
| Flow.EnforceCools | crates/semanticore-context/src/session.rs:575-590 | The cascade never raises an item, never touches a more durable tier, loses no history and keeps the one-step demotion burden. |
| Flow.EnforceFits | crates/semanticore-context/src/session.rs:577-590 | After a successful cascade its tier and every colder one are within bounds. |
| Policies.ApplyFits | crates/semanticore-context/src/session.rs:577-590 | A state within its bounds stays within them through every operation that reports no storage failure. |
| Policies.LandingFits | crates/semanticore-context/src/session.rs:577-590 | From any state, over its bounds or not, a successful add, promote, demotion, policy eviction or promoting query leaves the tier it lands in and every colder one within bounds. |
| Runs.RunFits | crates/semanticore-context/src/session.rs:577-590 | So in a run without storage failures that starts within its bounds, every state is within them. |
| Policies.ApplyBurden | crates/semanticore-context/src/session.rs:549-573 | Under one-step demotion, demotions made plus promoted live items minus promotions grow only by demotions asked for by name. |
| Runs.NoThrashing | crates/semanticore-context/src/config.rs:88-92 | From a freshly opened session: policy demotions plus live items that last arrived by promotion never exceed items_promoted. |
| Policies.PromotedVictimsStepDown | crates/semanticore-context/src/session.rs:559-567 | Under one-step demotion a promoted victim is never dropped outright; it goes one tier colder, marked demoted. |
| Policies.VictimsAreFirst | crates/semanticore-context/src/session.rs:523-546 | Victims are min(count, tier size) distinct items in ascending (key, id) order, and everything left behind comes after every victim. `Evictions.VictimsFirstOut` says what that order means for each policy. |
| Policies.VictimsTimeless | crates/semanticore-context/src/session.rs:524-540 | The choice of victims does not depend on when after the last touch the clock is read. |
| Evictions.VictimsFirstOut | crates/semanticore-context/src/session.rs:523-546 | By full histories, ties to the smaller id: under Lru every victim was last touched no later than every item left behind, under Lfu touched no more often, under recency weighting its decayed history sum is no larger. |
| Evictions.VictimsDisposed | crates/semanticore-context/src/session.rs:549-573 | After a successful eviction every victim is gone under Drop; under NextColder one tier colder, marked demoted, window forgotten, and gone iff the tier was minor; under OneStepThenDrop one tier colder iff it had arrived by promotion and gone otherwise. No other entry changes and both counters grow by exactly these numbers. |
| Evictions.EvictByPolicyEvicts | crates/semanticore-context/src/session.rs:445-447 | A policy eviction does this to exactly min(count, tier size) first items. |
| Evictions.TrimTierTrims | crates/semanticore-context/src/session.rs:577-590 | Trimming a tier does this to exactly as many items as the tier has over its bound. |
| Evictions.EnforceCascades | crates/semanticore-context/src/session.rs:577-590 | A successful cascade is such a trim of its tier and then of each colder one in turn. |
| Entries.WeightIsHistorySum | crates/semanticore-context/src/session.rs:96-100 | The incremental weight equals the decayed sum over the add and every query access, at every later time. |
| Entries.WeightHalves | crates/semanticore-context/src/config.rs:73-79 | An untouched weight halves every half-life. |
| Entries.WeightDecays | crates/semanticore-context/src/session.rs:96-100 | Every tick multiplies a weight by the decay factor, and a touch is worth one when it is made. |
| Entries.RankingIsStable | crates/semanticore-context/src/session.rs:536-539 | The ranking of two untouched items by weight never changes as time passes. |
| Entries.TouchFaithful | crates/semanticore-context/src/session.rs:323-337 | A query access keeps every summary (counts, last touch, pruned queue, weight) equal to its history. |
| Entries.PrunedQueueIsExact | crates/semanticore-context/src/session.rs:326-333 | The pruned queue is sorted and at every later time counts the same in-window accesses as the full list since the add or last demotion. |
| Entries.WindowCount | crates/semanticore-context/src/session.rs:614-620 | The window count is the number of accesses at most the window old, that age included. |
| Laws.ApplyHealthy | crates/semanticore-context/src/session.rs:59-80 | Every operation, whatever fails, keeps the summaries faithful, promoted items out of minor and demoted ones out of enduring. |
| Runs.RunWeights | crates/semanticore-context/src/session.rs:334-337 | In every state of every run the weight is the history sum. |
| Runs.RunWindows | crates/semanticore-context/src/session.rs:614-620 | In every state of every run the pruned queue counts what the full list counts. |
| Accesses.TouchAllExact | crates/semanticore-context/src/session.rs:315-340 | Serving a query touches every hit once and no other entry. |
| Accesses.ApplyAccesses | crates/semanticore-context/src/session.rs:311-340 | Whatever fails, an operation records an access for exactly the items that a served query answers with, at its time; hits past the limit are not accessed, and new items start with none. |
| Accesses.RunAccesses | crates/semanticore-context/src/session.rs:311-340 | Over any session the recorded history of a live item is the times of the queries that answered with it, in order, and its access count is their number. |
| Accesses.AccessesAreAnswers | crates/semanticore-context/src/session.rs:311-353 | Without storage failures an item has been accessed exactly as often as a query returned it. |
| Policies.AutoPromoteExact | crates/semanticore-context/src/session.rs:592-634 | Auto-promotion sends each item where the two rules, judged on the state before anything moves and on full histories, say, and changes no other entry. |
| Policies.QueryRaisesOneTier | crates/semanticore-context/src/session.rs:592-641 | After any query, its promotions and cascade, whatever fails, no surviving item is more than one tier above where it was. |
| Answers.QueryAnswersIndex | crates/semanticore-context/src/session.rs:277-313 | A query's results and counters are those of the index alone, even with stale copies in the stores. |
| Answers.HitsAre | crates/semanticore-context/src/session.rs:294-306 | The hits are exactly the live items of the consulted scopes with a triple that fits the query slot by slot: each bound subject, predicate and object is the triple's, unbound slots are free. |
| Answers.HitsInOrder | crates/semanticore-context/src/query.rs:166-168 | Each hit comes once, in selection order and then oldest first. |
| Answers.ScopeCount | crates/semanticore-context/src/session.rs:302-305 | The quads matched in a scope are as many as the matching pairs of live item and distinct triple. |
| Answers.UniqueScopesIs | crates/semanticore-context/src/query.rs:50-63 | The consulted scopes are the listed ones, each once, in order of first mention. |
| Replies.ConsultedSelects | crates/semanticore-context/src/query.rs:50-63 | One scope, or enduring, major, minor in this order, or the listed ones once each in order of first mention. |
| Replies.QueryReplies | crates/semanticore-context/src/session.rs:277-353 | A query's whole answer from the index: exactly the fitting live items of its scopes, each once with content and scope, in selection order then oldest first, a limit keeping the first of them; the number of scopes; the number of fitting pairs of item and triple, whatever the limit. |
| Replies.SnapshotReplies | crates/semanticore-context/src/session.rs:457-471 | A snapshot lists exactly the items of its scope with their content, oldest first. |
| Answers.SnapshotCounts | crates/semanticore-context/src/session.rs:457-471 | A snapshot's quad count is, over its items, the distinct triples plus one, and the same again over the stale copies its store holds; without stale copies the first sum alone. |
| Sessions.Open | crates/semanticore-context/src/session.rs:161-204 | A session opens only over a persistent enduring store, holds what loading found, and fails only for a storage fault or an unreadable record. |
| Sessions.Session.AddBatch | crates/semanticore-context/src/session.rs:223-250 | Does exactly the add step, whole new state and reply; `Outcomes.AddDoes` says what that is. |
| Sessions.Session.Remove | crates/semanticore-context/src/session.rs:254-262 | Does exactly the remove step. |
| Sessions.Session.Query | crates/semanticore-context/src/session.rs:267-353 | Does exactly the query step: scan, cut, touch, auto-promote; `Replies.QueryReplies` and `Outcomes.QueryDoes` say what that is. |
| Sessions.Session.Promote | crates/semanticore-context/src/session.rs:393-415 | Does exactly the promote step, errors included. |
| Sessions.Session.Evict | crates/semanticore-context/src/session.rs:419-454 | Does exactly the evict step for all three criteria. |
| Sessions.Session.EnforceBounds | crates/semanticore-context/src/session.rs:577-590 | The downward loop is the cascade. |
| Sessions.Session.EvictVictims | crates/semanticore-context/src/session.rs:549-573 | The loop evicts each victim in order, stopping at the first failure; `Evictions.VictimsDisposed` says what becomes of them. |
| Sessions.Session.AutoPromote | crates/semanticore-context/src/session.rs:594-641 | The loops and the cascade are the auto-promotion step, and the count is what moved. |
| Sessions.Session.MoveItem | crates/semanticore-context/src/session.rs:494-513 | Write the target, delete the source, then update the entry. |
| Sessions.Session.Snapshot | crates/semanticore-context/src/session.rs:457-471 | A copy of the scope's items with their content, oldest first, and the size of its store, or the storage error. |
| Sessions.CopyScope | crates/semanticore-context/src/session.rs:459-464 | The filter loop copies exactly the items of the scope, oldest first. |
| Sessions.CountReferences | crates/semanticore-context/src/session.rs:596-602 | The nested loops count, for every id, the distinct other live items that cite it. |
| Sessions.DueItems | crates/semanticore-context/src/session.rs:603-626 | The filter loop yields exactly the due major and minor items, oldest first. |
| Sessions.ScanStore | crates/semanticore-context/src/session.rs:285-309 | The scan loop yields the ids and the number of quads that count, in whatever order the store streams. |
| Sessions.PruneQueue | crates/semanticore-context/src/session.rs:326-333 | The pop loop is the front pruning. |
| Sessions.CheckInScope | crates/semanticore-context/src/session.rs:686-709 | Ids de-duplicated in first-seen order, or the error of the first one that is unknown or elsewhere. |
| Sessions.ConsultedScopes | crates/semanticore-context/src/query.rs:50-63 | The seen-check loop yields the consulted scopes. |
| Sessions.Load | crates/semanticore-context/src/session.rs:761-786 | Reads every record, or reports corruption only if some record cannot be read. |
| MemStores.Serializable | crates/semanticore-storage-testkit/src/mem.rs:61-79 | In every interleaving the committed state is the committed writers run in commit order and every answer they saw is the serial one; open transactions see one committed state plus their own writes. |
| MemStores.WriterCommitsIff | crates/semanticore-storage-testkit/src/mem.rs:150-161 | A writer commits iff no other writer committed since it began. |
| MemStores.ReaderSeesOneState | crates/semanticore-storage-testkit/src/mem.rs:65-73 | All answers of a reader come from one committed state. |
| MemStores.AnswersTell | crates/semanticore-storage-testkit/src/mem.rs:115-148 | An insert makes exactly its quad present and answers whether the set grew, a remove makes it absent and answers whether it shrank, readers are refused both, and reads answer for the working copy. |
| MemStores.UndisturbedCommit | crates/semanticore-storage-testkit/src/mem.rs:75-79 | In any interleaving a writer that no other writer overtakes commits, and publishes exactly what the store held when it began with its own calls on top. |
| MemStores.MemTx.Insert | crates/semanticore-storage-testkit/src/mem.rs:115-120 | One insert step on the working copy, refused in a reader. |
| MemStores.MemTx.Remove | crates/semanticore-storage-testkit/src/mem.rs:122-127 | One remove step on the working copy, refused in a reader. |
| MemStores.MemTx.Commit | crates/semanticore-storage-testkit/src/mem.rs:150-161 | Publishes the working copy and bumps the version iff the version is still the base version. |
| Transactions.InsertAll | crates/semanticore-context/src/session.rs:711-736 | Begin, insert, commit on the reference store always commits and leaves exactly the old quads and the new ones, the set the session's write step names. |
| Transactions.DeleteAll | crates/semanticore-context/src/session.rs:738-758 | Begin, two scans, removes, commit leaves exactly the set the session's delete step names. |
| Oxigraph.AcceptedIffReadsBack | crates/semanticore-store-oxigraph/src/convert.rs:156-205 | A literal passes the adapter's test iff the canonicalising store reads it back identical. |
| Oxigraph.NeverAlias | crates/semanticore-store-oxigraph/src/convert.rs:119-154 | Distinct accepted quads never share an encoding. |
| Oxigraph.OneSpellingPerInteger | crates/semanticore-store-oxigraph/src/convert.rs:179 | A 64-bit integer's text is accepted iff it is the canonical spelling. |
| Oxigraph.ParsePrintInt | crates/semanticore-store-oxigraph/src/convert.rs:166-171 | The canonical spelling of every 64-bit integer parses back to it (section 3.4.13 of XSD 1.1 Part 2). |
| Oxigraph.BooleansAccepted | crates/semanticore-store-oxigraph/src/convert.rs:176 | As xsd:boolean exactly "0" and "1" are refused. |
| Oxigraph.ParseIntIs | crates/semanticore-store-oxigraph/src/convert.rs:179 | Exactly digits with an optional sign and a value in the 64-bit range are integers. |
| Oxigraph.DerivedRefused | crates/semanticore-store-oxigraph/src/convert.rs:198-200 | A literal of a type derived from integer is accepted iff it is no integer. |
| Oxigraph.StampsRefused | crates/semanticore-store-oxigraph/src/convert.rs:201 | A time stamp is accepted iff it does not parse as a date and time. |
| Oxigraph.OthersAccepted | crates/semanticore-store-oxigraph/src/convert.rs:177-195 | The other native datatypes accept exactly the texts that print back or do not parse. |
| Oxigraph.RestAccepted | crates/semanticore-store-oxigraph/src/convert.rs:172-174 | Every other datatype is kept as it is. |
| Oxigraph.UncheckedAlias | crates/semanticore-store-oxigraph/src/convert.rs:4-10 | Without the test "1" and "01" would be one stored literal. |
| Oxigraph.Transaction.Insert | crates/semanticore-store-oxigraph/src/lib.rs:337-345 | Insert answers and acts as on a plain lexical set, and refuses what would not read back. |
| Oxigraph.Transaction.Remove | crates/semanticore-store-oxigraph/src/lib.rs:347-357 | Remove answers and acts as on a plain lexical set. |
| Oxigraph.Transaction.Contains | crates/semanticore-store-oxigraph/src/lib.rs:359-364 | Membership in the lexical set, for every quad. |
| Oxigraph.Transaction.QuadsForPattern | crates/semanticore-store-oxigraph/src/lib.rs:366-393 | Exactly the quads of the lexical set that match, for every pattern. |
| Transactions.InsertThrough | crates/semanticore-context/src/session.rs:731-736 | Through the adapter the inserts all succeed iff every quad is accepted, and then add exactly those quads; otherwise the session rolls back. |
| Transactions.DeleteThrough | crates/semanticore-context/src/session.rs:738-758 | Through the adapter the deletion leaves exactly the set the session's delete step names. |
| Subsumption.CloseUp | crates/semanticore-core/src/reasoner.rs:1165-1171 | The worklist ends on cyclic hierarchies and adds exactly what the class reaches to the shared visited set. |
| Subsumption.LinksAre | crates/semanticore-core/src/reasoner.rs:1146-1158 | A link is a quad with the predicate between two named nodes, in any graph. |
| Subsumption.Realize | crates/semanticore-core/src/reasoner.rs:1160-1174 | Each individual gets exactly the classes reachable from its asserted types. |
| Subsumption.Materialize | crates/semanticore-core/src/reasoner.rs:1205-1215 | Adds exactly the entailed type quads and counts the new ones. |
| Subsumption.SecondRunAddsNothing | crates/semanticore-core/src/reasoner.rs:1205-1215 | A second materialization adds nothing. |
| Subsumption.Entails | crates/semanticore-core/src/reasoner.rs:1234-1238 | True iff the quad is stored or an entailed type quad. |

## Left out

- Order and duplicates of payload triples in memory: a payload is a set, as its documentation says it is across a reopen.
- `u64` overflow of ids and counters: ids and counters are natural numbers, and a graph name may carry any of them.
- Floating-point rounding and underflow of weights: weights are exact reals and a half-life is given as its per-tick factor strictly between 0 and 1, so a zero half-life is excluded.
- JSON text of the metadata record: a literal's text is plain text or the record it spells; JSON written in another layout is not represented.
- A storage transaction that reports failure although it was applied: a step either takes effect or fails.
- The session mutex: each operation holds it throughout, so operations are sequential steps.
- The enumeration order of a store's quads: loops over a store pick quads in any order, and where two records claim one id in one store either may be loaded.
- Clock readings that go backwards: the clock does not decrease, as `Instant` promises.
- SPARQL, similarity and inference queries, `reason`, `validate`, `evaluate_datalog`: they only return errors.
- `close`, `scope_of`, `item_count`, `add`, capability flags, builders, error texts: they only read or wrap.
- `MemStore::named_graphs`, `quad_count`, `with_quads`, and the toy store of the reasoner example, which is taken as a set of quads.
- Oxigraph's own validators and the parsers and printers of XSD types other than boolean and integer: arbitrary functions, so the results hold for any of them.
- Oxigraph's snapshot and read-committed modes, blank graph names and RDF 1.2 terms written by other tools.
- The Python binding, the SHACL and Datalog surfaces, and the projection design document.
