# Verification of the patrol, alert and agent logic

This project models five stateful pieces of the Pulse server and proves what they keep
over whole runs. Where the server changes things step by step, the model is a class or a
method with the server's loops, proved against a function of the state; the theorems are
then about that function, over every run, interleaving or input. All files are given to
the verifier together: `dafny verify dfyconfig.toml`.

- **Patrol scheduler** (`PatrolTriggers`, `PatrolTriggerRuns`, `PatrolDrain`): a bounded
  priority queue with merging, eviction, two rate limits, retry backoff and a sliding
  window, together with the patrols that are dropped and queued again. `PatrolLoad` and
  `PatrolRetries` say in plain numbers how fast the queue is served and when a patrol is
  tried again.
- **Findings** (`Findings`, `Similarity`, `FindingsStore`, `FindingsStoreRuns`,
  `FindingClusters`, `StaleFindings`): the store with its index by resource, what a
  dismissal is remembered through, the similarity score and the greedy clustering.
  `FindingLaws` says field by field what each operation does to a finding.
- **Concurrent protocols** (`AgentServer`, `AgentServerRuns`, `AgentResults`,
  `PatrolStream`, `PatrolStreamRuns`, `StreamReaders`): each section under a lock is one
  step, and runs are arbitrary interleavings of the steps.
- **Prompt and reply texts** (`SeedSections`, `SeedParsing`, `SeedContext`,
  `SeedRendering`, `SeedTiers`, `SeedRetries`, `ThinkingTokens`, `ThinkingTokensRuns`,
  `ThinkingLines`, `ThinkingBlocks`, `ToolEvents`, `ToolEventsRuns`, `ToolRecords`):
  splitting and reducing the seed prompt, retrying with smaller prompts, cleaning thinking
  markup, pairing tool events.
- **Keys and files** (`GuestKeys`, `GuestOverrides`, `GuestLookups`, `MockEnv`): moving
  threshold overrides to stable guest keys, and the round trip of the mock settings file.

`Prelude`, `Numbers`, `Text`, `TextEdits`, `StringOrder` and `Sorting` hold what these share: the
functions of Go's library that the code calls, and facts about them.

Clock readings, map orders, answers of the provider and results of tools are parameters;
one clock reading serves one step, and clocks in runs do not go back. Text is a sequence
of characters with ASCII lower case. Scores are real numbers.

## What the code does not do

Some statements one might expect are false of the code. Each is given as the exact
condition under which it holds, with a case where it fails:

- Every entry a full queue gives up makes room for a new one: `EvictedForNothing`,
  `EvictedForNothingExample`.
- The pending map of the agent server is the set of calls in flight:
  `PendingExactIffDistinct`, `SharedIdStrandsTheFirstCall`.
- Loading findings keeps the index right: `LoadKeepsIndexIff`, `ReloadBreaksIndex`.
- A worse report always wakes a dismissed finding: `OnlyEscalationWakes`,
  `MergeMasksEscalation`.
- Undismissing a finding lifts its suppression: `UndismissLiftsSuppression`,
  `SuppressionRuleGoesIff`, `EscalationLeavesRule`, `SuppressionWithoutResourceStays`.
- Stable guest keys are distinct: `StableKeyInjective`, `NegativeIdsCollide`.
- A guest's override is its own: `ReachesOthersKeyIff`, `OverrideTakenIff`,
  `LegacyLookupTakesAnothersOverride`, `SharedLegacyKeyExample`.
- A guest key reads back: `ParseBuiltKey`, `ColonIsNotReadBack`.
- The reduced prompt keeps to its budget: `OverBudgetIff`, `OverBudgetExample`.
- Each retry budget is smaller than the one before: `BudgetsDescendIff`,
  `BudgetsRiseExample`.
- The order of tool starts lists the pending calls: `OrderIsPendingIff`,
  `ReusedIdExample`.

## Model

| member | source | states |
|---|---|---|
| `PatrolTriggers.WithDefaults` | internal/ai/patrol_triggers.go:140-173 | Every setting of a new manager is positive; a configuration that is valid already is kept as it is. |
| `PatrolTriggers.SlicesEqual` | internal/ai/patrol_triggers.go:447-467 | The comparison of sorted copies answers true exactly when the two lists are equal as multisets. |
| `PatrolTriggers.VictimMeans` | internal/ai/patrol_triggers.go:325-339 | The entry a full queue gives up is the earliest one of least priority and lies strictly below the newcomer; there is none exactly when every entry is at least as urgent. |
| `PatrolTriggers.FirstDuplicateMeans` | internal/ai/patrol_triggers.go:344-356 | The entry a newcomer merges into is the first with the same reason and the same resources in any order. |
| `PatrolTriggers.ChoiceMeans` | internal/ai/patrol_triggers.go:258-291 | The entry a tick takes is the earliest of maximal priority among those whose backoff has passed and whose resources are off their limit; there is none exactly when no such entry has a non-negative priority. |
| `PatrolTriggers.StampedMeans` | internal/ai/patrol_triggers.go:297-301 | After a dispatch exactly its resources carry the new time stamp; every other stamp is unchanged. |
| `PatrolTriggers.TriggerManager.constructor` | internal/ai/patrol_triggers.go:140-173 | The manager starts with an empty queue, the defaulted settings and the base interval. |
| `PatrolTriggers.TriggerManager.SetOnTrigger` | internal/ai/patrol_triggers.go:175-180 | Only the presence of the callback changes. |
| `PatrolTriggers.TriggerManager.CleanupOldEvents` | internal/ai/patrol_triggers.go:375-384 | The event list becomes the events after the cutoff, in order. |
| `PatrolTriggers.TriggerManager.UpdateAdaptiveInterval` | internal/ai/patrol_triggers.go:387-400 | The interval is the busy, normal or quiet one for the number of recent events. |
| `PatrolTriggers.TriggerManager.FindLowest` | internal/ai/patrol_triggers.go:326-333 | The scan finds the victim of VictimMeans. |
| `PatrolTriggers.TriggerManager.MergeDuplicate` | internal/ai/patrol_triggers.go:344-356 | A duplicate is merged exactly when one is queued, and merging only ever raises its priority. |
| `PatrolTriggers.TriggerManager.TriggerPatrol` | internal/ai/patrol_triggers.go:319-372 | The whole new state and the answer are those of Trigger: make room, then merge or record the event and queue. |
| `PatrolTriggers.TriggerManager.FindHighest` | internal/ai/patrol_triggers.go:258-286 | The scan finds the choice of ChoiceMeans. |
| `PatrolTriggers.TriggerManager.ComputeGlobalInterval` | internal/ai/patrol_triggers.go:236-250 | The interval between dispatches is the scaled one clamped to ten seconds and two minutes. |
| `PatrolTriggers.TriggerManager.StampResources` | internal/ai/patrol_triggers.go:299-301 | The loop over the resource ids computes Stamped. |
| `PatrolTriggers.TriggerManager.ProcessPendingTriggers` | internal/ai/patrol_triggers.go:228-304 | The new state and the dispatched scope are those of Tick. |
| `PatrolTriggers.TriggerManager.GetStatus` | internal/ai/patrol_triggers.go:426-443 | Asking for the status prunes the window and recomputes the interval, and reports what is left. |
| `PatrolTriggerRuns.HandleDrop` | internal/ai/patrol_run.go:590-616 | A dropped patrol with retries left is offered again with one more retry and the backoff of its count; one without is given up. |
| `PatrolTriggerRuns.RejectionChangesNothing` | internal/ai/patrol_triggers.go:323-339 | A trigger is rejected exactly when the queue is full and nothing in it is less urgent, and then the state does not change. |
| `PatrolTriggerRuns.AcceptedIsCovered` | internal/ai/patrol_triggers.go:319-372 | After acceptance a matching entry of at least the new priority is queued. |
| `PatrolTriggerRuns.EvictionIsMinimal` | internal/ai/patrol_triggers.go:323-342 | An eviction happens exactly when the queue is full and some entry is less urgent, and takes an entry of least priority strictly below the newcomer. |
| `PatrolTriggerRuns.EvictedForNothing` | internal/ai/patrol_triggers.go:323-356 | Room is made before duplicates are looked for: the queue shrinks exactly when it is full and the newcomer has a duplicate other than the entry evicted. |
| `PatrolTriggerRuns.EvictedForNothingExample` | internal/ai/patrol_triggers.go:323-356 | A queue of two in which the lesser entry is lost although nothing is added. |
| `PatrolTriggerRuns.QueueBoundedAndDuplicateFree` | internal/ai/patrol_triggers.go:319-372 | In every run of triggers, ticks, drops, status calls and time, the queue is within its limit and no two entries are duplicates. |
| `PatrolTriggerRuns.NothingLostOrInvented` | internal/ai/patrol_triggers.go:319-372 | In every run the scopes ever queued are, as a multiset up to priority, those pending, dispatched and evicted. |
| `PatrolTriggerRuns.AtMostThreeDispatchesPerSubmission` | internal/ai/patrol_run.go:581-617 | In every run whose scopes start with no retries, dispatches are at most three times the submissions and twice the patrols started without the queue, and each queued retry count is between 0 and 2. |
| `PatrolTriggerRuns.DispatchesAreSpaced` | internal/ai/patrol_triggers.go:236-301 | In every run with a clock that does not go back, consecutive dispatches are at least ten seconds apart, dispatches sharing a resource at least the resource interval, and none comes before its own backoff ends. |
| `PatrolTriggerRuns.DispatchesPerWindow` | internal/ai/patrol_triggers.go:236-256 | A stretch of time w holds at most w / 10 s + 1 dispatches. |
| `PatrolTriggerRuns.RecentEventsIsTheWindow` | internal/ai/patrol_triggers.go:358-400 | After each cleanup the event list is the full log of queued triggers restricted to the window, though older ones were dropped along the way, and the interval is the one for that count. |
| `PatrolTriggerRuns.TickTakesTheBest` | internal/ai/patrol_triggers.go:228-304 | A tick dispatches exactly when there is a callback, the global limit has passed and an eligible entry exists; it takes the choice and removes only that, and otherwise changes nothing. |
| `PatrolDrain.StableSortUnique` | internal/ai/patrol_triggers.go:258-295 | A queue has only one arrangement in descending priority that keeps the order of equals. |
| `PatrolDrain.DrainIsStableSort` | internal/ai/patrol_triggers.go:228-304 | With nothing new, backoffs over, non-negative priorities and ticks far enough apart, draining gives exactly the stable descending sort of the queue. |
| `PatrolLoad.SettingsOfEveryRun` | internal/ai/patrol_triggers.go:140-173 | In every run the settings are those asked for; where none is asked for, two minutes between patrols of a resource, thirty seconds between patrols, ten places in the queue, a base interval of fifteen minutes, and five events in five minutes to count as busy. |
| `PatrolLoad.IntervalFollowsArrivals` | internal/ai/patrol_triggers.go:358-400 | In every run the interval is five minutes when the arrivals in the window reach the threshold, half an hour when there are none, and the base interval otherwise and before the first cleanup. |
| `PatrolLoad.GapIs` | internal/ai/patrol_triggers.go:236-250 | The limit between dispatches is the least interval times the current one divided by the base interval, as whole numbers, between ten seconds and two minutes. |
| `PatrolLoad.TickServesTheQueue` | internal/ai/patrol_triggers.go:228-304 | In every run a tick sends a patrol exactly when there is a callback, the gap since the last dispatch is over and some entry is due by the dispatches made so far; it sends the most urgent such entry, the earliest among equals, and otherwise changes nothing. |
| `PatrolLoad.DefaultPace` | internal/ai/patrol_triggers.go:140-173 | With the default settings every run keeps this pace: ten seconds between patrols when five or more triggers arrived in the window, a minute when none did, and thirty seconds otherwise; a resource rests two minutes and at most ten entries wait. |
| `PatrolLoad.NoCallbackNoDispatch` | internal/ai/patrol_triggers.go:228-234 | Nothing is dispatched in a run in which no callback was set. |
| `PatrolRetries.TriggerPlaces` | internal/ai/patrol_triggers.go:319-372 | A trigger puts the scope behind the queue or raises the priority of its duplicate; in a full queue the earliest of the least urgent entries gives way, and without a less urgent one nothing changes. The limits stay as they are. |
| `PatrolRetries.RetriesWait` | internal/ai/patrol_run.go:590-616 | In every run whose scopes start with no retries, a dispatch with a retry count is that of a patrol dropped before, in flight with one retry less, and comes at least five seconds after the first drop and fifteen after the second. |
| `PatrolRetries.DropIsOffered` | internal/ai/patrol_run.go:582-617 | A dropped patrol with fewer than two retries is offered to the queue as a trigger of the same work and priority; after the second retry, or for a patrol not in flight, the scheduler is left alone. |
| `Findings.TypeIsByWords` | internal/ai/findings.go:186-209 | The guessed type is decided by the first of the groups of words of which the id or the name has one; without any of them an id that ends in a number is a machine and any other a node. |
| `Findings.DigitsBehindMeans` | internal/ai/findings.go:211-231 | An id ends in a number exactly when it is one or has one behind a colon or a slash. |
| `FindingsStore.FindingsStore.Load` | internal/ai/findings.go:364-388 | Each loaded finding is stored and listed under its resource, in some order of the loaded map. |
| `FindingsStore.FindingsStore.Add` | internal/ai/findings.go:488-581 | The new store and the answer are those of Added: update a known finding, refuse a suppressed one, or store and index a new one. |
| `FindingsStore.FindingsStore.Resolve` | internal/ai/findings.go:584-601 | Only an active finding is resolved. |
| `FindingsStore.FindingsStore.ResolveWithReason` | internal/ai/findings.go:605-623 | Only an active finding is resolved, with the reason. |
| `FindingsStore.FindingsStore.Acknowledge` | internal/ai/findings.go:626-641 | A known finding gets the time of acknowledgement. |
| `FindingsStore.FindingsStore.Snooze` | internal/ai/findings.go:644-663 | A known finding that is not resolved sleeps for the duration. |
| `FindingsStore.FindingsStore.Unsnooze` | internal/ai/findings.go:666-682 | A known finding that is not resolved wakes. |
| `FindingsStore.FindingsStore.Dismiss` | internal/ai/findings.go:696-728 | The dismissal, its note and its acknowledgement, by reason. |
| `FindingsStore.FindingsStore.Undismiss` | internal/ai/findings.go:731-771 | Dismissal and suppression are cleared, and with them the rules for the resource and category. |
| `FindingsStore.FindingsStore.Suppress` | internal/ai/findings.go:827-848 | The finding is suppressed and a rule for its resource and category added. |
| `FindingsStore.FindingsStore.DeleteSuppressionRule` | internal/ai/findings.go:1207-1239 | The rule goes, explicit or made by a dismissal. |
| `FindingsStore.FindingsStore.ClearAll` | internal/ai/findings.go:978-986 | Findings and index are emptied; rules stay. |
| `FindingsStore.FindingsStore.Cleanup` | internal/ai/findings.go:990-1027 | Exactly the stale findings go, out of the map and out of the index. |
| `FindingsStore.FindingsStore.GetByResource` | internal/ai/findings.go:891-904 | The listed findings of the resource that are active. |
| `FindingsStore.FindingsStore.FindSimilarFindings` | internal/ai/findings.go:1394-1416 | Exactly the other active findings whose similarity reaches the threshold. |
| `FindingsStore.FindingsStore.MostSimilar` | internal/ai/findings.go:1424-1435 | A finding of greatest positive similarity, or none when no similarity is positive. |
| `FindingsStore.FindingsStore.MergeInto` | internal/ai/findings.go:1439-1464 | The report is folded into the finding: severity only rises, evidence is joined and cut. |
| `FindingsStore.FindingsStore.AddWithDeduplication` | internal/ai/findings.go:1420-1473 | Either the report is folded into a most similar finding, or it is added; which one is determined by the candidates. |
| `FindingsStoreRuns.IndexAlwaysAgrees` | internal/ai/findings.go:364-388 | After a load into an empty store and any sequence of operations, each stored id is listed exactly once, under its own resource, and nothing else is listed. |
| `FindingsStoreRuns.LoadKeepsIndexIff` | internal/ai/findings.go:364-388 | A load keeps the index right exactly when none of the loaded ids is stored already. |
| `FindingsStoreRuns.GetByResourceIsTheFilter` | internal/ai/findings.go:891-904 | What the index gives is the plain filter of the map, each finding once. |
| `FindingsStoreRuns.DismissalIsRemembered` | internal/ai/findings.go:488-601 | A silenced finding stays inactive through every run without a worse report, a user lifting it or its removal, at the severity its merges gave it; the count of reports grows by one for each. |
| `FindingsStoreRuns.EscalationWakes` | internal/ai/findings.go:488-553 | A report ends the silence exactly when it is strictly worse; then dismissal, suppression and resolution are cleared and the finding is active unless snoozed. |
| `FindingsStoreRuns.OnlyEscalationWakes` | internal/ai/findings.go:488-553 | After any such run the next report wakes the finding exactly when it is worse than the level reached. |
| `FindingsStoreRuns.MergeMasksEscalation` | internal/ai/findings.go:1439-1464 | A merge of the same escalation in between raises the level, so the report that would have woken the finding no longer does. |
| `FindingsStoreRuns.SuppressBlocksNewFindings` | internal/ai/findings.go:827-848 | While a finding is suppressed, a new finding of its resource and category is refused and the store unchanged. |
| `FindingsStoreRuns.UndismissLeavesRules` | internal/ai/findings.go:731-771 | For any store, finding and place: after an undismiss the place is blocked exactly by the matching rules that are not deleted, and a rule is deleted exactly when the finding is suppressed, names a resource, and the rule names just its resource and category. |
| `FindingsStoreRuns.UndismissLiftsSuppression` | internal/ai/findings.go:731-771 | For any store and finding, an undismiss leaves the finding's own resource and category unblocked exactly when every rule that matches them is such a rule. |
| `FindingsStoreRuns.SuppressionRuleGoesIff` | internal/ai/findings.go:731-771 | Whatever comes between a suppress and the undismiss, short of touching the rule or removing findings, the rule goes exactly when the finding is still suppressed by then and names a resource. |
| `FindingsStoreRuns.EscalationLeavesRule` | internal/ai/findings.go:522-526 | Suppress, a worse report, a dismissal, an undismiss: the finding is no longer silenced, and its own resource and category stay blocked. |
| `FindingsStoreRuns.KeysAreIds` | internal/ai/findings.go:364-388 | Findings are stored under their own ids after every run from a load of findings filed so. |
| `FindingsStoreRuns.SuppressionWithoutResourceStays` | internal/ai/findings.go:731-771 | A suppressed finding without a resource keeps its category suppressed on every resource after it is undismissed. |
| `FindingsStoreRuns.ReloadBreaksIndex` | internal/ai/findings.go:376-382 | Loading an id that is stored already lists it a second time. |
| `FindingLaws.ReportOfKnown` | internal/ai/findings.go:488-553 | A report of a known finding is taken over unless the finding is silenced and the report is no worse: texts and severity are the report's, and what was resolved or silenced is open again. Otherwise it is only counted. Nothing else in the store changes. |
| `FindingLaws.RecurrenceReopens` | internal/ai/findings.go:537-544 | A finding that was resolved and is reported again is active, unless it was silenced or snoozed. |
| `FindingLaws.ReportOfNew` | internal/ai/findings.go:555-581 | A finding not known yet is refused when a rule blocks its resource and category, and otherwise stored as reported, detected now when it names no time, and listed last under its resource. |
| `FindingLaws.MergeFolds` | internal/ai/findings.go:1439-1464 | A merge changes only the count, the time seen, the evidence, joined and cut at 5000, and the severity, which rises to that of a worse report. |
| `FindingLaws.ResolveCloses` | internal/ai/findings.go:584-623 | A finding can be resolved exactly when it is shown, and is not shown at any time after that. |
| `FindingLaws.SnoozeHidesUntil` | internal/ai/findings.go:644-682 | A snoozed finding is shown from the end of the time on and not before, an unsnoozed one at once; neither touches what is resolved or dismissed. |
| `FindingLaws.DismissSilences` | internal/ai/findings.go:696-728 | A finding dismissed with a reason is never shown; it is suppressed exactly when it was, or the reason is not_an_issue; an empty note keeps the old one. |
| `FindingLaws.UndismissShows` | internal/ai/findings.go:731-771 | Exactly the silenced findings can be undismissed, and are shown again unless resolved or snoozed. |
| `FindingLaws.SuppressSilences` | internal/ai/findings.go:827-848 | A suppressed finding is never shown, and one rule for just its resource and category is added. |
| `FindingLaws.AcknowledgeKeepsShown` | internal/ai/findings.go:626-641 | Acknowledging changes the time of acknowledgement and nothing else. |
| `FindingLaws.UndismissTakesBack` | internal/ai/findings.go:696-771 | Undismissing what was just dismissed gives the finding back but for the note and the acknowledgement, shown at the same times as before. |
| `FindingLaws.RuleDeletionMeans` | internal/ai/findings.go:1207-1239 | A rule goes by its id; "finding_" and the id of a silenced finding ends that silence; any other id does nothing. |
| `FindingLaws.CleanupRemovesOutlived` | internal/ai/findings.go:990-1027 | Exactly the findings go that were resolved longer ago than the maximal age, or were dismissed, not suppressed, and not seen for thirty days. |
| `FindingLaws.FoldsIntoTheMostSimilar` | internal/ai/findings.go:1420-1435 | A finding takes a report in exactly when it is shown, of another id, similar enough, has something in common with the report, and no other such finding is more similar. |
| `StaleFindings.ReconcileStaleFindings` | internal/ai/patrol_ai.go:2590-2635 | Exactly the seeded findings that are active and were neither reported nor resolved are resolved, none after errors, and the count is their number. |
| `StaleFindings.ClosingMeans` | internal/ai/patrol_ai.go:2590-2635 | A finding is closed exactly when it was seeded, is shown, and was neither reported nor resolved; it is then resolved by the patrol with its reason and otherwise as before. |
| `Similarity.ExtractKeywords` | internal/ai/findings.go:1355-1391 | The scan collects exactly the lower-case words of more than two letters or digits that are no stop words. |
| `Similarity.KeywordOverlap` | internal/ai/findings.go:1323-1352 | The two counting loops compute the Jaccard similarity of the keyword sets. |
| `Similarity.JaccardBounds` | internal/ai/findings.go:1323-1352 | It lies in [0, 1], is symmetric, is 0 exactly for disjoint sets and 1 exactly for equal ones that are not empty, and is the shared words divided by all of them. |
| `Similarity.SimilarityIsSymmetricAndBounded` | internal/ai/findings.go:1289-1320 | The similarity is symmetric and lies in [0, 1]. |
| `Similarity.WordsAddALittle` | internal/ai/findings.go:1289-1320 | The key is worth 0.4, the resource 0.3 and the category 0.2; the words of the titles add up to 0.2 and those of the descriptions up to 0.1, nothing when none is shared and all of it when they are the same, and the sum stops at 1. |
| `Similarity.KeywordMeans` | internal/ai/findings.go:1355-1391 | A word is a keyword exactly when it has at least three letters or digits, is no stop word, and stands in the text in any case with no letter or digit next to it. |
| `FindingClusters.BuildCluster` | internal/ai/findings.go:1498-1556 | A cluster takes every finding not taken yet that is similar enough to its first, and describes them: count, highest severity, common resource, summary. |
| `FindingClusters.ClusterAll` | internal/ai/findings.go:1497-1558 | The clusters divide the findings: each is in exactly one, the totals sum to the number of findings, and members reach the threshold with their leader. |
| `FindingClusters.GetFindingClusters` | internal/ai/findings.go:1476-1559 | The clusters divide exactly the active findings of the store, when no two of them have one id, as in every run from a load filed by id. |
| `FindingClusters.LeadersAreDissimilar` | internal/ai/findings.go:1497-1522 | Leaders of different clusters are below the threshold to each other. |
| `FindingClusters.NamedByOneCluster` | internal/ai/findings.go:1503-1525 | Each finding is named, as primary or related, by exactly one cluster. |
| `FindingClusters.SummaryReads` | internal/ai/findings.go:1547-1556 | A cluster of several findings is summed up by their number, their category and, when all are on one, their resource; a single finding by its title. |
| `AgentServer.Server.Register` | internal/agentexec/server.go:161-169 | The new connection takes the place of the old one, whose done channel is closed. |
| `AgentServer.Server.ExitReadLoop` | internal/agentexec/server.go:198-206 | The entry goes only when it is this connection. |
| `AgentServer.Server.AddPending` | internal/agentexec/server.go:331-336 | A fresh response channel is stored under the request id. |
| `AgentServer.Server.RemovePending` | internal/agentexec/server.go:337-341 | The entry under the request id goes. |
| `AgentServer.Server.LookupPending` | internal/agentexec/server.go:250-253 | The channel a result is for. |
| `AgentServer.Server.TrySend` | internal/agentexec/server.go:254-262 | The result is left in the channel when it is empty and dropped otherwise. |
| `AgentServer.Server.Receive` | internal/agentexec/server.go:365-372 | The caller takes what the channel holds. |
| `AgentServerRuns.AgentsMapIsAlwaysTheLatest` | internal/agentexec/server.go:161-206 | In every interleaving an agent maps to its latest registration, or to nothing once that one left; done channels are closed at most once. |
| `AgentServerRuns.LateCleanupSparesSuccessor` | internal/agentexec/server.go:197-206 | The late cleanup of a replaced connection leaves the map as it is. |
| `AgentServerRuns.CallsGetTheirOwnResult` | internal/agentexec/server.go:250-372 | In every interleaving a call only returns a result with its own request id. |
| `AgentServerRuns.OutcomeIsFinal` | internal/agentexec/server.go:365-372 | Once decided, what a call returns never changes, whatever happens from then on. |
| `AgentServerRuns.TakesAtMostOne` | internal/agentexec/server.go:365-372 | In every run a call that returned a result took exactly one from its channel, and any other call none. |
| `AgentServerRuns.DeliveryNeverBlocks` | internal/agentexec/server.go:250-262 | In every reachable state a read loop gets rid of a result for a waiting call in one step; afterwards the channel holds a result with the call's own id, the new one unless such a result was there already, and taking it is the call's outcome. |
| `AgentServerRuns.ResultWaitsForTheCall` | internal/agentexec/server.go:250-372 | A result in the channel of a waiting call stays there in every continuation until the call has an outcome. |
| `AgentServerRuns.PendingExactIffDistinct` | internal/agentexec/server.go:331-341 | The pending map is exactly the calls in flight, at every moment, if and only if no two of them share a request id. |
| `AgentServerRuns.StrandedForever` | internal/agentexec/server.go:331-372 | A call whose entry was taken away by another with its id can only time out or be cancelled. |
| `AgentServerRuns.SharedIdStrandsTheFirstCall` | internal/agentexec/server.go:331-341 | A run of eight steps in which that happens. |
| `AgentResults.OutcomesAreAccounted` | internal/agentexec/server.go:318-372 | In every interleaving a call returns only a result that arrived with its own request id, and fails for the reason it names: a failed send, a timeout, a cancellation, or an agent that was not there when it started. |
| `AgentResults.RefusedIffNotConnected` | internal/agentexec/server.go:161-206 | In every interleaving a call is refused exactly when the read loop of the agent's latest connection has ended, or there never was one. |
| `PatrolStream.PatrolStreamer.SubscribeToStream` | internal/ai/patrol_run.go:1119-1143 | A new channel joins the subscribers, holding the phase and the output so far when the stream is not idle. |
| `PatrolStream.PatrolStreamer.UnsubscribeFromStream` | internal/ai/patrol_run.go:1146-1157 | A subscriber leaves and its channel is closed; anything else is left alone. |
| `PatrolStream.PatrolStreamer.Broadcast` | internal/ai/patrol_run.go:1161-1184 | Every subscriber with room gets the event, every other one leaves and is closed. |
| `PatrolStream.BroadcastIsDetermined` | internal/ai/patrol_run.go:1161-1184 | The outcome does not depend on the order in which the map is walked. |
| `PatrolStream.PatrolStreamer.AppendStreamContent` | internal/ai/patrol_run.go:1187-1196 | The text is appended to the output and broadcast. |
| `PatrolStream.PatrolStreamer.SetStreamPhase` | internal/ai/patrol_run.go:1201-1218 | The phase changes, the output is cleared when it becomes idle, and a change to another phase is broadcast. |
| `PatrolStreamRuns.FanOutIsGapFree` | internal/ai/patrol_run.go:1119-1184 | In every interleaving a channel receives its catch-up and then all broadcasts without a gap until it leaves, and is closed at most once, after leaving. |
| `PatrolStreamRuns.NoSendOnClosed` | internal/ai/patrol_run.go:1161-1184 | A subscriber's channel is never closed, so no send hits a closed one. |
| `PatrolStreamRuns.TextBookkeeping` | internal/ai/patrol_run.go:1187-1218 | The output is the texts written since the stream was last idle. |
| `PatrolStreamRuns.NoTextIsLost` | internal/ai/patrol_run.go:1187-1196 | In every interleaving each text was broadcast or waits for its broadcast exactly once. |
| `PatrolStreamRuns.TextReachesMidRunJoiner` | internal/ai/patrol_run.go:1119-1218 | A subscriber that joined during a run got each earlier text of it by the catch-up, and gets each later one by a broadcast unless it left before or the broadcast is still to come; twice exactly when it joined between the write and the broadcast and was there for it. |
| `StreamReaders.JoinersCatchUp` | internal/ai/patrol_run.go:1119-1143 | In every interleaving a channel starts with the phase and, when there is any, the output so far, unless the stream was idle, and holds one event for each broadcast since. |
| `StreamReaders.JoinSeesTheStream` | internal/ai/patrol_run.go:1119-1143 | The phase and the output a reader is told are those of the stream when it joins. |
| `StreamReaders.OnlySlowReadersAreDropped` | internal/ai/patrol_run.go:1146-1184 | In every interleaving a reader leaves exactly when it asks to, or when something is broadcast while it has one hundred events unread; it never has more. |
| `StreamReaders.EveryPhaseIsAnnounced` | internal/ai/patrol_run.go:1201-1218 | In every interleaving the stream is in the phase set last, and each change to another phase than idle was broadcast, or waits to be, exactly once. |
| `SeedSections.SplitPatrolSeedSections` | internal/ai/patrol_ai.go:1246-1276 | The loop with its flushes computes Sections. |
| `SeedSections.OrderIsPlace` | internal/ai/patrol_ai.go:1266-1269 | A section's order is its place in the list. |
| `SeedSections.SectionsCoverSeed` | internal/ai/patrol_ai.go:1246-1276 | Put back together the sections are the seed: nothing is lost but a blank start, and only a heading in the last line gains a newline. |
| `SeedSections.NewlinesHaveNoSections` | internal/ai/patrol_ai.go:1255-1260 | A seed of nothing but newlines has no sections. |
| `SeedParsing.SplittingReadsBack` | internal/ai/patrol_ai.go:1246-1276 | Sections written out one behind the other are read back as they were, for every list that splitting can produce. |
| `SeedParsing.SplittingIsUnique` | internal/ai/patrol_ai.go:1246-1276 | For every seed: a section starts at each line that starts with "# ", and before the first of them only with a text that is not blank; no other such list has the same text. |
| `SeedRendering.RenderedIsRawAndBlankLine` | internal/ai/patrol_ai.go:1233-1244 | A rendered section is its text followed by at most two newlines, and ends in a blank line if it has a heading. |
| `SeedRendering.ShortenedFits` | internal/ai/patrol_ai.go:1297-1319 | A shortened section fits the room. |
| `SeedRendering.GivenUpIff` | internal/ai/patrol_ai.go:1303-1311 | A section too long for the room is given up exactly when the room is at most 66 more than its heading. |
| `SeedRendering.ShortenedShows` | internal/ai/patrol_ai.go:1313-1318 | What is shown is the heading line, a start of the body not ending in a newline, and the note; all of the body that fits is shown, but for newlines at the end. |
| `SeedRendering.PatrolLayoutFits` | internal/ai/patrol_ai.go:1307-1339 | The texts and the truncation of the source have the sizes the budget proofs need. |
| `SeedRendering.OverBudgetIff` | internal/ai/patrol_ai.go:1321-1403 | The result is at most four over the budget, and over it exactly when the seed is, more than 48 are allowed, and there is no section or no room beside any heading. |
| `SeedRendering.OverBudgetExample` | internal/ai/patrol_ai.go:1326-1332 | Sixty newlines reduced to fifty characters make fifty-four. |
| `SeedRendering.StartIsShownInstead` | internal/ai/patrol_ai.go:1326-1383 | When no section can be shown at all, the start of the seed is, with the marker where more than 48 characters are allowed. |
| `SeedRendering.OnlyTheNoteFits` | internal/ai/patrol_ai.go:1334-1337 | A budget too small for the note gets the start of the note. |
| `SeedTiers.TierMeans` | internal/ai/patrol_ai.go:1278-1295 | The seven tiers of headings, spelled out. |
| `SeedTiers.MoreUrgentKeptWhole` | internal/ai/patrol_ai.go:1321-1403 | However long the rest of the seed is: when the note and the whole sections of the first tiers, and of the next tier up to some place, fit the budget, each of them stands whole in the result. |
| `SeedTiers.AlertsOutlastPreviousRun` | internal/ai/patrol_ai.go:1278-1295 | 7800 characters of alerts stay whole before 7798 of the previous run when 8000 are allowed. |
| `SeedContext.ReducePatrolSeedContext` | internal/ai/patrol_ai.go:1321-1403 | The method computes Reduced from the sections of the seed. |
| `SeedContext.Choose` | internal/ai/patrol_ai.go:1360-1376 | The budget loop computes the selection over the ranked sections. |
| `SeedContext.Build` | internal/ai/patrol_ai.go:1389-1393 | The builder concatenates the note and the pieces. |
| `SeedContext.ChosenFits` | internal/ai/patrol_ai.go:1360-1402 | Whatever is chosen fits the budget, so the last fallback is never taken. |
| `SeedContext.ReducedSize` | internal/ai/patrol_ai.go:1321-1403 | The budget is exceeded exactly when no section is shown and the marker is added, and then by four. |
| `SeedContext.NothingShownIff` | internal/ai/patrol_ai.go:1360-1383 | No section is shown exactly when each one is refused the whole room the note leaves. |
| `SeedContext.KeptInOriginalOrder` | internal/ai/patrol_ai.go:1385-1393 | The pieces stand in the order of their sections, at most one each, and show them whole or cut short. |
| `SeedContext.BestRankedKeptWhole` | internal/ai/patrol_ai.go:1344-1376 | The sections up to any rank at which they all fit are kept whole. |
| `SeedContext.NothingLeftOutWouldFit` | internal/ai/patrol_ai.go:1360-1376 | A section of which nothing is shown would not have fitted behind what is shown. |
| `Sorting.SortBySorts` | internal/ai/patrol_ai.go:1344-1353 | Sorting rearranges, and orders by the two keys. |
| `Sorting.SortByUnique` | internal/ai/patrol_ai.go:1344-1353 | With distinct keys there is only one such arrangement. |
| `SeedRetries.UniquePositiveInts` | internal/ai/patrol_ai.go:1466-1480 | The loop with its set of seen values computes UniquePositive. |
| `SeedRetries.UniquePositiveMeans` | internal/ai/patrol_ai.go:1466-1480 | Exactly the positive values remain, each once. |
| `SeedRetries.FirstOccurrencesInOrder` | internal/ai/patrol_ai.go:1466-1480 | They stand in the order of their first occurrence. |
| `SeedRetries.BudgetsFew` | internal/ai/patrol_ai.go:1419-1433 | There are one to three budgets, all positive. |
| `SeedRetries.BudgetsFollowTheWindow` | internal/ai/patrol_ai.go:1419-1433 | Without a named window 16000 and then 8000 characters are tried; with one, twice its size, its size and half of it, at most 16000 and 8000 and at least 2000, and beyond 2^62, where twice the size wraps around, only the last two. |
| `SeedRetries.BudgetsDescendIff` | internal/ai/patrol_ai.go:1419-1433 | Each budget is smaller than the one before exactly when no window is named, or it is 1000, from 2000 to 16001, 32000 or 32001. |
| `SeedRetries.BudgetsRiseExample` | internal/ai/patrol_ai.go:1419-1433 | A window of 512 makes budgets of 1024, 512 and 2000. |
| `SeedRetries.NextReducedPatrolPrompt` | internal/ai/patrol_ai.go:1455-1464 | The loop computes NextFrom. |
| `SeedRetries.NextMeans` | internal/ai/patrol_ai.go:1455-1464 | The next prompt is that of the first remaining budget giving a shorter one; there is none exactly when no remaining budget does. |
| `SeedRetries.SendWithRetries` | internal/ai/patrol_ai.go:479-533 | At most four prompts are sent, each shorter than the last, all but the first from a budget; only a too-long answer leads to another, the last answer decides, and a too-long one ends it only when no budget at all gives a shorter prompt. |
| `ThinkingTokens.RemoveFunctionCalls` | internal/ai/patrol_ai.go:71-92 | Phase 0 cuts the text at each function marker. |
| `ThinkingTokens.RemoveTaggedBlocks` | internal/ai/patrol_ai.go:94-123 | Phase 1 removes every tagged block, case-insensitively. |
| `ThinkingTokens.RemoveMarkedLines` | internal/ai/patrol_ai.go:125-156 | Phase 2 removes every line with an end marker. |
| `ThinkingTokens.RemoveReasoning` | internal/ai/patrol_ai.go:158-198 | Phase 3 drops reasoning paragraphs. |
| `ThinkingTokens.CollapseBlankLines` | internal/ai/patrol_ai.go:200-204 | Runs of newlines are collapsed until none is longer than two. |
| `ThinkingTokens.CleanThinkingTokens` | internal/ai/patrol_ai.go:66-207 | The whole cleaning. |
| `ThinkingTokensRuns.CutAllCuts` | internal/ai/patrol_ai.go:71-92 | After phase 0 no function marker is left; a text without one is untouched, any other gets shorter. |
| `ThinkingTokensRuns.RemoveBlocksRemoves` | internal/ai/patrol_ai.go:105-123 | After its loop a tag opens no block any more. |
| `ThinkingTokensRuns.DropAllDrops` | internal/ai/patrol_ai.go:125-156 | After phase 2 none of the end markers is left: removing lines for one brings no other back. |
| `ThinkingTokensRuns.NothingFormsAfterBlocks` | internal/ai/patrol_ai.go:125-207 | Phases 2 and 3 form no pattern within a line: what the result contains, the text had when its blocks were gone. |
| `ThinkingTokensRuns.CleanedHasNoMarkers` | internal/ai/patrol_ai.go:66-207 | The result contains no end marker and no three newlines in a row, and no space at its ends. |
| `ThinkingTokensRuns.LeftAloneIffClean` | internal/ai/patrol_ai.go:66-207 | A text is returned as it is exactly when it is clean, and every other one gets shorter. |
| `ThinkingTokensRuns.ThinkingIsProper` | internal/ai/patrol_ai.go:75-133 | The markers of the source are not empty and the end markers stay within a line. |
| `ThinkingLines.PhaseTwoFiltersLines` | internal/ai/patrol_ai.go:125-156 | Phase 2 is a filter of lines: exactly the lines without any end marker stay, in order; a marked first line is emptied instead of removed. |
| `ThinkingLines.ReasoningGoesUpToContent` | internal/ai/patrol_ai.go:158-198 | From a blank line before reasoning on, every line goes up to the next line of content, which stays. |
| `ThinkingLines.ReasoningParagraphGoes` | internal/ai/patrol_ai.go:158-198 | Of lines with one paragraph of reasoning, announced by a blank line, exactly that line and the lines up to the next line of content go. |
| `ThinkingLines.ReasoningAtTheEndGoes` | internal/ai/patrol_ai.go:158-198 | Reasoning that no content follows takes the rest with it. |
| `ThinkingLines.ReasoningIsDropped` | internal/ai/patrol_ai.go:158-198 | The same for whole texts and in the words of the source: which lines start reasoning and which are content. |
| `ThinkingBlocks.ClosedBlockGoes` | internal/ai/patrol_ai.go:105-123 | The first block of a tag goes, from its opening tag to the first closing tag behind, in any case of letters; the text on both sides stays for the blocks behind it. |
| `ThinkingBlocks.OpenBlockTakesTheRest` | internal/ai/patrol_ai.go:109-121 | A block that is never closed takes all the rest with it and nothing before it. |
| `ThinkingBlocks.TextBeforeCallStays` | internal/ai/patrol_ai.go:71-92 | Phase 0 leaves exactly the text before the first function marker, whichever marker it is, trimmed. |
| `ThinkingBlocks.BlockIsHidden` | internal/ai/patrol_ai.go:66-207 | A reply with a tagged block is cleaned as it would be without the block. |
| `ThinkingBlocks.OpenBlockHidesTheRest` | internal/ai/patrol_ai.go:66-207 | A reply with a block that is never closed is cleaned as if it ended before it. |
| `ThinkingBlocks.ThinkingIsHidden` | internal/ai/patrol_ai.go:66-207 | A clean reply behind a block of thinking is all that is left, whatever the thinking, in any case of letters. |
| `ThinkingBlocks.UnclosedThinkingIsHidden` | internal/ai/patrol_ai.go:66-207 | A clean reply before thinking that is never closed is left as it is. |
| `ThinkingBlocks.FunctionCallIsHidden` | internal/ai/patrol_ai.go:66-207 | A clean reply before a function call of the model is left as it is. |
| `TextEdits.CutContains` | internal/ai/patrol_ai.go:139-153 | A pattern within a line that occurs after a cut at a newline occurred before. |
| `TextEdits.CollapseAllEnds` | internal/ai/patrol_ai.go:202-204 | The collapsing loop ends without three newlines in a row, and leaves a text without them alone. |
| `TextEdits.CollapseAllSqueezes` | internal/ai/patrol_ai.go:200-204 | Collapsing leaves out exactly the newlines that two newlines precede. |
| `ToolEvents.ToolTracker.OnToolStart` | internal/ai/patrol_ai.go:337-371 | The start is queued and pending under its id, made up when missing. |
| `ToolEvents.ToolTracker.Unqueue` | internal/ai/patrol_ai.go:382-398 | A named end leaves the order; an unnamed one means the oldest start. |
| `ToolEvents.ToolTracker.OnToolEnd` | internal/ai/patrol_ai.go:372-446 | The end completes the pending call, or makes an entry of its own, with its output beside it. |
| `ToolEvents.ToolTracker.EnsureInvestigationToolCall` | internal/ai/patrol_ai.go:685-764 | With an executor an investigation call is recorded afterwards; the fallback is added only when there was none. |
| `ToolEvents.ToolTracker.SignalToolCalls` | internal/ai/patrol_ai.go:462-468 | The loop computes the calls with their raw outputs. |
| `ToolEventsRuns.OrderIsPendingIff` | internal/ai/patrol_ai.go:337-446 | The order lists exactly the pending calls, each once, all along a stream, if and only if no start names a call that is pending. |
| `ToolEventsRuns.ReusedIdExample` | internal/ai/patrol_ai.go:363-364 | Two starts of one id leave it in the order twice. |
| `ToolEventsRuns.OrderIsStartOrder` | internal/ai/patrol_ai.go:337-446 | With distinct ids the order is the starts that have not ended, in order. |
| `ToolEventsRuns.UnnamedEndCompletesOldest` | internal/ai/patrol_ai.go:382-389 | An unnamed end completes the call pending longest, with its name and start. |
| `ToolEventsRuns.OneEntryPerEnd` | internal/ai/patrol_ai.go:410-446 | There is one entry and one raw output for each end, aligned, with its success, its output cut and its id if it has one. |
| `ToolEventsRuns.SignalsSeeRawOutputs` | internal/ai/patrol_ai.go:462-468 | The signal detection sees every output in full. |
| `ToolEventsRuns.NoCallIsLost` | internal/ai/patrol_ai.go:337-446 | Every started call is pending or was completed by one end. |
| `ToolEventsRuns.DurationsAreElapsed` | internal/ai/patrol_ai.go:410-426 | A duration is end minus start and never negative. |
| `ToolEventsRuns.DistinctWhenChosenDistinct` | internal/ai/patrol_ai.go:345-348 | Ids are distinct when the provider's are and none looks made up. |
| `ToolEventsRuns.PatrolNamesInjective` | internal/ai/patrol_ai.go:345-348 | Made-up ids differ for different numbers. |
| `ToolRecords.RecordsTellTheirEvents` | internal/ai/patrol_ai.go:337-446 | In every stream a recorded call has the outcome of an end, its output cut at 2048, and the name, the start time and, when the end brings none, the input of a start before it, cut at 1024, or those of the end; a raw input counts before the other. |
| `ToolRecords.OneLookIsRecorded` | internal/ai/patrol_ai.go:685-764 | Exactly pulse_query, pulse_metrics, pulse_storage and pulse_read count as looking at the infrastructure; the fallback is recorded as a pulse_query with its own input, output, success and time. |
| `Numbers.AtoiItoa` | internal/alerts/filter_evaluation.go:213-216 | A printed number reads back exactly when it is a 64-bit integer. |
| `GuestKeys.StableKeyInjective` | internal/alerts/filter_evaluation.go:198-205 | For any two guests, negative ids included, stable keys are the same exactly when the absolute ids are and the instances are, each with a dash more when its id is negative; for ids of one sign that is the same instance and id. |
| `GuestKeys.NegativeIdCollides` | internal/alerts/filter_evaluation.go:198-216 | A guest with a negative id has the stable key of the guest with the opposite id and one dash more. |
| `GuestKeys.NegativeIdsCollide` | internal/alerts/filter_evaluation.go:198-216 | Instance a with id -5 and instance a- with id 5. |
| `GuestKeys.LegacyIsStableIff` | internal/alerts/filter_evaluation.go:306-308 | One guest's legacy key is another's stable key exactly when the other's instance reads like the first one's instance and node. |
| `GuestKeys.LegacyIsLegacyIff` | internal/alerts/filter_evaluation.go:306-308 | Two guests have one legacy key exactly when their instances and nodes read alike together. |
| `GuestKeys.BuiltIsDashedIff` | internal/alerts/alerts.go:5574-5581 | A key with colons is a stable or legacy key exactly through the sign of a negative id behind a name that ends in a colon. |
| `GuestKeys.BuiltIsCanonicalIff` | internal/alerts/filter_evaluation.go:269-275 | A built key is recognised as a key of another guest exactly for the same instance and id, names without colons and a machine integer. |
| `GuestKeys.BuiltIsBuiltIff` | internal/alerts/alerts.go:5574-5581 | Two guests have one built key exactly when instance, colon and node read alike together and the ids are equal. |
| `GuestKeys.ParseBuiltKey` | internal/alerts/filter_evaluation.go:207-232 | The key parser reads back what BuildGuestKey builds exactly when neither name has a colon and the id is a machine integer; otherwise it reads nothing. |
| `GuestKeys.ColonIsNotReadBack` | internal/alerts/filter_evaluation.go:207-232 | Instance a:b is not read back. |
| `GuestKeys.ParseDashed` | internal/alerts/filter_evaluation.go:207-232 | From a name, a dash and an id the parser reads a guest only when the name is two names each with a colon behind, and then the dash is the sign of the id. |
| `GuestOverrides.OverrideTable.LookupGuestOverride` | internal/alerts/filter_evaluation.go:277-336 | The lookup and the table after it, branch by branch. |
| `GuestOverrides.OverrideTable.MigrateOlder` | internal/alerts/filter_evaluation.go:319-332 | An entry under an earlier key of the guest moves to the stable key, if there is one. |
| `GuestOverrides.FoundIsReached` | internal/alerts/filter_evaluation.go:277-336 | A lookup finds something exactly when it was given a key of the table or reaches one: its stable key and, for a clustered guest, its legacy key and the keys that name one of its nodes. What it finds is under such a key. |
| `GuestOverrides.ReachesOthersKeyIff` | internal/alerts/filter_evaluation.go:198-336 | For any two guests and each of the three forms of key, the exact spelling under which one guest's lookup reaches the key of the other. |
| `GuestOverrides.PlainReadsIff` | internal/alerts/filter_evaluation.go:198-336 | For names without colons and ids that are not negative: equal ids, and the same instance, an instance that reads like the other's instance and node, or instances and nodes that read alike together. |
| `GuestOverrides.OverrideTakenIff` | internal/alerts/filter_evaluation.go:277-336 | One guest's lookup takes the override filed under another's key for good exactly when it reads that key as its own and the other does not read the first one's stable key as its own. |
| `GuestOverrides.SharedLegacyKeyIsTaken` | internal/alerts/filter_evaluation.go:306-317 | Two clustered guests with one legacy key: the first lookup takes the override, the other guest then finds nothing. |
| `GuestOverrides.SharedLegacyKeyExample` | internal/alerts/filter_evaluation.go:306-317 | Instance a on node b-c and instance a-b on node c, both with id 5. |
| `GuestOverrides.FoundIsStored` | internal/alerts/filter_evaluation.go:277-336 | A clustered guest's override is under the stable key after it was found. |
| `GuestOverrides.OverrideSurvivesMoves` | internal/alerts/filter_evaluation.go:277-336 | From then on a lookup from any node finds the same override and changes nothing. |
| `GuestOverrides.OnlyOneKeyMoves` | internal/alerts/filter_evaluation.go:277-336 | A lookup moves at most one entry, to the stable key. |
| `GuestOverrides.FindsIff` | internal/alerts/filter_evaluation.go:277-336 | It finds something exactly when the id, the stable key or, for a clustered guest, an earlier key is present. |
| `GuestOverrides.NodeBoundKeyIsMigrated` | internal/alerts/filter_evaluation.go:319-332 | In any table with a key built for some node of the guest, and neither its stable nor its legacy key, a lookup migrates such a key; with no other, it migrates this one exactly when no name has a colon and the id is a machine integer. |
| `GuestOverrides.LegacyLookupTakesAnothersOverride` | internal/alerts/filter_evaluation.go:306-317 | With an instance that reads like another's instance and node, the other's lookup takes the override over and the owner finds nothing. |
| `GuestLookups.IdentityIff` | internal/alerts/filter_evaluation.go:234-267 | A machine is its instance, or its node when that is blank, with its node and an id above zero; anything else is the guest its id spells out. |
| `GuestLookups.OlderKeyIff` | internal/alerts/filter_evaluation.go:269-275 | A key counts as an older one of the guest exactly when it spells out its instance and id, with whatever node. |
| `GuestLookups.GuestFindsItsOverride` | internal/alerts/filter_evaluation.go:277-336 | For an id that is no key: the lookup finds the entry under instance and id; on a cluster it falls back to the entry that names the node too and then to any key that spells out instance and id, and moves what it finds there. |
| `GuestLookups.KeyIsTakenAsItIs` | internal/alerts/filter_evaluation.go:284-301 | An id that is a key of the table wins; on a cluster its entry is moved to instance and id. |
| `GuestLookups.NamelessGuestFindsByIdOnly` | internal/alerts/filter_evaluation.go:234-305 | A machine without an id above zero or without a node, and anything else whose id spells out no guest, gets nothing but the entry under the id itself. |
| `GuestLookups.OverrideFollowsMachine` | internal/alerts/filter_evaluation.go:277-336 | On a cluster an override, once found, is found again on whatever node the machine turns up, and nothing changes any more. |
| `MockEnv.ParseMockEnv` | cmd/pulse/mock.go:157-170 | The loop over the lines computes Parsed. |
| `MockEnv.SettingMeans` | cmd/pulse/mock.go:157-170 | A line sets a key exactly when, trimmed, it is the key, an equals sign and the value, the key has no equals sign, and the line is no comment. |
| `MockEnv.LastLineWins` | cmd/pulse/mock.go:157-170 | A key has a value exactly when the last line that sets it gives that value. |
| `MockEnv.LinesInOrder` | cmd/pulse/mock.go:173-218 | One line is written for each key that is set, in the order of the keys. |
| `MockEnv.WriteMockEnv` | cmd/pulse/mock.go:173-218 | The content is the header, the known keys in their order and the others in some order. |
| `MockEnv.SetMockMode` | cmd/pulse/mock.go:110-135 | What is written is the defaults, the settings of the old file and the mode. |
| `MockEnv.ParsedIsCanonical` | cmd/pulse/mock.go:157-170 | What reading produces has keys and values that a line can carry. |
| `MockEnv.RoundTripIffCanonical` | cmd/pulse/mock.go:157-218 | Reading what was written gives the map back exactly for the maps reading can produce. |
| `MockEnv.ParseWriteParse` | cmd/pulse/mock.go:157-218 | parse(write(parse(s))) = parse(s) for every file s. |
| `MockEnv.DefaultsAreCanonical` | cmd/pulse/mock.go:138-154 | The defaults can be written and read back. |
| `MockEnv.SwitchedFileReadsBack` | cmd/pulse/mock.go:110-135 | The next reader sees exactly what was switched. |
| `MockEnv.SwitchingKeepsSettings` | cmd/pulse/mock.go:116-130 | Every setting of the old file but the mode is kept, the mode is the one asked for, and to these come exactly the defaults the old file does not set. |
| `MockEnv.SwitchingIsIdempotent` | cmd/pulse/mock.go:110-135 | Switching twice reads back as switching once. |

## Left out

- Calls to language models, web sockets, HTTP, JSON, metrics, logging and the file system: their decoded results are inputs.
- `Start`, `Stop` and the ticker of the scheduler: a tick is a step of the run.
- PatrolTriggers.TriggerManager.GetStatus: the status has no Running flag, since starting and stopping are not modelled.
- The adaptive interval is an exact quotient here; the source computes it in floating point.
- Whether a scoped patrol may start is a free choice of the run, including the forced clearing of a run after 20 minutes.
- The counts of active findings by severity, which the source does not keep exact and recounts where it matters.
- Debounced saving of findings: snapshots are taken outside the lock, so the disk is not tied to memory.
- Findings are values: a caller that keeps and changes the pointer it added is not modelled. Missing findings (nil) and investigation fields are not modelled either.
- FindingsStore.FindingsStore.AddWithDeduplication: its two locked sections are one method here; the runs interleave them as separate Add and merge steps.
- StaleFindings.ReconcileStaleFindings: one clock reading serves the pass, and no other operation comes between its resolutions.
- Ids of suppression rules, which the source derives from the clock, are parameters.
- The ping loop of the agent server and its failure count.
- Connections and channels are numbers instead of pointers; the stream events carry no payload but their text.
- Letters beyond ASCII in lower-casing, and the difference between bytes and characters when text is cut.
- ThinkingTokensRuns.CleanedHasNoMarkers: claims nothing about block tags or function markers that come together only when a block between their parts is removed.
- SeedRetries.SendWithRetries: how an error text is recognised as a context-window error, and how the window is read from it, are the answers' data.
- SeedContext.ReducePatrolSeedContext: the sections themselves are ranked, where the source ranks their indices; the order field stands for the index.
- Resource thresholds, health scores and the evaluation of filter conditions: correct but easy.
- The formatting of prompts, tables and remediation texts, demo data, the front end and the command line.
