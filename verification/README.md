# pancakes-harness: a verified model of the context kernel

pancakes-harness keeps an append-only event log per session. Branch state, consult history and outbound
packets are all derived from that log. This project models the deterministic parts of the kernel in Dafny and
proves what they are relied on for.

| file | component |
|---|---|
| `EventLog.dfy` | events, kinds and event metadata |
| `TokenAst.dfy` | flattening and validating a model-produced summary tree |
| `BranchDag.dfy`, `Replay.dfy` | the branch graph and the ways to rebuild branch state from the log |
| `Assembler.dfy` | packet assembly and compaction under a hard byte budget |
| `ConsultTypes.dfy`, `ConsultManifest.dfy`, `ConsultMeta.dfy` | the consult manifest that carries its own length, and the durable consult record |
| `Fingerprint.dfy`, `Preflight.dfy` | canonical requests and boundary validation |
| `Inflight.dfy`, `AgentCalls.dfy` | the table of calls in flight, and the agent-call handler that coalesces equal requests |
| `SearchIndex.dfy`, `LogCompaction.dfy` | BM25 search and log compaction |
| `Selector.dfy`, `Runtime.dfy`, `Scheduler.dfy` | the egress selector, the turn loop and the compaction schedule |
| `Preprocess.dfy` | the worker-pool daemon |
| `MemoryBackend.dfy` | the in-memory log and manifest store |
| `GoText.dfy`, `Sorting.dfy`, `Canonical.dfy` | Go strings, `sort.Slice`, shared canonicalisation |
| `JsonText.dfy`, `JsonSize.dfy` | JSON texts as encoding/json writes them, and their lengths |

`dafny verify dfyconfig.toml` checks everything.

## How the code is modelled

Objects whose methods change fields are classes; loops are loops, proved against functions; the properties are
lemmas about those functions. `Stored` branches keep their dirty ranges in heap arrays, so that `Graph.Valid`
can say that no two branches share them.

Concurrent components (`AgentCalls`, `Preprocess`) are state machines. A step is one critical section, one channel
operation, one atomic increment or one log write; a run is any interleaving of enabled steps. The classes
`Inflight.Coalescer` and `Preprocess.Daemon` are tied to the steps. In `Runtime` the model, the tools, the content
search, the audit tracker and the success of each write are arbitrary values, and other writers, sessions on the same
branch among them, may append any valid events between any two steps.

A Go string is the sequence of its bytes. Go's `range` over a map visits the keys in an arbitrary order,
and `sort.Slice` returns some sorted permutation, so contracts say what holds for some or for every order.
Left open, as parameters, are how encoding/json escapes the characters of a string, `strings.ToLower` and `ToUpper`, and, in the
index, the rune split, the letter test, the symbol extractor and the logarithm.

## Where the code does something else than it seems to

Each item names the lemma or contract with the exact condition; a second lemma is about a concrete input.

- `CompactByScore` says that it removes the lowest scores (internal/memory/compaction.go:42-43 and 80) and keeps
  the front of the ascending order (91-93), so it removes the highest. `RemovesLowestIff` says when that is still
  the lowest; `HighestIsRemoved` is an input.
- `CompactAgeThreshold` ends its loop when the removal limit is reached, and then drops the remaining older events
  without counting them (internal/memory/compaction.go:247-256). `AgeCountsAddUpIff`; `AgedEventIsUncounted`.
- Trimming constraints is called deterministic, but keys that trim alike overwrite one another in map order
  (internal/consult/manifest.go:102-115, internal/preflight/validate.go:82-95). `TrimmedDeterministicIff`;
  `AmbiguousConstraints`.
- A compaction stage can make a packet longer: stage 3 by two bytes when there are no working items (`[]` becomes
  `null`), stage 4 when the checkpoint item is longer than what it replaces (internal/assembler/assembler.go:191-251).
  `StagesShrinkExcept` and `StageFourGrowsIff`; `CheckpointCanGrow`.
- Working items that share ordinal and id have no defined order (internal/assembler/assembler.go:131-136).
  `NormalizedUniqueIff`; `TiedItemsHaveNoOrder`.
- `Compacted` on a manifest can be set although the text fits: setting the flag shortens it
  (internal/consult/manifest.go:62-71). `FlagMeans`; `FlagOutlivesItsCause`.
- `Stop` can return while accepted jobs still wait, when it overtakes `Start`; and a `Submit` can send on the
  closed queue (internal/preprocess/daemon.go:121-167). `StopReturnsCleanIff` and `CrashPossibleIff`; the runs are
  `StopCanReturnEarly` and `CrashIsReachable`.
- `RebuildBranchFromSummaryAndEvents` appends the checkpoints that full replay skips and the rebases on which it goes
  back to the basis (internal/replay/replay.go:108-131 against 190-196). `SummaryAgreesIff` for the heads and
  `SummaryIsReplayIff` for the whole branch; `RoutesDiffer`.
- Debug kinds of another branch can leave the spine by reference (internal/egress/selector.go:48 precedes 65).
  `IncludedIff`; `DebugKindOfOtherBranch`.
- A user turn can lose its text before it is sent, when other turns on the branch follow it
  (internal/egress/selector.go:75-101). `OwnTextIff`; `LongTurnIsLost`.
- The page of `ListManifests` can run past the largest integer (internal/backend/memory.go:271-278). The contract of
  `ListManifests`; `PageEndCanWrap`.

## Model

| member | source | states |
|---|---|---|
| TokenAst.ValidateExact | internal/compactor/schema.go:145-195 | for every tree that parses, validation accepts the flattened map exactly when the tree is well-formed: kinds by level, at most four levels, importance in range, content, and all ids non-empty and distinct although duplicates overwrite silently |
| TokenAst.ParseSucceedsIff | internal/compactor/schema.go:344-390 | flattening fails exactly when some node has an unknown kind |
| TokenAst.FlattenHolds | internal/compactor/schema.go:344-379 | flattening touches only the tree's own ids and loses no node when no id repeats |
| TokenAst.WalkSucceedsIff | internal/compactor/schema.go:164-195 | on every map, cyclic ones included, the traversal succeeds exactly when each id below the root passes its own checks and is reached by exactly one path of child indices |
| TokenAst.WalkMarks | internal/compactor/schema.go:164-195 | on every map, what a successful traversal adds to the visited set is exactly what hangs below its start |
| TokenAst.WalkTree | internal/compactor/schema.go:164-195 | over a map holding a well-formed tree the traversal succeeds and marks exactly its ids |
| TokenAst.ReadBackInverse | internal/compactor/schema.go:317-379 | reading an accepted map back from the root along child ids gives the original tree, node for node |
| TokenAst.CoverageExact | internal/compactor/schema.go:334-340 | event coverage is the duplicate-free set of the event references of all nodes |
| TokenAst.Ast.FlattenGeminiNode | internal/compactor/schema.go:344-379 | the recursive fill of the leaf map, in place, with its failures |
| TokenAst.Ast.ValidateSubtree | internal/compactor/schema.go:164-195 | the traversal with the shared visited set |
| TokenAst.Ast.Validate | internal/compactor/schema.go:145-162 | the root checks and the traversal from the root |
| TokenAst.Ast.CollectCoverage | internal/compactor/schema.go:334-338 | gathers the references of all leaves in any map order |
| TokenAst.Ast.ParseGeminiResponse | internal/compactor/schema.go:317-342 | a parsed tree as an AST object, or the flattening error |
| TokenAst.DeduplicateStrings | internal/compactor/schema.go:493-504 | each distinct string once, in the order of first occurrence |
| BranchDag.AppendToBranch | internal/branchdag/branch.go:49-69 | opens or stretches the last dirty range on a fresh copy and moves the head |
| BranchDag.CloneBranch | internal/branchdag/branch.go:41-47 | an equal branch that shares no range storage |
| BranchDag.AppendMeans | internal/branchdag/branch.go:49-69 | when an append is refused; otherwise it moves the head and the end of the last range and nothing else, or opens a first range |
| BranchDag.IsValidBranch | internal/branchdag/branch.go:29-39 | the branch and all its ranges are named |
| BranchDag.Graph.CreateBranch | internal/branchdag/graph.go:15-25 | adds a valid new branch, or refuses and changes nothing; the caller's ranges, the stored ones and those handed out are separate |
| BranchDag.Graph.ForkBranch | internal/branchdag/graph.go:27-50 | adds a child that names parent and fork event and has the parent's head, base, ranges and score, field by field, in storage of its own, and hands out a separate copy |
| BranchDag.Graph.AppendEvent | internal/branchdag/graph.go:52-63 | changes one branch by an append and leaves all others as they were; what it hands out shares no storage with the graph |
| BranchDag.Graph.SetBaseSummary | internal/branchdag/graph.go:65-73 | sets one branch's summary base and hands out a separate copy |
| BranchDag.Graph.RebaseOnSummary | internal/branchdag/graph.go:75-87 | sets base and basis head and drops the dirty ranges of one branch, and hands out a separate copy |
| BranchDag.GraphRefusals | internal/branchdag/graph.go:15-63 | exactly what creating, forking and appending are refused for |
| BranchDag.Graph.GetBranch | internal/branchdag/graph.go:89-95 | a separate copy of the stored branch, or not found |
| Replay.ReplaySucceedsIff | internal/replay/replay.go:80-140 | full replay fails exactly when some event is invalid |
| Replay.ReachableGraph | internal/replay/replay.go:80-140 | in every replayed graph each branch is valid, has at most one dirty range ending at the head, its parent exists, and no branch is its own ancestor |
| Replay.StepIsLocal | internal/replay/replay.go:83-132 | an event changes only its own branch; a fork may also create its parent, empty |
| Replay.ForkInherits | internal/branchdag/graph.go:27-50 | field by field what a replayed fork takes over from its parent: its head becomes the fork event, base, first range start and score are the parent's, the links are those the event names |
| Replay.GraphLinks | internal/replay/replay.go:80-106 | parent link and fork event of every replayed branch, read off the event that created it, empty for roots and for branches created to be forked from; scores are zero |
| Replay.GraphMeaning | internal/replay/replay.go:80-140 | which branches the graph has, and the head of each, read off the log: the last event that is no checkpoint, or the basis of a rebase, or none |
| Replay.SessionSucceedsIff | internal/replay/replay.go:49-70 | RebuildSession succeeds exactly on valid logs of one session and counts the events |
| Replay.SessionHeads | internal/replay/replay.go:49-70 | it maps exactly the branches with an event to their last event |
| Replay.HeadsAgree | internal/replay/replay.go:49-140 | heads of the two rebuilds agree wherever no checkpoint or rebase intervenes; the graph's extra branches are the event-less fork parents |
| Replay.HeadsAgreeIff | internal/replay/replay.go:49-140 | on every log with distinct ids the two heads of a branch agree exactly when full replay shows its last event: no final checkpoint (unless the last rebase names it as basis), no final rebase onto another basis |
| Replay.RebasePreservesMeaning | internal/replay/replay.go:80-172 | after a rebase, full replay of a further log gives the branch that the summary and the delta give, whatever other branches do meanwhile |
| Replay.DeltaFollowsReplay | internal/replay/replay.go:142-172 | while a branch sees no checkpoint or rebase, full replay moves it as the delta does |
| Replay.SummaryHeadIff | internal/replay/replay.go:174-197 | rebuilding from a basis event gives the session's head exactly when the basis is on the branch or the branch has a later event |
| Replay.GraphBranch | internal/replay/replay.go:80-140 | summary base, head and dirty range of every replayed branch, read off the log: what forks take over, checkpoints set and rebases reset |
| Replay.SummaryAgreesIff | internal/replay/replay.go:108-197 | on every log with distinct ids the head of the summary route agrees with full replay exactly when full replay shows the branch's last event |
| Replay.SummaryIsReplayIff | internal/replay/replay.go:108-197 | the two give the very same branch exactly when moreover the summary is the branch's last one and full replay's dirty range starts with the first event after the basis |
| Replay.RoutesDiffer | internal/replay/replay.go:108-197 | a log ending in a checkpoint and one ending in a rebase, on which the routes give different heads |
| Replay.RebuildSession | internal/replay/replay.go:49-70 | the loop over the log, with its early failures |
| Replay.RebuildBranchStateFromEvents | internal/replay/replay.go:80-140 | the loop over the graph object equals the fold that the lemmas speak of |
| Replay.RebuildBranchFromSummaryDelta | internal/replay/replay.go:142-172 | the loop over the delta, with its checks in order |
| Replay.SummarySucceedsIff | internal/replay/replay.go:142-172 | the summary route succeeds exactly when branch record, checkpoint and all events are complete and the checkpoint is of that branch |
| Replay.RebuildBranchFromSummaryAndEvents | internal/replay/replay.go:174-197 | finds the first basis event and appends the branch's later events |
| Scheduler.CompactionScheduler.ShouldCompact | internal/compactor/scheduler.go:89-115 | the decision, and the count of suppressed checks |
| Scheduler.CompactionScheduler.MarkCompactionFailed | internal/compactor/scheduler.go:128-134 | a failure leaves only the cooldown counter changed |
| Scheduler.CompactionScheduler.MarkCompacted | internal/compactor/scheduler.go:118-125 | a success restarts both counters and is counted |
| Scheduler.CompactionScheduler.RecordTurn | internal/compactor/scheduler.go:66-72 | a turn advances all three turn counters |
| Scheduler.CompactionScheduler.CompletedTurn | internal/runtime/session.go:713-837 | one turn of the record, check, succeed or fail protocol |
| Scheduler.RunsAreOk | internal/compactor/scheduler.go:66-134 | what every run of turns keeps of the counters and of the spacing of the firings |
| Scheduler.FiringsAreSpaced | internal/compactor/scheduler.go:89-134 | over any run, failures included, successes are at least the cooldown apart |
| Scheduler.FiringsBounded | internal/compactor/scheduler.go:118-134 | (firings - 1) * cooldown is at most the number of turns |
| Scheduler.DecisionExact | internal/compactor/scheduler.go:89-134 | in every reachable state the decision depends only on the turns since the last success |
| Scheduler.SuppressedExact | internal/compactor/scheduler.go:89-105 | in every reachable state exactly the checks within the cooldown count as suppressed, once each, and none of them fires |
| Scheduler.FiresWhenDue | internal/compactor/scheduler.go:89-134 | with enough events it fires as soon as the turns since the last success reach trigger and cooldown |
| Sorting.SortingCanonicalIff | internal/assembler/assembler.go:131-136 | sort.Slice has one possible result exactly when no two different elements tie |
| GoText.StrLessIff | internal/assembler/assembler.go:122-145 | strings are ordered by the first byte in which they differ, and a proper prefix comes first |
| GoText.TrimSpaceMeans | internal/consult/manifest.go:83-100 | trimming removes white space runes at both ends, all of them, and nothing else |
| Canonical.NormalizeList | internal/consult/manifest.go:83-100 | the trim, skip or refuse, then sort loop |
| Canonical.CanonPermuted | internal/consult/manifest.go:83-240 | permuting a list changes neither its canonical form nor its refusal |
| Canonical.CanonIdempotent | internal/consult/manifest.go:83-240 | canonicalising a canonical list changes nothing |
| Canonical.NormalizeConstraints | internal/preflight/validate.go:82-95 | trims a map visited in any order; a blank key refuses |
| Canonical.TrimmedDeterministicIff | internal/consult/manifest.go:102-115 | trimming has one result for all visiting orders exactly when a key is blank or no two keys trim alike with values that trim differently |
| Canonical.AmbiguousConstraints | internal/consult/manifest.go:102-115 | two constraints that two visiting orders trim to different maps |
| Canonical.TrimmedIdempotent | internal/preflight/validate.go:82-95 | a trimmed map is left alone in any order |
| ConsultManifest.ThreeMarshalsReachIt | internal/consult/manifest.go:242-257 | for every length of the rest, three marshals reach the self-describing length |
| ConsultManifest.MeasuredBytes | internal/consult/manifest.go:242-257 | at most four marshals, the fallback is never taken, and the result is the least n that equals the length of the text carrying n |
| ConsultManifest.MarshalLenIsLength | internal/consult/types.go:17-81 | the measured size of a manifest is the length of its JSON text, names, quotes, colons and commas included |
| ConsultManifest.TwoFixpoints | internal/consult/manifest.go:242-257 | a text can have two self-describing lengths, so that least is a statement |
| ConsultManifest.FlipShortens | internal/consult/manifest.go:63-71 | setting the flag shortens the measured text by one byte, by two exactly when a digit goes as well |
| ConsultManifest.SelectedItemOrderTotal | internal/consult/manifest.go:137-154 | the six-key comparator orders any two different items |
| ConsultManifest.OrdersMean | internal/consult/manifest.go:137-238 | what the three comparators compare, key by key, in order and direction |
| ConsultManifest.SelectionItemOrderTotal | internal/consult/manifest.go:206-217 | the four-key comparator orders any two different items |
| ConsultManifest.ReasonCountOrderTotal | internal/consult/manifest.go:233-238 | count descending, then reason, orders any two different counts |
| ConsultManifest.NormalizeSelectionExplanation | internal/consult/manifest.go:158-185 | the four lists of an explanation, any of which can refuse |
| ConsultManifest.Generate | internal/consult/manifest.go:13-76 | the imperative generation equals the function that the lemmas speak of |
| ConsultManifest.GenerateSucceedsIff | internal/consult/manifest.go:13-43 | exactly which inputs are refused as malformed |
| ConsultManifest.GeneratedMeasuresItself | internal/consult/manifest.go:59-73 | actual_bytes is the manifest's marshalled length, also after the flag was set, and an unset flag means a positive budget is met |
| ConsultManifest.GeneratedTextMeasuresItself | internal/consult/manifest.go:59-73 | the number in a generated manifest is the length of the JSON text that carries it, and unflagged that text is within a positive budget |
| ConsultManifest.GeneratedMeans | internal/consult/manifest.go:13-73 | field by field what a generated manifest takes from its input: scalars trimmed, refs and items trimmed and sorted, explanation lists trimmed and sorted |
| ConsultManifest.FlagMeans | internal/consult/manifest.go:63-71 | exactly when the flag gets set, and exactly for which budgets the flagged text is within the budget after all |
| ConsultManifest.FlagOutlivesItsCause | internal/consult/manifest.go:63-71 | a manifest flagged as compacted at exactly its budget |
| ConsultManifest.GenerateCanonical | internal/consult/manifest.go:83-240 | permuting any list, or the visiting order of unambiguous constraints, leaves the manifest unchanged |
| ConsultManifest.GenerateIdempotent | internal/consult/manifest.go:13-76 | generating from a generated manifest returns that manifest |
| ConsultMeta.SummaryMeta | internal/consult/types.go:101-127 | prints a summary key by key, optional keys only when set |
| ConsultMeta.SelectionMeta | internal/consult/types.go:129-174 | prints a selection, empty lists left out |
| ConsultMeta.GatherAll | internal/replay/replay.go:360-389 | the reading loops keep what can be read, in order |
| ConsultMeta.ListConsultEvents | internal/replay/replay.go:202-240 | all consult facts of a one-session log in order, or the mixed-session error |
| ConsultMeta.ConsultRoundTrip | internal/replay/replay.go:215-236 | reading a printed summary recovers every field; an empty outcome comes from the kind, ill-formed selection entries are dropped |
| ConsultMeta.RecoveredExactlyIff | internal/replay/replay.go:333-441 | nothing is lost exactly when the outcome is named and a selection is well-formed and not empty |
| ConsultMeta.AppendedConsultIsListed | internal/replay/replay.go:202-240 | appending a printed summary as a resolved or unresolved consult adds exactly it to the end of the listing, with the outcome that the kind stands for if it names none |
| ConsultMeta.OthersAreNotListed | internal/replay/replay.go:202-240 | events of any kind but the two consult kinds leave the listing as it is |
| ConsultMeta.ReadIntMeans | internal/replay/replay.go:307-331 | what the number reader makes of every kind of value: integers as they are, floats without their fraction, texts as numbers once trimmed, else zero |
| ConsultMeta.NumberReadsBack | internal/replay/replay.go:322-327 | every number of 64 bits is read back from its decimal text |
| ConsultMeta.ConsultsSurviveJson | internal/replay/replay.go:202-441 | the listing of a log is the same after a JSON round trip exactly when no number that the reader takes from a consult, well-formed selection counts included, is rounded by becoming a float64 |
| ConsultMeta.SurvivesFloat64Iff | internal/replay/replay.go:307-331 | with 53 bits of precision exactly the multiples of the local spacing survive; up to 2^53 every integer does |
| ConsultMeta.RoundEvenMeans | internal/replay/replay.go:320-321 | a number becomes the nearest multiple of the spacing, and of two the even one |
| ConsultMeta.SpacingMeans | internal/replay/replay.go:320-321 | the spacing is the power of two that leaves 53 bits of precision |
| Fingerprint.FingerprintOf | internal/ingress/fingerprint.go:31-64 | the canonical payload: refs sorted, each constraint once in key order, external context trimmed |
| Fingerprint.FingerprintRequest | internal/ingress/fingerprint.go:67-69 | trimming the external context twice changes nothing |
| Fingerprint.SamePayloadIff | internal/ingress/fingerprint.go:25-64 | two requests have equal payloads exactly when they are equal up to the order of refs and white space around the external context |
| Preflight.Validate | internal/preflight/validate.go:16-64 | the verdict, with the result that accompanies each refusal |
| Preflight.ValidatedMeans | internal/preflight/validate.go:16-64 | exactly when input is malformed and when it is resolved, and that a reason is always given |
| Preflight.ResultMeans | internal/preflight/validate.go:16-64 | field by field what the result takes from its input, permissions included, and what accompanies each refusal |
| Preflight.ValidatedCanonical | internal/preflight/validate.go:66-95 | permuting refs, or the visiting order of unambiguous constraints, changes nothing |
| Preflight.ValidatedIdempotent | internal/preflight/validate.go:16-64 | validating an accepted result again returns it |
| Assembler.MeasureHeaders | internal/assembler/assembler.go:174-181 | the bytes of all field lines and the empty line |
| Assembler.BodyLenIsLength | internal/assembler/types.go:22-49 | the measured size of a body is the length of its JSON text, items, constraints, omitted members and the `null` of a nil working set included |
| Assembler.FitsIff | internal/assembler/assembler.go:21-36 | the clamped budget and the second comparison amount to an envelope of at most 13568 bytes |
| Assembler.NormalizeRequest | internal/assembler/assembler.go:111-162 | a possible normal form: defaults for verb and path, sorted lists, shortened tool results, large texts with a blob dropped |
| Assembler.NormalOrder | internal/assembler/assembler.go:121-145 | items by ordinal and then id, headers and constraints by name and then value |
| Assembler.NormItemMeans | internal/assembler/assembler.go:147-154 | only an item's text can change, into a prefix: at most 256 bytes of a tool result, none next to a summary, no text above 1024 bytes next to a blob |
| Assembler.ApplyCompactionStage | internal/assembler/assembler.go:191-251 | one stage, item by item in place |
| Assembler.NewestIndex | internal/assembler/assembler.go:229-236 | the first item of the highest ordinal |
| Assembler.Assemble | internal/assembler/assembler.go:11-109 | the loop refines: the whole body if it fits, else without external context the least stage that fits, else a rejection with the body of stage 7 |
| Assembler.OutcomeMeans | internal/assembler/assembler.go:21-106 | in terms of the texts that would go out: the whole body if its envelope has at most 13568 bytes, else without external context the first stage that has, else a rejection |
| Assembler.MeasuredIsSent | internal/assembler/assembler.go:29-51 | the measurement is the length of the request line, headers and body as they go out, and a packet fits exactly when that is within 13568 bytes |
| Assembler.FittingIsWithinBudget | internal/assembler/assembler.go:23-51 | success means at most 13568 envelope bytes, rejection means more, and the measurement is that of the returned body |
| Assembler.ContextStatusIsTrue | internal/assembler/assembler.go:14-81 | external context is sent only at stage 0, and the status says what became of it |
| Assembler.StageSevenNeverFits | internal/assembler/assembler.go:83-103 | no packet is ever sent at stage 7 |
| Assembler.StagesShrinkExcept | internal/assembler/assembler.go:191-251 | every stage but 4 is no longer than the one before, except stage 3 on an empty working set, which is two bytes longer |
| Assembler.StageFourGrowsIff | internal/assembler/assembler.go:216-226 | exactly when collapsing into a checkpoint makes the packet longer |
| Assembler.CheckpointCanGrow | internal/assembler/assembler.go:216-226 | a packet that stage 4 makes longer |
| Assembler.StageKeeps | internal/assembler/assembler.go:191-251 | what no stage changes |
| Assembler.StagesRemove | internal/assembler/assembler.go:195-244 | what a stage removes is gone from every later stage too |
| Assembler.StageFiveKeepsNewest | internal/assembler/assembler.go:227-237 | of several items the first of the highest ordinal is kept |
| Assembler.ItemsUpToFour | internal/assembler/assembler.go:195-226 | unless stage 4 collapses them the items survive one by one up to stage 4, and only those with a summary lose their text |
| Assembler.ItemsStem | internal/assembler/assembler.go:191-251 | compaction invents no items but the one checkpoint item from stage 4 on |
| Assembler.PacketFrame | internal/assembler/assembler.go:11-162 | what a packet keeps of its request besides the items: ids, frontier and constraints, the external context whole and uncompacted or not at all, debug and provenance until their stage, and a status that says so |
| Assembler.PacketItemsStem | internal/assembler/assembler.go:11-162 | every item of a packet comes from a requested item and carries a prefix of its text, what normalising leaves of it or nothing; the exception is the one checkpoint item into which several may be collapsed |
| Assembler.ItemIsSent | internal/assembler/assembler.go:11-162 | up to stage 4, unless it collapses the items, every item is in the packet with all that normalising leaves of its text, or with its summary from stage 3 on |
| Assembler.PlainItemIsSent | internal/assembler/assembler.go:11-162 | up to stage 4, unless it collapses the items, a plain item is in the packet with its whole text |
| Assembler.AssembledUnique | internal/assembler/assembler.go:11-109 | the outcome is determined by the normalised request |
| Assembler.AssembleCanonical | internal/assembler/assembler.go:111-162 | permuting headers, items or any other list changes neither normal form nor packet, as long as no two different items share ordinal and id |
| Assembler.NormalizedUniqueIff | internal/assembler/assembler.go:131-155 | the normal form is unique exactly then |
| Assembler.TiedItemsHaveNoOrder | internal/assembler/assembler.go:131-136 | two items with two normal forms |
| Assembler.NormalizeIdempotent | internal/assembler/assembler.go:111-162 | a normal form is a normal form of itself |
| Inflight.Coalescer.Enter | internal/ingress/inflight.go:37-71 | joins the call of the key, or registers a new one and leads it |
| Inflight.Coalescer.Publish | internal/ingress/inflight.go:60-63 | only the first completion of a call writes |
| Inflight.Coalescer.Close | internal/ingress/inflight.go:64 | closes the channel of a written call and changes nothing else |
| Inflight.Coalescer.Remove | internal/ingress/inflight.go:65-67 | the locked delete by key |
| Inflight.Coalescer.ReadValue | internal/ingress/inflight.go:99-105 | what a waiting caller reads once the channel is closed |
| AgentCalls.RunsKeepInv | internal/server/server.go:397-545 | the protocol invariant holds in every interleaving |
| AgentCalls.OneLeaderPerKey | internal/ingress/inflight.go:22-24 | at most one unfinished leader per key, and the key finds its call |
| AgentCalls.RemovesItsOwn | internal/ingress/inflight.go:65-67 | each release deletes exactly its own call |
| AgentCalls.PublishedForever | internal/ingress/inflight.go:60-69 | only the first completion counts: a published value never changes |
| AgentCalls.FollowersReadTheirLeader | internal/ingress/inflight.go:99-109 | no follower reads before publication, and each reads what the leader of its call published |
| AgentCalls.EnterFindsItsKey | internal/ingress/inflight.go:37-54 | a caller waits for, or leads, a call under its own fingerprint |
| AgentCalls.FollowerEventsNameLeaders | internal/server/server.go:413-435 | a follower's consult event names a leader event of the same fingerprint already earlier on the log, and consult ids are unique |
| AgentCalls.EveryAppendIsLogged | internal/server/server.go:413-533 | over every run the log has one entry for each append that the backend took, and no other |
| AgentCalls.LeaderIsLogged | internal/server/server.go:506-545 | a leader's append puts its reserved id under its call's fingerprint on the log, and that is what it goes on to publish |
| AgentCalls.FollowerIsLogged | internal/server/server.go:413-438 | a follower's append puts its reserved id on the log with the fingerprint and the leader's consult id that it has read |
| AgentCalls.RefusedLeader | internal/server/server.go:526-536 | a leader whose consult event is refused publishes that failure and leaves the log as it was |
| AgentCalls.ResolvedFollowersAppend | internal/server/server.go:409-438 | no follower of a resolved call is done before it has tried to append its own event |
| AgentCalls.IdsCountReservations | internal/server/server.go:999-1003 | consult ids are counted from 1 without gaps |
| AgentCalls.LeaderGoesOn | internal/server/server.go:439-545 | an unfinished leader always has a step of its own, and each brings it nearer to publishing and releasing |
| AgentCalls.FollowersAreReleased | internal/ingress/inflight.go:99-109 | once its leader has finished a waiting follower can read |
| AgentCalls.LateJoinIsReachable | internal/ingress/inflight.go:64-67 | a caller can join a call between its close and its delete |
| LogCompaction.EstimateEventTextSize | internal/memory/compaction.go:182-205 | the estimate, the same in whatever order the metadata is visited |
| LogCompaction.OneMoreKey | internal/memory/compaction.go:195-205 | without a text each further key adds its trimmed length and that of its string, unless it trims to "text" or "summary" |
| LogCompaction.LargestOutweigh | internal/memory/compaction.go:146-158 | no choice of n events weighs more than the n largest |
| LogCompaction.GreedyIsOptimal | internal/memory/compaction.go:152-158 | largest-first removal reaches a budget with the fewest events, and fails only when nothing within the limit reaches it |
| LogCompaction.CompactByTextSize | internal/memory/compaction.go:114-180 | kept and removed split the events, recent ones stay, BytesSaved is the removed sum, and the removal is optimal among all choices of older events |
| LogCompaction.CompactByScore | internal/memory/compaction.go:44-110 | retention and counts, and that what is removed scores at least as high as every older event that stays |
| LogCompaction.RemovedOutscore | internal/memory/compaction.go:60-93 | a removed event has no lower score than a surviving older one, a missing score counting as zero, and is no older when the scores are equal |
| LogCompaction.RemovesLowestIff | internal/memory/compaction.go:42-93 | the lowest scores go, as the comment has it, exactly when the limits let nothing go or all older events score alike |
| LogCompaction.HighestIsRemoved | internal/memory/compaction.go:44-110 | three events of which the one with the higher score goes |
| LogCompaction.CompactAgeThreshold | internal/memory/compaction.go:232-268 | what is kept, and where the loop ends |
| LogCompaction.AgeCountsAddUpIff | internal/memory/compaction.go:245-267 | exactly when the reported counts add up |
| LogCompaction.AgedEventIsUncounted | internal/memory/compaction.go:245-267 | three events whose counts do not add up |
| LogCompaction.CompactionIsSubsequence | internal/memory/compaction.go:44-268 | on a strictly time-ordered log the result of each of the three compactions is a subsequence ending in the recent events |
| SearchIndex.Tokenize | internal/memory/search.go:235-254 | the loop over runes finds the words of at least two bytes |
| SearchIndex.SeparatorSplits | internal/memory/search.go:240-249 | the tokens on both sides of a separator are found independently |
| SearchIndex.OneWordText | internal/memory/search.go:235-254 | a text without separators is one token, its lowered runes, or none below two bytes |
| SearchIndex.EventText | internal/memory/search.go:213-232 | text, else summary, else all strings in some order |
| SearchIndex.JoinedParts | internal/memory/search.go:213-232 | strings are joined with one blank between them |
| SearchIndex.Index.Add | internal/memory/search.go:62-120 | after any sequence of additions the index agrees with the documents added |
| SearchIndex.LengthIsPostings | internal/memory/search.go:80-117 | the length of a document is what its postings weigh together: each token once, each symbol three times |
| SearchIndex.Index.RecomputeAvgDocLen | internal/memory/search.go:200-210 | the average over the statistics map, visited in any order, zero without documents |
| SearchIndex.Index.Search | internal/memory/search.go:123-191 | with distinct ids the results are those of a naive scan of the raw documents, by descending score, cut at the limit, which is 20 unless a positive one is given |
| SearchIndex.IdfArgumentPositive | internal/memory/search.go:152-154 | the logarithm's argument is (N + 1) / (df + 0.5), always positive |
| SearchIndex.Bm25Fraction | internal/memory/search.go:137-174 | the score as one fraction, in terms of frequency, length, average and the logarithm |
| SearchIndex.Bm25FallsWithLength | internal/memory/search.go:137-174 | with a positive logarithm the longer document scores strictly lower |
| SearchIndex.Bm25RisesWithFrequency | internal/memory/search.go:137-174 | and more occurrences score strictly higher |
| SearchIndex.Bm25Saturates | internal/memory/search.go:137-174 | but always below 2.2 times the logarithm |
| SearchIndex.ScoreIsNaive | internal/memory/search.go:146-176 | an accumulated score equals the one recomputed from the raw documents |
| SearchIndex.RankingIsNaive | internal/memory/search.go:178-190 | the result list contains exactly the naive hits with their naive scores |
| SearchIndex.NaiveOrderIrrelevant | internal/memory/search.go:62-120 | scores do not depend on the order of the additions |
| Selector.IncludedIff | internal/egress/selector.go:41-109 | exactly which candidates are included; spine-only kinds never |
| Selector.NeverEgressKinds | internal/egress/selector.go:154-182 | the kinds that never leave the spine, by the eight ways in which they begin |
| Selector.SpineOnlyStays | internal/egress/selector.go:41-109 | a candidate of such a kind is not included and keeps neither text nor summary; one of another kind and no debug kind passes when it is on the active branch and not sensitive |
| Selector.ReasonMeans | internal/egress/selector.go:41-109 | which reason each candidate gets, and what an excluded one keeps |
| Selector.DebugKindOfOtherBranch | internal/egress/selector.go:48-65 | a debug kind that is included because its event is on another branch |
| Selector.TextKeptIff | internal/egress/selector.go:41-109 | exactly which candidates keep their text; none of another branch |
| Selector.ClassMeans | internal/egress/selector.go:41-109 | class and reason say what is shipped |
| Selector.DominantReasons | internal/egress/selector.go:184-202 | every reason that occurs with its count, most frequent first |
| Selector.DominantListUnique | internal/egress/selector.go:195-200 | the list is determined by the counts |
| Selector.DominantListOrder | internal/egress/selector.go:195-200 | the more frequent reason comes first, and of equally frequent ones the alphabetically first |
| Selector.SelectWithExplanation | internal/egress/selector.go:19-131 | selection one by one, all inclusions, the first eight exclusions, counts of all |
| Runtime.LatestIds | internal/runtime/session.go:406-426 | the early-ending backward scan finds the last user turn, tool result and checkpoint of the branch |
| Runtime.UserIsSelected | internal/runtime/session.go:428-470 | every user turn of the branch passes the selector; its text stays unless it is large, more than eight events old and not the branch's last user turn |
| Runtime.UserSentIff | internal/runtime/session.go:487-529 | up to stage 4 a user turn of the branch is in the packet with its whole text exactly when it is short, or has no blob and is the last one or recent |
| Runtime.AgentSentIff | internal/runtime/session.go:428-529 | up to stage 4 an agent turn of the branch is in the packet with its whole text exactly when it is short, or has no blob and is recent |
| Runtime.ToolResultIsSent | internal/runtime/session.go:428-529 | up to stage 4 every tool result of the branch is in the packet, by the reference to its call or with the first 256 bytes of its summary |
| Runtime.CheckpointIsSent | internal/runtime/session.go:428-529 | up to stage 4 every checkpoint of the branch is in the packet, by the reference to its summary |
| Runtime.ForeignIsSelectedIff | internal/runtime/session.go:428-485 | exactly which events of other branches are selected: those marked or found, with a blob to refer to and of no spine-only kind, without their text |
| Runtime.GlobalIsSent | internal/runtime/session.go:428-529 | up to stage 4 what is marked as globally relevant goes out by reference from every branch |
| Runtime.SensitiveIsNotSent | internal/runtime/session.go:428-529 | tool requests and failures of the branch are in no packet |
| Runtime.SpineKindsNeverLeave | internal/egress/selector.go:154-182 | no item of a packet that a session sends is of a kind that begins in one of the eight ways |
| Runtime.PacketFromWorking | internal/runtime/session.go:487-529 | request line, headers and body of a fitting packet, as the texts that go out, have at most 13568 bytes; the body holds the session, the branch, the caller's external context or none, and the items; every item is of a kind that may leave, carries its event's own references and a prefix of that event's own text, and a text only if the event is on the packet's branch; what becomes of turns, tool results, checkpoints, sensitive events and other branches is as in the rows above |
| Runtime.RejectedIsTooLarge | internal/runtime/session.go:512-531 | a rejected packet has more than 13568 bytes even fully compacted and without external context |
| Runtime.OwnTextIff | internal/runtime/session.go:400-529 | exactly when the text of the turn that a call is for is sent whole, whatever other writers append |
| Runtime.LongTurnIsLost | internal/egress/selector.go:75-101 | a log of eleven events from which no packet up to stage 4 carries the text of the first turn |
| Runtime.CallsShareNoEvent | internal/runtime/session.go:208-265 | any two model calls have their own candidate and sent events, and the later one reads the log after the earlier one was made |
| Runtime.Session.Append | internal/runtime/session.go:625-630 | appends or leaves the log as it was |
| Runtime.EventIdsDiffer | internal/runtime/session.go:605-608 | ids with different numbers differ, whatever they are for |
| Runtime.Session.AssembleForBranch | internal/runtime/session.go:400-554 | on success a candidate event of a packet with those properties, composed from the log as it was read, is on the log; on a rejection at most a rejection event is |
| Runtime.Session.CallModel | internal/runtime/session.go:228-265 | the model is called only after the sent event is on the log, once |
| Runtime.Session.RecordResponse | internal/model/service.go:28-72 | a response stands only once its event is on the log; a schema error is recorded; any other failure leaves nothing |
| Runtime.Session.ExecuteToolCalls | internal/runtime/session.go:556-603 | for each call its request and then a result or a failure, with its tool and one call id, in order; an error leaves at most one request unanswered |
| Runtime.Session.RecordTurnAndMaybeCompact | internal/runtime/session.go:713-837 | a compaction pass writes a request, then a failure or the events of a success, and nothing else |
| Runtime.Session.ReasoningRound | internal/runtime/session.go:208-342 | at most one model call per round, exactly one if the turn goes on or is answered |
| Runtime.Session.ActOn | internal/runtime/session.go:301-341 | the result and the events of each decision: an answer is on the log with its text, tool calls go on only if all were run, a continuation and an unknown decision write nothing |
| Runtime.Session.ReasoningLoop | internal/runtime/session.go:208-349 | the bounded loop makes at most maxReasoningTurns calls, all for the same user turn, and gives up only after that many |
| Runtime.Session.HandleUserTurn | internal/runtime/session.go:159-349 | at most maxReasoningTurns model calls, all but the last with outcomes that let the turn go on, each with candidate and sent events of its own and a packet that is within budget and admissible, whatever other writers append; an answer is the one that the model gave in the last call, and the record of the response and then the answer are on the log after it; earlier calls and log entries stay |
| Preprocess.RunsConserveJobs | internal/preprocess/daemon.go:121-245 | in every interleaving accepted jobs are queued, in flight or recorded, each once; results and counters agree; the queue stays bounded |
| Preprocess.StopReturnsCleanIff | internal/preprocess/daemon.go:136-149 | when Stop returns every accepted job has exactly one result, exactly when some worker was spawned or nothing was accepted |
| Preprocess.ClosedQueueDrains | internal/preprocess/daemon.go:146-149 | once the queue is closed some worker can go on until Stop can return, and every worker step brings that nearer |
| Preprocess.CrashPossibleIff | internal/preprocess/daemon.go:136-167 | once Stop has taken over, a send can still meet the closed queue exactly when some Submit is between its flag check and its send |
| Preprocess.CrashIsReachable | internal/preprocess/daemon.go:153-167 | a Submit that read the flag before Stop can send on the closed queue |
| Preprocess.StopCanReturnEarly | internal/preprocess/daemon.go:121-149 | a Stop that overtakes Start returns with an accepted job without result |
| Preprocess.Daemon.BeginStart | internal/preprocess/daemon.go:122-128 | the locked part of Start |
| Preprocess.Daemon.CheckRunning | internal/preprocess/daemon.go:154-159 | the locked part of Submit |
| Preprocess.Daemon.TrySend | internal/preprocess/daemon.go:161-166 | accepts exactly when the queue has room |
| Preprocess.Daemon.Receive | internal/preprocess/daemon.go:211 | a worker takes the oldest queued job |
| Preprocess.Daemon.RecordResult | internal/preprocess/daemon.go:214-223 | the locked part of a worker's round |
| Preprocess.Daemon.BeginStop | internal/preprocess/daemon.go:138-144 | only one Stop gets through |
| Preprocess.Daemon.CloseQueue | internal/preprocess/daemon.go:146 | closes the queue and leaves what is in it |
| MemoryBackend.Backend.AppendEvent | internal/backend/memory.go:31-54 | appends to one session's log or refuses with the right error and changes no log; index and log stay in agreement |
| MemoryBackend.Backend.GetEventById | internal/backend/memory.go:74-92 | the index answers like a search of the log |
| EventLog.ValidIff | internal/eventlog/event.go:23-40 | what an event must have to be accepted |
| MemoryBackend.Backend.ListEventsByBranch | internal/backend/memory.go:110-130 | the branch's events in log order |
| MemoryBackend.RunKeepsFirsts | internal/backend/memory.go:31-54 | after any run of attempts the log is, in order, the valid attempts that were first with their id |
| MemoryBackend.OnBranchFilters | internal/backend/memory.go:119-129 | branch listing keeps exactly the branch's events, as often as they occur |
| MemoryBackend.OnBranchConcat | internal/backend/memory.go:119-129 | and keeps their order |
| MemoryBackend.ExchangeSort | internal/backend/memory.go:249-256 | the in-place exchange sort yields the sorted permutation |
| MemoryBackend.Backend.SaveManifest | internal/backend/memory.go:207-217 | stores under the manifest's event id, or refuses on a cancelled context |
| MemoryBackend.Backend.ListManifests | internal/backend/memory.go:234-279 | a page of the manifests in id order, and exactly when the end of the page wraps around |
| MemoryBackend.PageMeans | internal/backend/memory.go:258-278 | a page holds what stands from the offset on, as many as a positive limit says; a negative offset is none |
| MemoryBackend.EndWrapsIff | internal/backend/memory.go:261-278 | exactly for which limits and offsets the end of the page is no longer an integer |
| MemoryBackend.PageEndCanWrap | internal/backend/memory.go:271-278 | a limit and an offset with which the end of the page wraps around |
| MemoryBackend.PagesConcatenate | internal/backend/memory.go:261-278 | successive pages of one size concatenate to the listing without gap or overlap |

## Left out

- TokenAst.Ast.ParseGeminiResponse: starts from the decoded tree; decoding the JSON and its failures, and the session, branch, model and time fields of the AST, are left out.
- LogCompaction.CompactByTextSize: over budget it requires a non-negative `KeepRecent`; a negative one slices into spare capacity or beyond it.
- LogCompaction.CompactAgeThreshold: with a negative `KeepRecent` it requires that the removal limit is reached, because the loop otherwise indexes beyond the list.
- LogCompaction.CompactByScore: when there is something to compact it requires non-negative `KeepRecent` and `MaxCompactEvents`; negative ones index beyond the list.
- Preprocess.Daemon.BeginStart: a stopped daemon is not started again; the code would do so on a closed queue.
- Preprocess.RunsConserveJobs: a stopped daemon is not started again, which the code does not support; extraction, its spine event and the callback are not part of the record.
- AgentCalls.FollowerEventsNameLeaders: one counter of one server process; a restarted server begins at the same ids and relies on the backend's duplicate check. Panicking leaders, and requests that preflight leaves unresolved, are not part of the protocol.
- Runtime.Session.HandleUserTurn: event ids are unique only within one `Session` object, so that an append may fail as a duplicate.
- Runtime.Session.AssembleForBranch: does not return the selection and its explanation, which a turn only hands on to its caller; what they contain is stated by `Selector.SelectWithExplanation`.
- Fingerprint.SamePayloadIff: about the payload before JSON and SHA-256; equal digests of different payloads are not excluded, nor are byte strings that are not UTF-8 kept apart.
- ConsultMeta.ConsultsSurviveJson: numbers are reals, so infinities and NaN are not modelled, and strings are taken to be valid UTF-8.
- SearchIndex.Index.Search: scores are reals, without floating-point rounding.
- TokenAst.ValidateExact: importance is a real, so NaN is not modelled.
- Integer overflow elsewhere: byte counts, ordinals and counters are unbounded.
- Nil and empty slices or maps are told apart only where it shows, in the working set of a packet.
- Decoding JSON, the escapes within its strings, SHA-256, Go source parsing, wall-clock time, contexts and locks as such: replaced by given values, a parameter, payloads, a parameter, given integers and atomic steps.
- HTTP routing and adapters, model providers, subprocess runners, metrics, audit, dream and recovery services: input and output, or only easy members.
- `ListBranches` ordering, `StreamManifests`, blobs and health checks of the backend: nothing beyond what the rows above show.
