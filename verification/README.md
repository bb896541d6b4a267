# Chalkular, modelled and proved in Dafny

Chalkular takes Chalk reports from an SQS queue or over HTTP, evaluates them against
`ChalkReportPolicy` resources, and creates Ocular pipelines in the cluster. This project models the
parts of it in which state, order and failure interact, and proves what they keep.

`dafny verify dfyconfig.toml` checks everything.

## The parts

**Report intake** (`Intake`, `IntakeInvariant`, `IntakeSafety`, `IntakeHistory`, `IntakeBound`). SQS, the
listener loop, one waiter goroutine per message, the scheduler loop, the HTTP handlers and the cluster are a state machine in
which any enabled step may come next. A message can be delivered any number of times, a delete call may
fail with or without effect, and the two loops may be stopped at the places where they select. Sending on
a full channel blocks; sending on or closing a closed one panics. One invariant, kept by every step, gives the
safety theorems: a message leaves the queue only after `processReports` returned nil for exactly what was
parsed from the delivery whose receipt is used; pipelines come only from events answered nil; each event
gets one answer and a closed channel; the scheduler never blocks on a reply; and the counters add up.
Everything is traced back to the steps of the run that caused it: an event to the step that enqueued it, an
outcome to the step that processed it, and what is in the cluster to what was there, what the scheduler
made and what others brought.

**One event** (`Planning`, `PipelineObjects`, `Generation`, `Processing`, `Scheduler`, `Requests`). What a list of
reports asks of a list of policies is a pure function, `Planning.PlanReports`. The methods work on
objects: policies whose template maps and slices are shared references (a slice is a backing array, a
length and a capacity), a mutable policy cache, a cluster. `createPipelinesForReport` is proved to deliver
exactly the planned groups whatever the cache holds, as new objects that share nothing with each other or
with the template, and whatever the reconciler does with the shared compiler between two lookups;
`processReports` is proved to satisfy `Processing.ProcessAllows`, the relation that the intake protocol and
the bound on active pipelines take as their processing step. `Requests` then says what that means in terms
of the engine's answers alone: an event that succeeds creates one pipeline for each report, each listed
policy that is Ready, compiles, matches and stays within the cap, and each extracted item, in this order.

**Active pipelines** (`ActiveBound`, `IntakeBound`, `Unbounded`). Over every run with arbitrary completions
and removals, and so over every run of the intake protocol, the active pipelines stay within
`max(initially open, threshold - 1 + reports * policies * cap)` if created pipelines start before the next
event is taken. A pipeline without a start time is not counted, so without that assumption there is no
bound: whatever n is, some run under the same limits ends with at
least n active pipelines.

**Policies** (`Lru`, `Compiler`, `Extraction`, `Reconciler`, `PolicyLifecycle`). The compiler's cache is
a concrete LRU keyed by UID and checked by generation; a lookup answers what compiling afresh answers,
after any history, including a `Clear` in the middle of a lookup, since `Clear` does not take the lock.
The reconciler is a method over the cache; around it, one policy object lives through edits, deletion,
stale reads and refused writes, and `Ready` stays truthful, writes are bounded, and the cache finalizer
goes only after the cache entry was dropped.

**Helm patcher** (`Text`, `HelmPatch`). Two loops over Go maps, in any order, write a response layered over
a request. Success and the resulting files do not depend on the order. In each patched file `.Values`
occurs exactly once, in the prefix that defines `$values`.

CEL is a pair of deterministic functions that may fail; so are JSON decoding, regular expressions other
than the literal `\.Values`, and the template engine. What the API server, S3 and SQS answer is a
parameter or a step. Whatever ranges over a Go map picks an arbitrary key.

One remark on the code as it stands: the checks of the downloader and the profile
(`internal/reports/pipelines.go:40-46`) log "skipping policy" but do not skip it, so they do not appear in
the model.

## Model

| member | source | states |
|---|---|---|
| `IntakeSafety.StepKeeps` | internal/reports/sqs/listener.go:114-181 | Every step of the queue, the listener, the waiters, the scheduler, the HTTP handlers and the cluster keeps the protocol's invariant. |
| `IntakeSafety.Reachable` | internal/reports/sqs/listener.go:114-181 | The invariant holds in every state of every run. |
| `IntakeSafety.DeletesAreEarned` | internal/reports/sqs/listener.go:158-177 | A delete call is made only for an event that came from the delivery whose receipt is used, carries exactly the reports that parsing this delivery gave, and was processed without an error. |
| `IntakeSafety.NoMessageIsLost` | internal/reports/sqs/listener.go:139-179 | Every message ever sent is still on the queue, or it was deleted under the receipt of a delivery whose parsed reports were processed without an error. |
| `IntakeSafety.UnparsedDeliveriesGoNowhere` | internal/reports/sqs/listener.go:150-158 | A delivery whose parsing failed, wholly or for one record, leads to no event, so to no pipeline and no delete call. |
| `IntakeSafety.OnlySuccessesCreate` | internal/reports/scheduler.go:133-140 | Scheduler-made pipelines belong to events answered nil, and for each event exactly those of its one processing exist; failed tries and redeliveries add none of their own. |
| `IntakeSafety.ExactlyOneAnswer` | internal/reports/scheduler.go:133-140 | An event the scheduler has taken and left was sent exactly one value and closed; at most one taken event is unanswered. |
| `IntakeSafety.RepliesNeverBlock` | internal/reports/client.go:34-41 | When the scheduler holds an answer the channel is open and its slot is free; no send or close ever panics, whether or not anybody reads. |
| `IntakeSafety.AnswerCanBeSent` | internal/reports/scheduler.go:138-140 | So sending the answer is enabled in every reachable state in which one is held. |
| `IntakeSafety.WaitersSeeTheAnswer` | internal/reports/sqs/listener.go:159-167 | A waiter receives the scheduler's own answer, never the nil of a drained closed channel. |
| `IntakeSafety.CountersAreConserved` | internal/reports/sqs/listener.go:138-178 | Received equals successes plus failures plus what is in the batch, blocked in Enqueue, or awaiting a result; every success leads to one delete call, so deleted is at most successes. |
| `IntakeSafety.ReceivedIsDelivered` | internal/reports/sqs/listener.go:138 | The received counter is the number of deliveries. |
| `IntakeHistory.ClusterIsConserved` | internal/reports/scheduler.go:196-223 | Over every run, the pipelines in the cluster and those that vanished are those there at the start, those the scheduler made and those others brought, counted with multiplicity. |
| `IntakeHistory.ClusterIsWhatWasMade` | internal/reports/scheduler.go:196-223 | While nothing vanishes and nobody else creates pipelines, the cluster is what was there at the start followed by what the scheduler made, in order. |
| `IntakeHistory.ClusterIsAsSubmitted` | internal/reports/scheduler.go:201 | And while nothing happens to them, the made pipelines are there as submitted, not started. |
| `IntakeHistory.EventHasOrigin` | internal/reports/sqs/listener.go:150-158 | Every event was enqueued at some step: by an HTTP handler with exactly the posted reports, or with exactly what parsing the delivery under its receipt gave. |
| `IntakeHistory.OutcomeHasOrigin` | internal/reports/scheduler.go:133-140 | Every outcome was decided at one step that processed that event in the cluster as it then was, and is not changed afterwards. |
| `IntakeHistory.DeleteHasHistory` | internal/reports/sqs/listener.go:150-177 | Behind every delete call there are a step that parsed its delivery and a later step that processed exactly the parsed reports without an error. |
| `Parsers.ParsingIsAllOrNothing` | internal/reports/sqs/parsers.go:42-91 | Once the body can be read, the S3 parser succeeds exactly when every record could be fetched and decoded, and then each record's reports stand in their place. |
| `Parsers.BodyDecides` | internal/reports/sqs/parsers.go:27-52 | A raw message parses to the one decoded report; a body that cannot be read is an error for either parser. |
| `Parsers.RawReportParser` | internal/reports/sqs/parsers.go:27-34 | The decoded report and no error, or one report next to the error of the body. |
| `Parsers.S3EventReportParser` | internal/reports/sqs/parsers.go:42-91 | The loop goes on after a failure: it returns the readable reports in order, and an error exactly when the body or some record failed. |
| `Planning.PoliciesAreIndependent` | internal/reports/pipelines.go:36-125 | Planning distributes over concatenation of the policy list: no policy changes another's output. |
| `Planning.PlannedGroupsAreJustified` | internal/reports/pipelines.go:48-94 | A group stems from a listed policy that is Ready, compiles, matches and extracts, and keeps to the cap. |
| `Planning.OnlyABadReportRejects` | internal/reports/scheduler.go:176-188 | Planning fails exactly when some report has no string action ID. |
| `Planning.EventBound` | internal/reports/pipelines.go:86-94 | With a cap, an event plans at most reports x policies x cap pipelines. |
| `Requests.PlanIsWhatIsWanted` | internal/reports/pipelines.go:48-94 | A policy gets a group exactly if it is Ready, its spec compiles, its match condition evaluates to true, the report extracts and the values are within the cap; and with exactly these values. |
| `Requests.GroupsAreWanted` | internal/reports/pipelines.go:36-128 | The groups of a report are exactly those of the listed policies that want one. |
| `Requests.CreatedIsRequested` | internal/reports/scheduler.go:172-223 | A successful event creates exactly one pipeline per report, listed policy and extracted item that are due, in this order, but for those the API server rejects; each is its policy's template with that item's values. |
| `Requests.EventFailsExactlyWhen` | internal/reports/scheduler.go:155-182 | An event fails exactly if the active pipelines cannot be counted or reach the threshold, the policies cannot be listed, or a report has no string action ID; the first of these is the error. |
| `Requests.ActiveCountCounts` | internal/reports/pipelines.go:155-173 | The active count is the number of positions that hold a pipeline with the scheduler's label and value, started and not completed. |
| `PipelineObjects.DeepCopy` | internal/reports/pipelines.go:109 | The copy has the same elements in a new array of exactly their number. |
| `PipelineObjects.Append` | internal/reports/pipelines.go:111-112 | Append writes into the backing array when there is room and moves otherwise; the old slice reads as before. |
| `PipelineObjects.BuildPipeline` | internal/reports/pipelines.go:99-116 | A pipeline holds the template's instance for its values and refers to new objects only. |
| `PipelineObjects.SeparateMeansNothingShared` | internal/reports/pipelines.go:73-117 | No two generated pipelines have an object, a map or a backing array in common. |
| `PipelineObjects.DeliveredTogether` | internal/reports/scheduler.go:186-187 | Groups of two generations with disjoint footprints are, together, the planned groups of both, still intact and separate. |
| `Generation.BuildPipelines` | internal/reports/pipelines.go:96-117 | One pipeline per extracted value, in order, all intact at the end and sharing nothing. |
| `Generation.ValuesForPolicy` | internal/reports/pipelines.go:48-94 | With any valid cache, a policy is skipped exactly when the plan says so, and its values realise the plan. |
| `Generation.CreatePipelinesForReport` | internal/reports/pipelines.go:33-129 | Refinement: for any capacity, any valid cache contents and any use of the compiler by other goroutines before each lookup, exactly the planned groups in policy order, as new separate objects; the policies and their templates are unchanged. |
| `Processing.ProcessingIsAllOrNothing` | internal/reports/scheduler.go:151-226 | An error means nothing was created; a bad report means an error; success means the threshold was not reached and at most reports x policies x cap were created. |
| `Processing.CreatedIsCountable` | internal/reports/pipelines.go:98-116 | Every created pipeline carries the scheduler's label whatever the template says, lives in the namespace of a listed policy, has a target that policy extracted from a report, and counts as active exactly while started and not completed. |
| `Processing.CreatedIsTemplateThenExtracted` | internal/reports/pipelines.go:98-116 | In every created pipeline the template's parameters stand in front of one ordering of those extracted from a report; labels and annotations are the template's but for the scheduler's own label; name prefix, namespace, references and target are those of the policy and the report. |
| `Scheduler.Cluster.CountActive` | internal/reports/pipelines.go:155-173 | The number of pipelines with the scheduler's label that have started and not completed. |
| `Scheduler.Scheduler.CreateAll` | internal/reports/scheduler.go:196-223 | The cluster grows by the pipelines the API server accepts, in order; a rejected one stops nothing. |
| `Scheduler.Scheduler.Generate` | internal/reports/scheduler.go:172-188 | The first phase gives all planned groups of all reports, or nothing if one report is bad, and leaves the policies alone. |
| `Scheduler.Scheduler.ProcessReports` | internal/reports/scheduler.go:151-227 | The code satisfies the processing relation, and the cluster grows by exactly what that relation calls created. |
| `ActiveBound.StepWithinBound` | internal/reports/scheduler.go:155-165 | No step takes the open pipelines above both their number before it and the bound. |
| `ActiveBound.ActiveStaysBounded` | internal/reports/scheduler.go:155-165 | Over every run: active <= max(open at the start, threshold - 1 + reports x policies x cap), where what is open at the start is what is active if all of it has started. |
| `IntakeBound.IntakeKeepsBound` | internal/reports/scheduler.go:126-165 | The same bound for the cluster in every run of the intake protocol that keeps the limits, with every interleaving, retry and redelivery. |
| `Unbounded.NoBoundWithoutStarts` | internal/reports/pipelines.go:155-161 | Without the start assumption: if some event creates something in an empty cluster, then for every n a run from the empty cluster under the same limits ends with at least n active pipelines. |
| `Unbounded.SomeLimitsHaveNoBound` | internal/reports/pipelines.go:155-161 | There is such an event: under threshold 1, cap 1, one report and one policy no number bounds the active pipelines. |
| `Lru.AddedWellFormed` | internal/policy/compiler.go:44-74 | Insertion keeps keys and recency list consistent and within capacity. |
| `Lru.AddedEvictsOnlyTheOldest` | internal/policy/compiler.go:74 | Insertion loses at most one other entry, the least recently used one, and only when full. |
| `Lru.AddedIsInFront` | internal/policy/compiler.go:74 | After an insertion the key is bound to the value and the most recently used, with the others in their old order behind it. |
| `Lru.TouchedIsInFront` | internal/policy/compiler.go:59 | A hit moves its key to the front and changes no entry. |
| `Lru.WithoutKeepsOrder` | internal/policy/compiler.go:84 | Taking a key out leaves the others in their order. |
| `Lru.Cache.Get` | internal/policy/compiler.go:59 | A hit returns the entry and moves it to the front. |
| `Lru.Cache.Add` | internal/policy/compiler.go:74 | The table after an insertion, with the oldest entry gone if there is one too many. |
| `Lru.Cache.Remove` | internal/policy/compiler.go:84 | The key is gone and the rest keeps its order. |
| `Lru.Cache.Clear` | internal/policy/compiler.go:50 | Nothing is left. |
| `Compiler.CompilationIsExact` | internal/policy/compiler.go:88-129 | Compilation succeeds exactly when each given expression compiles, and then every field holds the program of its own expression; otherwise it names the first that does not; the generation only stamps the result. |
| `Compiler.ApplyKeepsTransparency` | internal/policy/compiler.go:49-86 | Every cache operation keeps the invariant, also with a Clear between lookup and insertion, and a lookup answers what compiling afresh answers. |
| `Compiler.LookupCaches` | internal/policy/compiler.go:54-76 | A lookup that compiles leaves the policy cached for the next one; one that fails leaves the entries, also the older generation's, in place. |
| `Compiler.CacheIsTransparent` | internal/policy/compiler.go:49-86 | The same over every sequence of lookups, removals and clears, with evictions, failed compiles and generations out of order. |
| `Compiler.Compiler.Get` | internal/policy/compiler.go:54-76 | Returns what compiling afresh returns and leaves the cache as the specification says. |
| `Compiler.Compiler.Remove` | internal/policy/compiler.go:79-86 | Drops the entry under the policy's UID. |
| `Compiler.Compiler.Clear` | internal/policy/compiler.go:49-51 | Empties the cache. |
| `Compiler.Compiler.OthersUse` | internal/policy/compiler.go:49-86 | Any sequence of lookups, removals and clears by others leaves what the run of the specification leaves. |
| `Compiler.Compiler.Compile` | internal/policy/compiler.go:88-129 | Filling the fields one by one gives the specified result or the first error. |
| `Extraction.ItemsAllOrNothing` | internal/policy/policy.go:72-98 | The values exist exactly if every item succeeds, one per item; a failure is the failure of an item. |
| `Extraction.ExtractionIsAllOrNothingAndPositional` | internal/policy/policy.go:53-99 | Without forEach one value in all; with it one per item, the i-th decided by the report and item i alone. |
| `Extraction.PlanIsEvaluated` | internal/policy/policy.go:53-178 | The plan is what the engine answers: items are those of the evaluated list, target, downloader parameters and profile parameters of each item are those of the expression of that name, and a plan exists exactly if all of these evaluate to the right kind of value. |
| `Extraction.ListsArePermutations` | internal/policy/policy.go:140-145 | Two parameter lists from one map are permutations of each other, with distinct names. |
| `Extraction.EvalForEach` | internal/policy/policy.go:101-121 | The items of a list of either representation, or an error. |
| `Extraction.EvalParameters` | internal/policy/policy.go:123-147 | Every binding of the map once, in some order. |
| `Extraction.Extract` | internal/policy/policy.go:53-99 | Succeeds exactly if every given expression evaluates to the right kind of value, with the error of the first failing item otherwise; the i-th result has the target and some ordering of the parameters that these expressions give for item i. |
| `Api.SetThenFind` | internal/controller/chalkreportpolicy_controller.go:82-97 | A set condition is what is found later, no other kind changes, and it is a change exactly if the same was not there. |
| `Reconciler.EachWriteCountsDown` | internal/controller/chalkreportpolicy_controller.go:75-105 | The distance to settled is at most two, a pass asks for a write exactly while it is positive, and a granted write lowers it by one. |
| `Reconciler.PassAsksForOneThing` | internal/controller/chalkreportpolicy_controller.go:66-103 | A pass asks for the removal of the cache finalizer of a deleted object, for its addition, or for a Ready condition that reports success or the first failing expression of this generation; other finalizers and conditions stay. |
| `Reconciler.PassLeavesInTheCache` | internal/controller/chalkreportpolicy_controller.go:66-81 | It drops a deleted policy's entry and no other, leaves the cache alone when it adds the finalizer, and otherwise caches what compiles. |
| `Reconciler.PolicyReconciler.Reconcile` | internal/controller/chalkreportpolicy_controller.go:55-106 | The write a pass ends with, and what it leaves in the compiler's cache, for found, missing and deleted objects. |
| `PolicyLifecycle.StepKeeps` | internal/controller/chalkreportpolicy_controller.go:55-106 | Edits, deletion, passes over stale versions, refused writes and the scheduler's lookups all keep the invariant. |
| `PolicyLifecycle.ReadyIsTruthful` | internal/controller/chalkreportpolicy_controller.go:80-103 | In every version of every reachable state Ready is True exactly if the spec of the generation it observes compiles; so a lookup for a version with a current True condition cannot fail. |
| `PolicyLifecycle.WritesAreBounded` | internal/controller/chalkreportpolicy_controller.go:75-105 | After the last edit at most two writes succeed, in every interleaving, each lowering the distance. |
| `PolicyLifecycle.FreshPassMakesProgress` | internal/controller/chalkreportpolicy_controller.go:75-105 | A pass over the newest version and its write do lower the distance while it is positive, and write nothing once it is zero. |
| `PolicyLifecycle.NeverAddedAgain` | internal/controller/chalkreportpolicy_controller.go:66-78 | Once deletion has begun the cache finalizer is never added again. |
| `PolicyLifecycle.RemovedOnlyAfterPurge` | internal/controller/chalkreportpolicy_controller.go:66-73 | The finalizer goes only with the write of a pass that saw the deletion and had already removed the cache entry of that UID. |
| `PolicyLifecycle.OthersAreLeftAlone` | internal/controller/chalkreportpolicy_controller.go:66-103 | Over every run, no step but an edit by others adds or drops another finalizer or changes another condition; an object with another finalizer stays; and only a spec edit or the deletion changes anything else. |
| `Text.NothingResidual` | hack/kubebuilder-helm-patch/patch.go:106-109 | After the rewriting no occurrence is left, not even one formed by it. |
| `Text.RewriteReplacesExactlyTheOccurrences` | hack/kubebuilder-helm-patch/patch.go:106-109 | The text between the occurrences is kept, in order; only the occurrences are exchanged. |
| `Text.ChangesExactlyWhenPresent` | hack/kubebuilder-helm-patch/patch.go:281-286 | A rewriting changes the text exactly when there is an occurrence, which is when the replacement does not fail. |
| `Text.RoundTrip` | hack/kubebuilder-helm-patch/patch.go:106-109 | Rewriting back restores the text exactly if the new word did not occur in it before. |
| `HelmPatch.ReplaceInOrder` | hack/kubebuilder-helm-patch/patch.go:295-301 | The replacements of a file in order; the first that does not match decides. |
| `HelmPatch.ReplacingIsAChain` | hack/kubebuilder-helm-patch/patch.go:281-302 | The replacements succeed exactly if each matches what the ones before it made, and the result is the end of that chain of texts. |
| `HelmPatch.FailingIsGettingStuck` | hack/kubebuilder-helm-patch/patch.go:281-286 | They fail exactly at a replacement that does not match what the ones before it made. |
| `HelmPatch.PatchedIsAChain` | hack/kubebuilder-helm-patch/patch.go:288-330 | A file is patched to a text exactly if it is in the request and that text is prefix, end of the chain from the request's contents, suffix. |
| `HelmPatch.PluginResponse.ApplyReplacements` | hack/kubebuilder-helm-patch/patch.go:288-305 | In whatever order: succeeds if every file can be done, then has written all of them and nothing else; an error is that of some file. |
| `HelmPatch.PluginResponse.ApplyPaddings` | hack/kubebuilder-helm-patch/patch.go:318-330 | The same for the second pass, which reads what the first one left. |
| `HelmPatch.PaddingCompletesTheFile` | hack/kubebuilder-helm-patch/patch.go:332-345 | What the second pass makes of a file is its padding around the body of the first pass, or around the request's contents. |
| `HelmPatch.PatchHelmChart` | hack/kubebuilder-helm-patch/patch.go:226-260 | Succeeds exactly if every file of the tables has such a patch and the chart template works; then the response holds every patched file, the chart file and nothing else. |
| `HelmPatch.LayeredIsUnique` | hack/kubebuilder-helm-patch/patch.go:288-330 | Those contents fix the response, so any two iteration orders end with the same one. |
| `HelmPatch.ShippedFileIsPrefixAndBody` | hack/kubebuilder-helm-patch/patch.go:40-221 | A file of the shipped tables is patched exactly if it is there, its replacements match and `.Values` is left to rewrite; the result is the prefix and the rewritten body. |
| `HelmPatch.ValuesOccursExactlyOnce` | hack/kubebuilder-helm-patch/patch.go:185-192 | In a patched file `.Values` occurs exactly once, at its place in the prefix. |
| `HelmPatch.PaddingFirstWouldLoseTheDefinition` | hack/kubebuilder-helm-patch/patch.go:232-238 | With the passes exchanged the prefix would be rewritten as well. |

## Left out

- Threads as code: `Scheduler.Start`, `Listener.Start` and `Enqueue` are steps on values in `Intake`, because their property is about interleavings. A counter increment is merged with the step next to it; a failed or empty receive changes nothing and is no step.
- Inside one `processReports`: it is one step of the protocol. A pipeline that starts, completes or vanishes between the count and the last creation is taken to do so before or after.
- Progress after shutdown: `Enqueue` ignores its context, so a sender can stay blocked once the scheduler has returned. Only safety is stated there.
- SQS retention: a message leaves the queue only by a delete call.
- Stale reads by the scheduler: lists of the API server are taken as exact when they succeed, for the active count too.
- Downloader and profile lookups: they only log.
- Created-pipelines metric, event texts and the durations: no property is stated about them.
- Which S3 failures an error lists: only that there is an error.
- Other fields of the pipeline specification: their deep copy is a library's. Nil and empty maps or slices are not told apart, and slices start at the front of their array.
- "No cache entry for deleted policies" is not an invariant: the scheduler can look a policy up again after the removal.
- Environment of the life cycle: other writers leave the cache finalizer and the Ready condition alone, no finalizer is added to an object being deleted, a pair of UID and generation is never used for two specs, and CEL's error texts are deterministic. `LastTransitionTime` is not part of a condition.
- The type check of a cache hit (`internal/policy/compiler.go:60-63`): only compiled policies are ever inserted.
- The LRU library is modelled from its interface; its source is not part of this model.
- The response of a failed patch: it depends on the iteration order, and only its error is described. File paths are joined as output directory plus clean relative path.
- Regular expressions other than `\.Values`, CEL semantics, JSON, and template execution are arbitrary functions.
- HTTP server, authentication, webhook, downloaders, command line and AWS helpers: plumbing around libraries.
