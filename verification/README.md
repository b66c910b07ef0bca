# Verification of the AX task control plane

AX runs tasks as actors on Substrate. An API server saves task records in a store, a
controller worker consumes task events and reconciles each record with its actor, a runner
prepares workspaces inside the container, and a model client speaks two wire formats. This
project models those parts in Dafny and proves what they promise.

| module | what it models |
|---|---|
| `Api` | records, statuses, conditions, events and outcomes shared by the others |
| `Basics` | arithmetic and sequence helpers |
| `Keys`, `SortedSet` | the Redis key families and sorted sets |
| `RedisStore`, `Interleaving`, `Listing`, `SaveOrder` | the Redis store as an object, as a machine of round trips, its paged listings, and their order by last save |
| `EventStream` | the event stream, its consumer group, and subscriptions that crash or lose replies |
| `MemoryStore` | the in-memory store: bounded event channel, watcher lists, watch channels |
| `Reconciler` | one reconcile: conditions and phase on every return path |
| `WorkerLoop`, `Handlers` | the worker loop and the API server's task handlers over the store object |
| `ControlPlane`, `Convergence`, `RedisConvergence` | clients, workers and Substrate as transition systems: safety with one worker, and convergence when quiet over either store |
| `Provider`, `Bootstrap` | the conversation compilers and the bounded tool loop |
| `YamlNodes` | the JSON token reader that builds YAML trees |
| `Paths`, `Validation`, `Setup` | cleaning paths; workspace bindings and their check; the maiden run and its marker |
| `Templates`, `Egress` | actor template names and cleanup; the egress allowlist compiler |

Code that changes state is a class whose methods are proved against functions of the old
state; the laws are proved about those functions. Where calls of several processes
interleave, each round trip is one labelled step of a machine and the laws range over all
runs. What the code cannot decide (clocks, failures, provider replies, file system and
Substrate answers) is a parameter. A remote write that fails may still have landed
(`Api.Outcome`). Records are kept by (atespace, name) rather than by rendered key, which
`Keys.RenderIsInjective` justifies. A character stands for a byte.

Where a promise turned out not to hold everywhere, the exact condition is proved:

- A status write and a delete mark put back the spec they read, so a save that lands between
  their round trips survives exactly if it left that spec: `Interleaving.SaveBetweenSurvivesIff`.
  A suspend is lost so in a failure-free run with one worker
  (`ControlPlane.RedisCanLoseASuspend`); in the quiet system a task is as its last save asked
  exactly if that save did not flip the flag in between (`RedisConvergence.QuietIsAsWantedIff`).
- A task saved before the worker's group was created, with no event since, is left as it was:
  `RedisConvergence.OthersAreLeftAlone`.
- A record loses its index entries exactly when a late write brings it back:
  `Interleaving.OrphansComeFromLateWrites`, with such a run in `Interleaving.LateMarkLeavesAnOrphan`.
- `UpdateTaskStatus` reads under the defaulted atespace and writes under the raw one:
  `Interleaving.StatusWriteIsFiledRightIffAtespaceGiven`.
- `offset + limit - 1` wraps at 64 bits, and the listing comes back empty:
  `Listing.ListingIsAPageIffBoundHolds`, with an instance in `Listing.WrapHidesATask`.
- The stream's documentation says unacknowledged events are redelivered
  (`internal/store/store.go:37-39`); reads only ask for new events, so they never are:
  `EventStream.EventsStrandOnlyThatWay`, `EventStream.StrandedForever`, and a run that strands
  one in `EventStream.CrashStrandsAnEvent`.
- The design speaks of scaling controllers out. With any number of workers, no actor outlives
  its task in a run exactly when no move creates an actor whose record is gone or erases a
  record whose actor is live: `ControlPlane.RunsLeakExactlyBySuchMoves`. One worker never makes
  such a move (`ControlPlane.OneWorkerMakesNoLeak`); two can
  (`ControlPlane.TwoWorkersCanLeakAnActor`).
- A failed task can keep Ready True after a model configuration error:
  `Reconciler.StoredReadyIsSoundIff`, reached in two events by `WorkerLoop.ModelErrorLeavesFailedTaskReady`.
- An update replaces the status and can drop WorkspaceReady: `Reconciler.WorkspaceReadyStaysIff`.
- Tool results pair with tool calls exactly when the provider names every call:
  `Bootstrap.EveryRequestAlternatesAndPairs`.
- The two wire formats agree exactly when no tool message has calls of its own:
  `Provider.FormatsAgreeIff`.
- Bound paths that clean alike, or differ only in dashes for slashes, share a marker, and
  validation lets both be bound; the second workspace is then never set up:
  `Setup.KeptOutIff`, `Setup.SoundTaskCanBindADash`, `Setup.SoundTaskCanBindADot`.
- The text digested for a template name runs the image into the first entry
  (`Templates.TextRunsImageIntoEntries`); between real launches the task document tells them
  apart: `Templates.LaunchesDigestedAlikeIff`.
- `break` inside the `select` of template deletion leaves the `select` and not the loop, so a
  done context does not stop the attempts: `Templates.DeleteTemplate`.

## Model

| member | source | states |
|---|---|---|
| Keys.MemberIdOfJoin | internal/store/redis/store.go:209-268 | `SplitN` on an index member gives back the atespace and name that were joined, for colon-free atespaces |
| Keys.ParseUndoesRender | internal/store/redis/store.go:81-131 | every well-named key of every family can be read back from its rendering |
| Keys.RenderIsInjective | internal/store/redis/store.go:81-131 | keys are equal exactly when their renderings are: injective in each family, and the families are disjoint |
| Keys.ColonsMakeKeysCollide | internal/store/redis/store.go:81-83 | without the colon-free condition two tasks share one record |
| SortedSet.NewestFirstIsListing | internal/store/redis/store.go:209-268 | the index listing holds every member once, in descending (score, member) order |
| SortedSet.NewestFirstIsUnique | internal/store/redis/store.go:209-268 | only one sequence is such a listing |
| RedisStore.Store.SaveTask | internal/store/redis/store.go:134-186 | refuses a nameless task; otherwise fills the atespace "default" and the phase Pending where empty and, if the transaction lands, sets the record, both index scores to the save time and one event, and nothing else |
| RedisStore.Store.GetTask | internal/store/redis/store.go:189-206 | the record under the defaulted atespace, NotFound exactly when there is none |
| RedisStore.Store.UpdateTaskStatus | internal/store/redis/store.go:271-292 | rewrites the record read, with the new status, under the atespace as given; no index or stream change; NotFound when there is no record, another error when the store cannot be read |
| RedisStore.Store.MarkTaskDeleting | internal/store/redis/store.go:295-327 | sets Terminating on the record read and publishes a delete event, in one transaction; NotFound told apart from other errors |
| RedisStore.Store.DeleteTask | internal/store/redis/store.go:330-344 | removes record and both index entries in one transaction |
| RedisStore.Store.ListTasks | internal/store/redis/store.go:209-268 | the records of the index range, missing ones skipped, in index order; an error exactly when the index read fails, or the batch read of a page that has members |
| Interleaving.RunsStaySound | internal/store/redis/store.go:134-344 | in every interleaving of split calls: both indexes hold the same tasks with the same scores, indexed tasks have records, records name their own keys |
| Interleaving.StepKeepsSound | internal/store/redis/store.go:134-344 | each round trip keeps that invariant, whether or not it lands |
| Interleaving.OnlyRemoveTakesRecords | internal/store/redis/store.go:330-344 | a record disappears only through a landed DeleteTask for it |
| Interleaving.OrphansComeFromLateWrites | internal/store/redis/store.go:271-327 | a step makes a record without index entries exactly when it is a write for a record removed since it was read |
| Interleaving.SerialRunsStayExact | internal/store/redis/store.go:134-344 | when calls do not overlap, records and index members are the same tasks |
| Interleaving.EmptyStoreIsSoundAndExact | internal/store/redis/store.go:62-79 | a new store satisfies both invariants |
| Interleaving.SaveBetweenSurvivesIff | internal/store/redis/store.go:271-327 | over any run of others between the read and the write of a status write or delete mark, the stored spec is afterwards the one read; a save in between survives exactly if it left it |
| Interleaving.LateMarkLeavesAnOrphan | internal/store/redis/store.go:295-344 | a run from the empty store whose last write leaves a record without index entries |
| Interleaving.StatusWriteIsFiledRightIffAtespaceGiven | internal/store/redis/store.go:271-292 | the record written stays under its own name exactly when the atespace passed is not empty |
| Listing.SameOrderInBothIndexes | internal/store/redis/store.go:209-268 | both indexes order two tasks of one atespace alike, ties included |
| Listing.AtespaceListingIsFilteredListing | internal/store/redis/store.go:209-268 | an atespace listing is the all-atespaces listing filtered to it |
| Listing.ListingIsAPageIffBoundHolds | internal/server/server.go:91-109 | a request returns its slice of the whole listing exactly when the 64-bit bound on offset and limit holds |
| Listing.WrapHidesATask | internal/store/redis/store.go:209-214 | three saved tasks, offset 2 and the largest limit: the listing is empty though one task is left |
| Listing.DefaultsOfARequest | internal/server/server.go:91-109 | no limit means fifty tasks, a negative offset the start |
| Listing.PagesJoinUp | internal/store/redis/store.go:209-268 | pages at 0, L, 2L, … join up to the whole listing, no gap and no repeat |
| SaveOrder.SavedTaskComesFirst | internal/store/redis/store.go:162-175 | a save later than all others puts its task, as saved, at the head of the listing; the others keep order and records |
| SaveOrder.SavedTaskComesFirstInItsAtespace | internal/store/redis/store.go:162-175 | the same in its atespace's listing; every other atespace's is unchanged |
| SaveOrder.ListingIsByLastSave | internal/store/redis/store.go:208-268 | after any saves at increasing times, the listing is every task as last saved, the one saved last first |
| EventStream.StepConserves | internal/store/redis/store.go:767-795 | every read, acknowledgement, publish and crash keeps each event in exactly one of undelivered, pending for one consumer and acknowledged, and acknowledged only after processing |
| EventStream.StepKeepsReturned | internal/store/redis/store.go:749-765 | every step keeps that no event was handed out twice and that each consumer got its events in stream order |
| EventStream.Subscription.Next | internal/store/redis/store.go:749-789 | hands out the local batch in order and reads only when it is empty; a failed read is an error and loses its batch if it was delivered; a done context is an error |
| EventStream.NewGroupIsGood | internal/store/redis/store.go:731-740 | a new group starts with every event published later undelivered |
| EventStream.RunsStayGood | internal/store/redis/store.go:731-797 | over all consumers, batches, failed acks and crashes: conservation, no event returned twice, stream order per consumer, acknowledged only after processing |
| EventStream.EveryEventIsInOnePlace | internal/store/redis/store.go:731-797 | each event is in exactly one of undelivered, held by one live consumer, stranded, acknowledged |
| EventStream.EventsStrandOnlyThatWay | internal/store/redis/store.go:767-795 | an event becomes stranded exactly by a crash of its holder, a lost read reply or a failed ack |
| EventStream.CrashStrandsAnEvent | internal/store/redis/store.go:749-797 | join, publish, read and crash: a run after which the event is stranded |
| EventStream.StrandedForever | internal/store/redis/store.go:767-789 | a stranded event is never handed out again and never acknowledged |
| MemoryStore.Store.SaveTask | internal/store/memory/store.go:71-118 | record with the same defaults, event (dropped when the channel is full) and the version sent to every open watcher of the key that has room |
| MemoryStore.Store.UpdateTaskStatus | internal/store/memory/store.go:155-177 | status replaced and watchers offered the new version; no event |
| MemoryStore.Store.MarkTaskDeleting | internal/store/memory/store.go:179-213 | Terminating, a delete event, and an offer to watchers |
| MemoryStore.Store.DeleteTask | internal/store/memory/store.go:215-220 | the record goes; watchers and events stay |
| MemoryStore.Store.WatchTask | internal/store/memory/store.go:396-419 | a new open channel, empty, at the end of the key's watcher list; nothing is sent |
| MemoryStore.Store.CloseWatch | internal/store/memory/store.go:396-419 | closes the channel and unlists it; a second close does nothing |
| MemoryStore.Store.Notify | internal/store/memory/store.go:71-118 | every listed channel is offered the version once, dropped when its buffer is full |
| MemoryStore.RunsStayGood | internal/store/memory/store.go:396-419 | in every run the watcher list is the open channels, once each, in opening order, and each watcher's receipts are an in-order subsequence of the versions written |
| MemoryStore.WritesReachExactlyTheOpenChannels | internal/store/memory/store.go:71-118 | no write sends to a closed channel, and every open channel of the key is offered it exactly once |
| MemoryStore.WriteIsDelivered | internal/store/memory/store.go:101-109 | an open channel of the key with fewer than ten buffered versions holds the written one last; every other channel is unchanged |
| MemoryStore.WatcherMissesNothingIff | internal/store/memory/store.go:396-419 | over any run, an open watcher has every version written since it began, in order, exactly if no write to its key found its channel full |
| MemoryStore.NewWatcherMissesNothing | internal/store/memory/store.go:396-403 | a watcher begins so |
| MemoryStore.CloseTwiceIsCloseOnce | internal/store/memory/store.go:396-419 | closing is idempotent |
| Reconciler.TaskCell.ConditionTrue | internal/controller/reconciler.go:355-363 | whether the first condition of the kind is True |
| Reconciler.TaskCell.SetCondition | internal/controller/reconciler.go:367-385 | replaces the condition of the kind or appends it |
| Reconciler.TaskCell.Reconcile | internal/controller/reconciler.go:105-336 | the task every return path leaves, and whether it is an error |
| Reconciler.TaskCell.Resume | internal/controller/reconciler.go:233-336 | phase, worker address and both conditions after a resume, with setup skipped once WorkspaceReady |
| Reconciler.TaskCell.Suspend | internal/controller/reconciler.go:224-236 | phase Suspended with Ready False, or Failed |
| Reconciler.WithSetsOneKind | internal/controller/reconciler.go:367-385 | setting a condition changes that kind only, and keeps one condition per kind |
| Reconciler.ReconcileKeepsConditions | internal/controller/reconciler.go:105-336 | every path keeps one condition per kind and WorkspaceReady True; every path but the model error leaves Ready sound |
| Reconciler.ReconcilesStaySound | internal/controller/reconciler.go:105-336 | over any sequence of reconciles, Ready True implies Running and WorkspaceReady True |
| Reconciler.StoredReadyIsSoundIff | internal/controller/worker.go:163-176 | the status the worker stores is sound exactly unless the model configuration fails on a task that was Ready |
| Reconciler.WorkspaceReadyIff | internal/controller/reconciler.go:254-322 | WorkspaceReady is True exactly if it was, or the task now runs on a worker with an address and some readiness probe answered |
| Reconciler.ReadyIff | internal/controller/reconciler.go:105-322 | Ready is True exactly if nothing failed, the task is not suspended and its workspace is ready; only a model error leaves it as it was |
| Reconciler.ReadySaysWhy | internal/controller/reconciler.go:105-322 | the Ready condition of every outcome, with reason, message and time |
| Reconciler.GatewayReadyIff | internal/controller/reconciler.go:206-222 | GatewayReady tells whether the egress policy was applied, once that step is reached |
| Reconciler.StoredFieldsAre | internal/controller/worker.go:163-176 | phase, actor, id and worker address of the stored status, for every outcome |
| Reconciler.WorkspaceReadyStaysIff | internal/controller/reconciler.go:240-336 | over reconciles, suspends, resumes, delete marks and updates that do not overlap, WorkspaceReady stays True throughout exactly when every update carries it |
| Reconciler.WorkspaceReadyIsSticky | internal/controller/reconciler.go:240-336 | without updates it survives everything, and no condition is ever duplicated |
| Reconciler.SuccessReachesDesiredPhase | internal/controller/reconciler.go:105-336 | with no failing call the phase is the one the suspend flag asks for |
| WorkerLoop.Worker.ProcessEvent | internal/controller/worker.go:108-176 | the store afterwards, for every event and every outcome, and exactly when no error is reported |
| WorkerLoop.Worker.Run | internal/controller/worker.go:68-106 | with events arriving and reads failing meanwhile: events are processed in stream order, once each; one is acknowledged exactly if it was handed out and its acknowledgement landed, whatever processing returned, and every other event taken stays pending; when reads go well none is skipped, and the loop stops early only at the end of the stream |
| WorkerLoop.EventAloneIsARun | internal/controller/worker.go:108-176 | undisturbed processing is a run of the interleaved store's own steps |
| WorkerLoop.EventsKeepTheStoreConsistent | internal/controller/worker.go:68-106 | any number of processed events keeps indexes and records consistent |
| WorkerLoop.EventSettlesItsTask | internal/controller/worker.go:121-176 | a reconcile event without failures puts its task in the desired phase and changes no other record, index or event |
| WorkerLoop.ModelErrorLeavesFailedTaskReady | internal/controller/worker.go:163-168 | for any running task, two events after which it is stored as Failed with Ready True |
| Handlers.Server.UpdateTask | internal/server/server.go:111-130 | refuses exactly the tasks that do not validate; otherwise saves with defaults, and answers Accepted exactly when the save went through |
| Handlers.Server.Switch | internal/server/server.go:151-199 | SuspendTask and ResumeTask: the record read, with the flag set, saved back; Missing exactly when there is no record |
| Handlers.Server.DeleteTask | internal/server/server.go:132-149 | only marks the record and publishes; acknowledged exactly when that was confirmed, Missing exactly when there is no record |
| Handlers.ResumeUndoesSuspend | internal/server/server.go:151-199 | suspending and then resuming a running task loses nothing of its record; only score and two events remain |
| Handlers.SwitchReachesItsPhase | internal/server/server.go:151-199 | the event a suspend or resume publishes brings the task to the requested phase and keeps WorkspaceReady |
| Handlers.DeleteLeavesNothing | internal/server/server.go:132-149 | a delete request and its event remove record and index entries and keep the rest consistent |
| ControlPlane.ActorsLeakOnlyThatWay | internal/substrate/client.go:308-367 | with any number of workers, a move leaks an actor exactly if it creates one whose record is gone or erases the record of a live one |
| ControlPlane.RunsLeakExactlyBySuchMoves | internal/controller/worker.go:108-176 | no actor leaks throughout a run exactly when no move of it is such a move |
| ControlPlane.OneWorkerMakesNoLeak | deploy/ax-controller.yaml:57 | with one worker at a time no move is such a move, so no actor ever leaks |
| ControlPlane.EmptyPlaneIsSafe | internal/controller/worker.go:49-66 | the empty control plane is safe, so the one-worker theorem applies from it |
| ControlPlane.OneWorkerLeaksNoActor | internal/controller/worker.go:108-176 | with one worker at a time, over any interleaving, failures and restarts, an actor not being deleted has its task record |
| ControlPlane.StepKeepsSafe | internal/controller/worker.go:108-176 | each step keeps that safety and the store's invariants |
| ControlPlane.RecordsVanishOnlyByErase | internal/controller/worker.go:109-119 | a record vanishes only when a worker erases the task whose actor it just deleted |
| ControlPlane.PlaneRunsAreStoreRuns | internal/controller/worker.go:108-176 | every control-plane run is, at the store, an interleaved store run |
| ControlPlane.TwoWorkersCanLeakAnActor | deploy/ax-controller.yaml:57 | for any task there is a two-worker run after which its actor is live and its record gone |
| ControlPlane.RedisCanLoseASuspend | internal/store/redis/store.go:271-292 | for any running task and outcome there is a run with one worker throughout and no failing move that ends in the worker's read, a saved suspend and the worker's write of the reconciled status, after which the task is not suspended |
| Convergence.QuietMeansConverged | internal/store/memory/store.go:71-213 | with atomic calls, one worker, no failures and no dropped event, when nothing is in flight every phase and actor matches its spec |
| RedisConvergence.StepKeepsGood | internal/store/redis/store.go:134-344 | over the Redis store, with the status write in two round trips and clients failing at will, each step keeps every record settled, awaited by an event or in the worker's hands |
| RedisConvergence.QuietMeansConverged | internal/controller/worker.go:108-176 | from any store the group may be created over: when every event is processed, every task with an event since then has phase and actor as its stored spec asks, whatever saves were lost |
| RedisConvergence.QuietFromEmptyMeansAllConverged | internal/controller/worker.go:108-176 | from an empty store that is every task, and there is no other actor |
| RedisConvergence.OthersAreLeftAlone | internal/store/redis/store.go:728-740 | a task without an event since the group was created keeps its record and its actor exactly |
| RedisConvergence.QuietIsAsWantedIff | internal/store/redis/store.go:271-292 | a task that is there is then as its last save asked exactly if that save did not land, with another suspend flag, between the halves of a status write for it |
| RedisConvergence.QuietMeansAsWanted | internal/store/redis/store.go:271-292 | so if no save does, every such task is as last asked |
| RedisConvergence.WorkerReachesQuiet | internal/controller/worker.go:68-176 | from any state of a run the worker alone reaches quiet in finitely many moves, and the tasks converge |
| Convergence.StepKeepsGood | internal/store/memory/store.go:71-213 | every record is settled, or has an event coming, or is in the worker's hands with the right outcome |
| Convergence.RunsStayGood | internal/controller/worker.go:68-176 | the same over every run |
| Provider.RequestMessages | internal/model/provider.go:261-289 | the instruction joins the first system message or goes first; a bare prompt becomes a conversation |
| Provider.ConversationIsKept | internal/model/provider.go:261-289 | what is sent is the caller's conversation in order, or the prompt when there is none |
| Provider.InstructionIsJoined | internal/model/provider.go:261-289 | its system messages are the caller's in order, the instruction joined to the first or standing alone |
| Provider.MessagesKeepTheirPlaces | internal/model/provider.go:261-281 | no other message changes or moves |
| Provider.BothFormatsCarryTheRequest | internal/model/provider.go:291-399 | decoding either format gives back what the caller asked, up to what that format erases |
| Provider.BareConversationsComeBack | internal/model/provider.go:291-399 | messages with no field that means nothing for their role come back from both formats unchanged |
| Provider.ArgumentsInBothFormats | internal/model/provider.go:300-317 | each call keeps id, name and arguments; empty arguments go out as an empty object |
| Provider.OpenAIFieldsAre | internal/model/provider.go:294-321 | content is absent only beside tool calls, a call ID present exactly on tool messages, calls present exactly when there are some |
| Provider.SystemTextIsSpaced | internal/model/provider.go:350-355 | the Anthropic system text is every system message's text in order, a blank line between each two, none before the first |
| Provider.OpenAIMessages | internal/model/provider.go:291-323 | the loop computes the OpenAI encoding of those messages |
| Provider.AnthropicMessages | internal/model/provider.go:344-399 | the nested loops compute the Anthropic system text and turns, and terminate |
| Provider.AnthropicRoundTrip | internal/model/provider.go:344-399 | decoding gives back all non-system messages in order, up to empty arguments and irrelevant fields, though tool runs are merged |
| Provider.OpenAIRoundTrip | internal/model/provider.go:291-323 | decoding the OpenAI encoding gives back every message in order |
| Provider.FormatsAgreeIff | internal/model/provider.go:291-399 | same system text always; same conversation exactly when no tool message carries calls |
| Provider.InstructionComesFirst | internal/model/provider.go:261-289 | the Anthropic system text starts with the request's instruction |
| Provider.FallbackChangesNothing | internal/model/provider.go:344-399 | the last fallback for an empty system text never changes it |
| Bootstrap.LimitedOutput.Write | internal/workspace/model_bootstrap.go:197-212 | every write is taken in full; what is kept is the first `limit` bytes of all writes, flagged exactly when there were more |
| Bootstrap.LimitedOutput.String | internal/workspace/model_bootstrap.go:214-223 | the kept bytes, with the note exactly when truncated |
| Bootstrap.ExecuteWorkspaceCommand | internal/workspace/model_bootstrap.go:158-188 | the result of every shape of call, and how much command output it keeps |
| Bootstrap.ResultSays | internal/workspace/model_bootstrap.go:158-188 | the complaint of a call that does not run; else the failure line if it failed, the output up to the limit, and the note exactly if there was more |
| Bootstrap.FittingOutputIsWhole | internal/workspace/model_bootstrap.go:138-146 | output that fits 32 KiB and what is left of 128 KiB comes back whole |
| Bootstrap.RunModelBootstrap | internal/workspace/model_bootstrap.go:100-156 | request k carries the first k rounds, and rounds the replies and results in order; the counters are the number and bytes of the tool messages; it ends only by success, refusal, empty reply, spent budget or the 24th turn; success exactly when the last reply is non-blank text without calls |
| Bootstrap.ExecutedCallsAreWithinBudget | internal/workspace/model_bootstrap.go:124-146 | the calls executed number at most 48, their results are the bytes of all tool messages, and the command output kept of them is at most 131072 bytes |
| Bootstrap.ResultsAreTheCommands | internal/workspace/model_bootstrap.go:134-150 | each result of a round is what its command gave, at the limit that the results before it left |
| Bootstrap.EveryRequestAlternatesAndPairs | internal/workspace/model_bootstrap.go:102-152 | every request of a run alternates, and pairs tool uses with results exactly when every reply before it named its calls |
| Bootstrap.RequestsAlternate | internal/workspace/model_bootstrap.go:102-152 | every request, Anthropic-encoded, strictly alternates user and assistant and ends with the user |
| Bootstrap.RequestsArePairedIffCallsAreNamed | internal/workspace/model_bootstrap.go:131-133 | each turn's tool_use IDs are the next turn's tool_result IDs, in order, exactly when every call came with an ID |
| Bootstrap.GrownEncodes | internal/model/provider.go:344-399 | encoding commutes with growing the conversation: the opening's turns, then two turns per round |
| YamlNodes.Decoder.ReadJSONValue | pkg/apis/v1alpha1/types.go:98-156 | the node and the tokens left, or an error, for every token stream |
| YamlNodes.Decoder.ReadMapping | pkg/apis/v1alpha1/types.go:107-123 | the loop over an object's members |
| YamlNodes.Decoder.ReadSequence | pkg/apis/v1alpha1/types.go:124-134 | the loop over an array's elements |
| YamlNodes.ReaderUndoesPrinter | pkg/apis/v1alpha1/types.go:98-156 | on a value's tokens and any suffix, exactly the value's tokens are consumed and its tree is built |
| YamlNodes.TreeReadsBack | pkg/apis/v1alpha1/types.go:136-153 | the tree's tags and order give back the same value |
| YamlNodes.ScalarsAreTagged | pkg/apis/v1alpha1/types.go:136-153 | timestamp or string by the time format, float exactly with a point or exponent, else integer; truth values and null |
| YamlNodes.PairsKeepOrder | pkg/apis/v1alpha1/types.go:107-121 | mapping contents are string-tagged key and value pairs in key order |
| YamlNodes.OnlyValuesAreBuilt | pkg/apis/v1alpha1/types.go:98-156 | every tree built is the tree of a value, and the tokens taken pass for that value's |
| YamlNodes.StartsWithDocumentIff | pkg/apis/v1alpha1/types.go:98-156 | a stream starts with a document exactly when the tree built prints as what was taken |
| YamlNodes.DocumentsSplitOneWay | pkg/apis/v1alpha1/types.go:98-156 | token sequences are self-delimiting |
| Validation.WorkspaceRefs | pkg/apis/v1alpha1/types.go:219-230 | the non-nil bindings in order |
| Validation.WorkspacePaths | pkg/apis/v1alpha1/types.go:235-246 | the explicit path or the default one, per binding |
| Validation.PresentIsInOrder | pkg/apis/v1alpha1/types.go:219-230 | a list without nil bindings is kept whole and in order |
| Validation.NilBindingsDropOut | pkg/apis/v1alpha1/types.go:219-230 | a nil binding anywhere makes no difference |
| Validation.ValidateTask | pkg/apis/v1alpha1/types.go:250-281 | no problem exactly when names are non-empty and distinct, explicit paths absolute and places distinct; otherwise the first offending binding and why |
| Validation.ReportedIndexIsUnique | pkg/apis/v1alpha1/types.go:250-281 | there is one right index to report |
| Validation.TrimmedAlikeIff | pkg/apis/v1alpha1/types.go:270-273 | two paths trim alike exactly when trailing slashes make them equal |
| Setup.Retry | internal/workspace/setup.go:244-265 | at most five attempts, stopping at the first success or at a done context after a failure |
| Setup.CloneRepos | internal/workspace/setup.go:138-172 | the repositories fetched, in order; whether all were; one failure does not keep the others from being tried |
| Setup.ClonedAreTheFetched | internal/workspace/setup.go:138-172 | a URL is reported cloned exactly if an entry for it was fetched |
| Setup.Disk.SetupWorkspace | internal/workspace/setup.go:85-134 | the result of every path, and the marker written exactly by a complete run whose write lands |
| Setup.MarkersComeFromCompleteRuns | internal/workspace/setup.go:85-134 | over any number of starts, a marker is there exactly when it was at first or a complete run left it |
| Setup.WorksAgainIff | internal/workspace/setup.go:105-109 | after that a start clones or bootstraps again exactly when it cannot see the marker |
| Setup.CompletedAtMostOnce | internal/workspace/setup.go:85-134 | a workspace whose marker can be seen is completed at most once |
| Paths.CleanIsIdempotent | internal/workspace/setup.go:93-95 | cleaning an absolute path again changes nothing, so the marker may be named from either form |
| Paths.DotElementDropsOut | internal/workspace/setup.go:347-356 | a "." element makes no difference to a cleaned path |
| Paths.ParentTakesBack | internal/workspace/setup.go:347-356 | ".." removes the element before it |
| Paths.RootHasNoParent | internal/workspace/setup.go:347-356 | at the root ".." is dropped |
| Paths.EmptyElementDropsOut | internal/workspace/setup.go:347-356 | slashes in a row are one |
| Paths.PlainPathIsClean | internal/workspace/setup.go:347-356 | a path of plain elements stays as it is |
| Setup.StemIsElements | internal/workspace/setup.go:347-356 | a marker is named after the path's cleaned elements, or "root" |
| Setup.SharedMarkerIff | internal/workspace/setup.go:347-356 | paths share a marker exactly when, cleaned and trimmed, they differ in nothing but dashes for slashes |
| Setup.KeptOutIff | runner/runner.go:155-161 | of a validated task's workspaces, with their paths as bound, one not yet set up is kept out exactly when an earlier one whose path is alike left its marker |
| Setup.SoundTaskCanBindADash | pkg/apis/v1alpha1/types.go:250-281 | "/a/b" and "/a-b" validate together and share a marker |
| Setup.SoundTaskCanBindADot | pkg/apis/v1alpha1/types.go:250-281 | "/a/b" and "/a/./b" validate together and share a marker |
| Templates.TaskTemplateName | internal/controller/reconciler.go:486-498 | the name for one iteration order of the environment map |
| Templates.NameIgnoresIterationOrder | internal/controller/reconciler.go:486-498 | the name is the same for every iteration order |
| Templates.NameIgnoresStatusAndSuspend | internal/controller/reconciler.go:171-189 | neither status nor the suspend flag changes the name |
| Templates.DigestedTextTellsEnvironmentsApart | internal/controller/reconciler.go:484-498 | for one image, environments with no `=` in a name and no `;` in a value are digested alike exactly when they are equal |
| Templates.TextRunsImageIntoEntries | internal/controller/reconciler.go:486-498 | of the naming function by itself: an image and an entry can be told apart neither in the digested text nor in the name |
| Templates.LaunchesDigestedAlikeIff | internal/controller/reconciler.go:171-189 | two launches whose task documents tell tasks apart and cover the image, with no `=` in names and images and no `;` in values, are digested alike exactly when they are the same launch |
| Templates.BuildEnv | internal/controller/reconciler.go:143-183 | the launch environment, later variables winning and nameless ones skipped |
| Templates.LaunchEnvByName | internal/controller/reconciler.go:143-183 | every name in the environment and where its value comes from: the documents, then the model's variables, then the task's own, the last of a name |
| Templates.PatternAcceptsOnlyItsTask | internal/controller/reconciler.go:502-504 | a task's pattern accepts a generated name exactly when it was generated for that task |
| Templates.PatternIsTheNames | internal/controller/reconciler.go:502-504 | the pattern accepts exactly the names some digest would give the task |
| Templates.DeleteTemplate | internal/controller/reconciler.go:540-555 | at most five attempts up to the first success; a done context does not end them |
| Templates.DeleteTaskTemplates | internal/controller/reconciler.go:526-559 | no error exactly when every matching template had a successful attempt; none generated for another task is removed, and without error all generated for this one are |
| Egress.CompileRules | internal/substrate/client.go:455-491 | the loop with its early break computes the compiled rules |
| Egress.RulesPermitWhatEntriesDo | internal/substrate/client.go:455-491 | the rules permit a destination exactly when some entry does, wherever a wildcard stands |
| Egress.Actor.ApplyEgressPolicy | internal/substrate/client.go:450-535 | success leaves exactly the compiled rules stored, identity kept when it could be read; an empty list leaves the old policy |

## Left out

- Gateway, Workspace and Model store methods: the task pattern without events, so only easy members.
- gRPC, HTTP, TLS, Redis wire calls and process execution: only their effect on the state, with failure as an outcome.
- Protobuf, YAML and JSON text, SHA-256, regular expression syntax and RFC 3339 parsing: taken as functions; record encoding is the identity.
- The legacy manifest normalizers: single rewrites of a decoded document.
- Record expiry: TTL is 0, as the binaries configure it.
- A task without a spec: the worker dereferences it, so every record has one; spec fields other than the suspend flag are one opaque value.
- Creation and update timestamps in metadata, and the existing-record read that only copies the creation time.
- RedisConvergence.QuietMeansConverged: it does not cover a worker that fails or restarts between its calls; `ControlPlane` does, for safety.
- Real time: scores are integers with ties (the code rounds nanoseconds to a float), waits and time limits are outcomes of a step.
- The wording of prompts, failure lines and tool complaints: parameters of the bootstrap loop.
- The reading of the model configuration before the bootstrap loop, which can end it without any request.
- Choosing a clone's destination and mounting skills: they do not affect the marker. A working directory that cannot be read, and symbolic links.
- The memory store's ListTasks, which lists a map in no order, and its sharing of pointers with watchers and callers: records are values.
- Concurrent callers inside one class method: `RedisStore.Store`, `WorkerLoop.Worker` and `Handlers.Server` run undisturbed; other callers between their round trips are the subject of `Interleaving`, `ControlPlane` and `Convergence`.
- WorkerLoop.Worker.Run: events arrive between its calls of Next, not within one; `EventStream` lets them arrive anywhere.
- Templates.DeleteTaskTemplates: "all" is of the templates listed; the code only warns about a truncated listing.
- ControlPlane.OneWorkerLeaksNoActor: events received are arbitrary rather than read from the stream, which is more than the code allows; each Substrate call is one atomic step.
- YamlNodes.Decoder.ReadJSONValue: streams that a JSON decoder would itself refuse, such as mismatched closing delimiters, are read as the code alone would read them.
- Bootstrap.RunModelBootstrap: blanks are the ASCII space, tab, carriage return and newline.
- Egress.RulesPermitWhatEntriesDo: the ports of an entry are ignored, as the code ignores them.
