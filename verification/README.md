# Desktop-server runtimes of librdp, modelled and proved in Dafny

librdp's desktop server drives several small state machines from one thread: the client-drive
runtime, the dirty-region scheduler and the host loop that consumes it, the clipboard runtime,
and the FUSE provider with its text/uri-list printer and parser. This project models them and
proves what they promise over every input, every run and every behaviour of the callbacks they
make. `dafny verify dfyconfig.toml` checks everything.

## How the project is laid out

Each runtime has a value model (what an entry point makes of the state), the invariants and run
theorems over that model, and, where the original updates its state in place, a class whose
methods work with the same loops and are proved equal to the model. Since a model and its class
could share a mistake, every main operation also has laws that name neither: lookups, characters,
numbers and logs, over single calls and whole runs.

| Files | Subject |
|---|---|
| `DirtyGeometry`, `DirtyPixels`, `DirtyScheduler`, `DirtyRuns`, `DirtyLiveness` | rectangle merging, the bounded queue over a fixed buffer, whole runs, frames in time |
| `HostFrames`, `HostPoll`, `HostGroups` | frame dispatch under a shared budget, the poll snapshot and its timeout |
| `DrivePath`, `DrivePathText` | path normalization, by components and by characters |
| `DriveModel`, `DriveInvariants`, `DriveRuns`, `DriveTheorems`, `DriveIdentity`, `DriveDeadlines`, `DriveRuntime` | volumes, files, pending requests, reservations, cancellation, late events, timeouts |
| `DriveFiles`, `DriveAdmission`, `DriveSelective` | which files are open, which requests are taken and why not, what each step leaves alone |
| `DriveResubmits`, `DriveExamples` | requests submitted during a removal; runs that show where a promise ends |
| `ClipboardModel`, `ClipboardInvariants`, `ClipboardRuns`, `ClipboardTheorems`, `ClipboardLosses`, `ClipboardChunks`, `ClipboardAnswers`, `ClipboardExamples`, `ClipboardRuntime` | publication generations, pending operations, unanswered operations, chunked answers, whose answer is whose |
| `ClipboardPolicy`, `ClipboardLimits` | which formats pass, what moves the publication, how much data passes |
| `FuseTable`, `FuseProvider`, `FuseDirectory` | kernel requests and their stages under re-entrant callbacks, directory paging |
| `FuseAnswers`, `FuseFaults` | when a request succeeds, and which error it is told otherwise |
| `UriList`, `UriText` | percent-encoding, line splitting, all-or-nothing import; what is accepted, by characters |
| `Status`, `Tally` | status codes and machine bounds, sums and first matches over slot arrays |

Time, the wire, the platform and the kernel appear as parameters: a function that answers each
call, or, where a call may re-enter the runtime, the events it emits before it returns. In the
drive runtime a cancel hook may emit any sequence of terminal events, the request's own or not
(`LegalHook` only says that a hook's recorded effect is that of the events it emitted, and
`DriveTheorems.AnyHookIsLegal` shows that every choice of events meets it); in the clipboard
runtime the protocol's cancel call may report any of the peer's operations as cancelled before it
returns; in the FUSE provider every submission and cancellation may run completions nested to any
finite depth. Integers are unbounded except where their width
matters: rectangle endpoints, clocks, deadlines, quotas and the `int` poll timeout are bounded,
wrapped or saturated as in the code.

## What the proofs found

- **Drive poll timeout.** The cap at apps/server/server_drive.c:1450 compares the quotient before
  rounding up with INT_MAX. A deadline more than INT_MAX but less than INT_MAX + 1 milliseconds
  away comes out as INT_MIN, which a poll takes as no timeout. `DriveWakesIff` gives the exact
  condition, `DriveAlwaysWakes` shows that a request timeout of at most INT_MAX milliseconds excludes
  it in every run, and `GapIsReached` that every larger one meets it in some run.
- **Transfer quota.** Transferred bytes never exceed the cap, but transferred plus reserved bytes
  can if a completion reports more than it reserved: `OverrunExceedsCap` is a run where they do,
  `ChargedStaysTightIff` the exact condition, and `QuotaHolds` the promise for runs without it.
- **Protocol ids.** A late event is refused because its id is gone, which holds if the protocol
  never hands out an id still in use. Given that, `RunDistinct` keeps the ids of a peer distinct in
  every run and `LateEventsRefused` refuses every late event; without it, `CompletedUnusedIff`
  says exactly when an id outlives its request, and `SharedIdOutlives` is a run where one does.
- **Requests submitted during a removal.** The loop that cancels a peer's requests visits each slot
  once (apps/server/server_drive.c:487-503). If the platform submits new requests as it is told of
  the end of old ones, as the FUSE provider does for the next stage of an operation, one that is
  admitted in any turn but the first is left in a slot and never completed (`LeftBehindIff`,
  `ThirdIsLeft`).
- **Clipboard generation zero.** A local copy clears ownership but not the remembered remote
  formats, so a data or file request naming generation zero is then served although nobody owns
  the clipboard (`ZeroIsServed`, `ZeroFileIsServed`). `ServedByOwnerIff` and `ServedFileByOwnerIff`
  give the exact condition for a request, and `RemoteWorkIsOwners` the promise for every run whose
  requests name other generations.
- **One response per clipboard request.** The comment at apps/server/server_clipboard.c:1175-1179
  promises exactly one response. The model follows the code, which ends some requests without one:
  a second data request while one is pending ends the first, a file request that finds no slot
  gets none, and neither does anything pending at a peer that is removed or when the runtime is
  revoked (apps/server/server_clipboard.c:1376-1390). `StepLoses` names what each step takes away,
  `LostIff` says exactly which steps take something, for client and platform operations alike, and
  `RepliedOnceIff` that over a whole run an operation that has ended was answered exactly once if
  and only if no such step took it. The contents are right whatever comes between the chunks
  (`AnswersAreSupplied`).
- **Cancelling one clipboard request cancels both.** The protocol's cancel call names no request
  (apps/server/server_clipboard.c:1364) and reports all of the peer's pending work as cancelled
  before it returns (src/server/server_channels.c:3189-3215). So cancelling a data request also ends
  a pending file request unanswered, and the other way round: `CancelTakesOtherIff` is the exact
  condition and `CancelTakesBoth` a run.
- **Late clipboard answers.** A data answer carries no request id
  (src/server/server_channels.c:1672-1693). After a request was given up, its answer is delivered as
  the answer to the next one (`LateAnswerIsMisdelivered`); `DeliveredIsAskedIff` says exactly when a
  delivered answer is the one asked for, and `InTurn` that it always is while no request is given up.
- **Oversized client answers** are discarded without telling the platform
  (apps/server/server_clipboard.c:1008-1026); they are among the losses of `LostIff`.
- **Paths with CR or LF** are printed but refused when read back (`DecodeEncode`).
- **A directory page too small for its next entry** is empty, which a reader takes for the end
  (`PageEmptyIff`).

## Model

| member | source | states |
|---|---|---|
| `DirtyGeometry.MergeIsLeastClosure` | apps/server/server_dirty.c:140-199 | The merged rectangle contains the new one, swallows every queued rectangle it touches, and lies inside every other rectangle with these two properties; what stays queued is exactly what does not lie inside it, in the old order, and does not touch it |
| `DirtyGeometry.MergeOrderIndependent` | apps/server/server_dirty.c:181-199 | Queueing the same rectangles in another order gives the same merged rectangle and the same remaining rectangles |
| `DirtyGeometry.MergeApart` | apps/server/server_dirty.c:181-199 | Rectangles that were pairwise apart are pairwise apart after the merge, the merged one included |
| `DirtyGeometry.MergeKeepsPixels` | apps/server/server_dirty.c:181-199 | No pixel of the new rectangle or of a queued one is uncovered by a merge |
| `DirtyPixels.CoversIff` | apps/server/server_dirty.c:140-167 | Which pixels a rectangle has |
| `DirtyPixels.InsideIff` | apps/server/server_dirty.c:201-233 | A rectangle is inside the surface if and only if it has a pixel and all of them are |
| `DirtyPixels.TouchIff` | apps/server/server_dirty.c:140-150 | Two rectangles touch if and only if some pixel of one is a pixel of the other or a neighbour of one |
| `DirtyPixels.ContainsIff` | apps/server/server_dirty.c:169-199 | Containment is that of pixels |
| `DirtyPixels.HullIsLeast` | apps/server/server_dirty.c:152-167 | The union covers both and lies in every rectangle that does |
| `DirtyPixels.CollapseIsLeast` | apps/server/server_dirty.c:244-255 | A collapse leaves the least rectangle that covers everything queued |
| `DirtyPixels.InvalidateIs` | apps/server/server_dirty.c:226-257 | An invalidation is refused outside the surface, and else merges, collapses or appends |
| `DirtyPixels.ResizeIs` | apps/server/server_dirty.c:201-224 | A resize empties the queue and leaves nothing or the whole surface damaged |
| `DirtyScheduler.RectsTouch` | apps/server/server_dirty.c:140-150 | On rectangles inside a 32-bit surface the wrapped endpoint sums decide touching exactly |
| `DirtyScheduler.RectUnion` | apps/server/server_dirty.c:152-167 | On such rectangles the 32-bit union is the exact hull and stays inside the surface |
| `DirtyScheduler.Scheduler.constructor` | apps/server/server_dirty.c:73-97 | A new scheduler is empty and valid |
| `DirtyScheduler.Scheduler.RemoveRegion` | apps/server/server_dirty.c:169-179 | Shifting the tail removes exactly the indexed rectangle and keeps the order of the rest |
| `DirtyScheduler.Scheduler.MergeExisting` | apps/server/server_dirty.c:181-199 | The restarting in-place loop terminates and leaves the queue and the candidate of the least closure; the merge counter grows by the number absorbed |
| `DirtyScheduler.Scheduler.Invalidate` | apps/server/server_dirty.c:226-257 | Equals the invalidation of the value model, overflow collapse and metrics included, and keeps the invariant; an outside rectangle changes nothing |
| `DirtyScheduler.Scheduler.Resize` | apps/server/server_dirty.c:201-224 | Equals the resize of the value model, with its optional full invalidation, and keeps the invariant |
| `DirtyScheduler.Scheduler.Peek` | apps/server/server_dirty.c:275-301 | Reports the due prefix, or the wait until the next frame, or nothing |
| `DirtyScheduler.Scheduler.Commit` | apps/server/server_dirty.c:303-322 | Drops exactly the committed prefix and sets the next frame with a saturating sum |
| `DirtyScheduler.Scheduler.Defer` | apps/server/server_dirty.c:324-336 | Moves the next frame later, never earlier, and keeps the queue |
| `DirtyScheduler.Scheduler.Clear` | apps/server/server_dirty.c:338-347 | Empties the queue and restarts pacing |
| `DirtyScheduler.InvalidateKeepsInv` | apps/server/server_dirty.c:226-257 | Count within capacity, regions non-empty and inside the surface, all pairwise non-touching: kept by every invalidation, also by one that collapses the queue |
| `DirtyScheduler.CollapseOnlyWhenFull` | apps/server/server_dirty.c:244-255 | A collapse happens only when the queue was full and nothing merged |
| `DirtyRuns.RunKeepsInv` | apps/server/server_dirty.c:115-347 | The scheduler invariant holds in every state of every run |
| `DirtyRuns.NoLostDamage` | apps/server/server_host_loop.c:470-544 | In every run every invalidated pixel is covered by a queued rectangle unless a presentation with status OK, a resize or a clear came after its last invalidation |
| `DirtyRuns.RegionConservation` | apps/server/server_dirty.c:181-347 | In every run invalidations equal merged + presented + capacity times collapses + queued + dropped by resize or clear |
| `DirtyRuns.CommitsArePaced` | apps/server/server_dirty.c:303-336 | Between resets successive commits lie at least one saturating frame interval apart, whatever is invalidated or deferred in between |
| `DirtyRuns.QueueDrains` | apps/server/server_host_loop.c:470-544 | Due frames with a willing wire take the queue from its front, a full batch each, so it empties |
| `DirtyLiveness.NextFrameBounded` | apps/server/server_dirty.c:201-336 | In every run the next frame is never later than the latest of its start and, over all steps so far, an invalidation's, resize's or clear's own time and a frame's time plus one interval, capped at the largest 64-bit time |
| `DirtyLiveness.DueByThen` | apps/server/server_dirty.c:275-301 | So from that time on a queue with damage has a frame due, of a full batch or all there is |
| `DirtyLiveness.PeekIff` | apps/server/server_dirty.c:275-301 | Regions are due if and only if there are some and the next frame has come |
| `DirtyLiveness.NextFrameIs` | apps/server/server_dirty.c:226-347 | Where each operation puts the next frame, by sums and caps |
| `DirtyLiveness.CommitIff` | apps/server/server_dirty.c:303-322 | A commit is taken if and only if it is of one to as many regions as a frame may hold and are queued, and then drops exactly those and counts them |
| `DirtyLiveness.SpacedAreDue` | apps/server/server_host_loop.c:470-544 | Times that start at the next frame and lie at least one interval apart are each due when they come, whatever is still queued |
| `DirtyLiveness.DrainsInTime` | apps/server/server_host_loop.c:470-544 | So, with a willing wire, each such time takes a full batch from the front until the queue is empty |
| `DirtyLiveness.RunDrains` | apps/server/server_host_loop.c:470-544 | After every run, damage that is queued is presented by as many such times as it has batches |
| `HostFrames.DispatchSlot` | apps/server/server_host_loop.c:488-543 | One active peer's frame: the due prefix up to the budget is presented until the first failure, exactly what was presented is committed, back-pressure defers, any other failure ends the peer |
| `HostFrames.DispatchFrames` | apps/server/server_host_loop.c:470-544 | Every slot takes its turn in order with what the earlier ones left of the budget; schedulers of other slots are untouched |
| `HostFrames.TurnEnds` | apps/server/server_host_loop.c:488-543 | A turn presents in order up to the first refusal, takes exactly that much off the queue, and leaves the peer active if all was taken or the wire asked to wait, closed if the wire was, else failed, and then without further turns; a wait puts the next frame at least one interval off |
| `HostFrames.NoTurn` | apps/server/server_host_loop.c:488-500 | Without capture, without budget or without an active peer nothing is presented and nothing changes |
| `HostPoll.AppendGroup` | apps/server/server_host_loop.c:86-119 | Appends one group at the end of the snapshot exactly when both limits allow, and changes nothing otherwise |
| `HostPoll.AppendPeer` | apps/server/server_host_loop.c:230-283 | One peer: success if and only if it is closed, or answers and fits; its group and what its queue asks for |
| `HostPoll.AppendPeers` | apps/server/server_host_loop.c:230-283 | Succeeds if and only if every open peer can count and list its descriptors and both limits leave room for all of them; then there is one group per open peer, and the timeout is the shortest over the requested one and every active peer's queue |
| `HostPoll.AppendSource` | apps/server/server_host_loop.c:285-340 | One provider: success if and only if it answers, its timeout is well formed and its descriptors fit |
| `HostPoll.AppendSources` | apps/server/server_host_loop.c:285-340 | Succeeds if and only if every provider answers with a timeout of at least -1 and lists its descriptors (a provider with none is not asked to) and there is room for all; then there is one group per provider and the shortest timeout is kept |
| `HostPoll.PreparePoll` | apps/server/server_host_loop.c:169-348 | Succeeds if and only if the listener, every open peer and every provider answer and all their groups fit, where with at most 64 peers and 6 providers only the descriptor limit matters; then the groups are the wake-up descriptor, the listener, every open peer and every provider, in that order, each with its own number of descriptors and without gap or overlap, and the timeout is the shortest over the request, all queues, all sources and the drive runtime |
| `HostPoll.EachDescriptorOnce` | apps/server/server_host_loop.c:86-119 | Every descriptor of a snapshot belongs to exactly one group |
| `HostPoll.GroupsSuffice` | apps/server/server_host_loop.c:26-27 | With at most 64 peers and 6 providers the group table is never the limit |
| `HostPoll.FrameWakes` | apps/server/server_dirty.c:259-301 | A queue asks to be woken not before its next frame (unless capped) and less than one millisecond past it |
| `HostPoll.WakesForFrames` | apps/server/server_host_loop.c:169-348 | The chosen timeout ends less than one millisecond past the next frame of every active peer with damage |
| `HostPoll.WakesForDrive` | apps/server/server_host_loop.c:341-346 | Outside the gap below it also ends less than one millisecond past every finite drive deadline |
| `HostPoll.WakesForReachableDrive` | apps/server/server_host_loop.c:341-346 | With a request timeout of at most INT_MAX milliseconds it does so for every finite deadline of every reachable drive state |
| `HostPoll.WakesForAReason` | apps/server/server_host_loop.c:169-348 | A sleep other than the requested one ends with a frame due, a request overdue, or as some provider asked: idle drives and empty queues never shorten it |
| `HostGroups.GroupsAre` | apps/server/server_host_loop.c:169-348 | Which group is whose: the wake-up's with one descriptor, the listener's, one for each open peer in slot order, one for each provider, each with as many descriptors as it counted |
| `HostGroups.AnswersIff` | apps/server/server_host_loop.c:169-340 | Who must have answered: the listener, every open peer, and every provider, which need not list what it does not have |
| `HostGroups.SnapshotBounds` | apps/server/server_host_loop.c:86-119 | A snapshot never holds more than 512 descriptors or 72 groups |
| `HostGroups.WakesForSources` | apps/server/server_host_loop.c:285-340 | The sleep is no longer than any provider asks for |
| `DriveDeadlines.NextTimeout` | apps/server/server_drive.c:1418-1454 | The nested scan computes the timeout of the earliest pending deadline |
| `DriveDeadlines.EarliestBelow` | apps/server/server_drive.c:1425-1443 | No pending deadline of any peer is before the earliest one |
| `DriveDeadlines.EarliestAttained` | apps/server/server_drive.c:1425-1443 | A finite earliest deadline belongs to some pending request |
| `DriveDeadlines.DriveWakesIff` | apps/server/server_drive.c:1444-1453 | The drive timeout is non-negative, not early and less than a millisecond late if and only if the deadline is not more than INT_MAX but less than INT_MAX + 1 milliseconds away |
| `DriveDeadlines.GapSleepsForever` | apps/server/server_drive.c:1450-1453 | One nanosecond into that gap the conversion yields INT_MIN, so the poll would wait without limit |
| `DriveDeadlines.DriveAlwaysWakes` | apps/server/server_drive.c:1418-1454 | With a request timeout of at most INT_MAX milliseconds no run reaches the gap, so every reachable state wakes in time |
| `DrivePath.ComponentsAreTheText` | apps/server/server_drive.c:984-1020 | Components are non-empty and separator-free and together are all other characters of the path, in order |
| `DrivePath.NormalizedIff` | apps/server/server_drive.c:959-1025 | Normalization succeeds exactly when the path is within the limit, has no colon and no "." or ".." component; the result starts with a backslash, has the same components and fits the buffer of length + 2 |
| `DrivePath.NormalizedTwice` | apps/server/server_drive.c:959-1025 | A normalized path that still fits the limit is its own normal form; one that does not is refused for its length |
| `DrivePath.SameNormalForm` | apps/server/server_drive.c:959-1025 | Two accepted paths normalize alike exactly when they have the same components |
| `DrivePath.NormalizePath` | apps/server/server_drive.c:959-1025 | The two-cursor loop over the output buffer computes the normal form or the refusal, and never writes outside the buffer |
| `DrivePathText.AcceptedIff` | apps/server/server_drive.c:959-1025 | By the characters alone: a path is accepted if and only if it is within the limit, has no colon, and no "." or ".." stands between two of the characters '/' and '\\' or at an end; else the refusal is for length or state |
| `DrivePathText.AcceptedText` | apps/server/server_drive.c:984-1020 | What an accepted path becomes has no '/' or ':', starts with a backslash, has no two adjacent ones and ends in one only if it is alone; its other characters and where they break are those of the path |
| `DrivePathText.NormalFormIs` | apps/server/server_drive.c:984-1020 | Nothing else has these properties, so they determine the normal form |
| `DrivePathText.EitherSlash` | apps/server/server_drive.c:984-994 | Replacing every '/' by a backslash changes nothing about the outcome |
| `DriveRuntime.Runtime.Clear` | apps/server/server_drive.c:404-418 | Releases one slot and its byte and file reservations |
| `DriveRuntime.Runtime.RegisterFile` | apps/server/server_drive.c:893-929 | Registers the file a CREATE opened, or refuses it |
| `DriveRuntime.Runtime.ForgetFile` | apps/server/server_drive.c:930-945 | Forgets the file a CLOSE closed, or refuses it |
| `DriveRuntime.Runtime.EndRequest` | apps/server/server_drive.c:862-957 | A terminal event completes the one request it names, charges it, updates the file table and releases its slot; an event that names none changes nothing |
| `DriveRuntime.Runtime.Cancel` | apps/server/server_drive.c:460-485 | Asks the protocol, which may emit any terminal events before it returns, and completes the request here if it is still pending |
| `DriveRuntime.Runtime.CancelMatching` | apps/server/server_drive.c:487-527 | Visits every slot once and cancels those that match |
| `DriveRuntime.Runtime.Detach` | apps/server/server_drive.c:795-833 | Removing a device cancels what waits for its volume, then drops the volume and the files open on it |
| `DriveRuntime.Runtime.Announce` | apps/server/server_drive.c:701-793 | Announcing a device adds a volume under a new id, or refuses it, consuming an id only once the platform was asked |
| `DriveRuntime.Runtime.AddPeer` | apps/server/server_drive.c:576-619 | Adds an empty peer to the first free slot, refusing duplicates |
| `DriveRuntime.Runtime.RemovePeer` | apps/server/server_drive.c:621-640 | Cancels all of the peer's requests, takes its volumes away and frees its slot |
| `DriveRuntime.Runtime.ProtocolEvent` | apps/server/server_drive.c:841-957 | Dispatches device and completion events and keeps the invariant |
| `DriveRuntime.Runtime.ValidateRequest` | apps/server/server_drive.c:1077-1176 | All shape, range, scope, read-only, path and quota checks, in the order of the code |
| `DriveRuntime.Runtime.PlatformRequest` | apps/server/server_drive.c:1205-1301 | Either records the request as pending with its reservations, or completes it at once with the reason; the invariant is kept |
| `DriveRuntime.Runtime.PlatformCancel` | apps/server/server_drive.c:1303-1322 | Cancels the named request |
| `DriveRuntime.Runtime.Revoke` | apps/server/server_drive.c:1324-1349 | Cancels everything of every peer and leaves the runtime disabled |
| `DriveRuntime.Runtime.SetEnabled` | apps/server/server_drive.c:1351-1372 | Disabling revokes; enabling changes nothing else |
| `DriveRuntime.Runtime.DispatchTimeouts` | apps/server/server_drive.c:1379-1416 | Times out every overdue request of every peer and returns the first failure |
| `DriveInvariants.ClearKeeps` | apps/server/server_drive.c:404-418 | Releasing a slot subtracts exactly its reservation: none of the clamps fires |
| `DriveInvariants.CloseKeeps` | apps/server/server_drive.c:930-945 | Closing a file keeps every counter exact, and its clamps never fire |
| `DriveInvariants.DropVolumeKeeps` | apps/server/server_drive.c:795-833 | Dropping a volume nothing waits for keeps every counter exact, and its clamps never fire |
| `DriveInvariants.AdmitKeeps` | apps/server/server_drive.c:1251-1299 | An admitted request keeps every counter exact and every bound, and moved + reserved + new bytes stay within the cap |
| `DriveInvariants.IdleSlotExists` | apps/server/server_drive.c:1256-1269 | Below the pending limit there is a free slot |
| `DriveInvariants.CreateFindsSlot` | apps/server/server_drive.c:893-929 | An admitted CREATE finds a free file slot when it completes |
| `DriveInvariants.PendingVolumeExists` | apps/server/server_drive.c:862-877 | A pending request's volume is still there |
| `DriveInvariants.OpenFilesTotal` | apps/server/server_drive.c:893-945 | The peer's open files are also the sum over its volumes |
| `DriveRuns.StepKeepsInv` | apps/server/server_drive.c:576-1416 | Every entry point, for every behaviour of the cancel hook, keeps the counters equal to the sums over their slots, open + reserved files within the file table, transferred bytes within the cap, and requests = completions + pending |
| `DriveRuns.RunKeepsInv` | apps/server/server_drive.c:576-1416 | The same in every state of every run |
| `DriveTheorems.ExactlyOnce` | apps/server/server_drive.c:841-1301 | In every run the multiset of requests is the multiset of completions plus the multiset of pending requests, and so are their numbers |
| `DriveTheorems.AnyHookIsLegal` | apps/server/server_drive.c:460-485 | Every choice of events a cancel hook might emit is covered by these results |
| `DriveTheorems.CancelledExactlyOnce` | apps/server/server_drive.c:460-485 | A cancelled request is completed exactly once with the canceller's status and its slot is free, whether or not the hook re-enters |
| `DriveTheorems.CancelSlotReports` | apps/server/server_drive.c:460-485 | The canceller's status is what the platform sees on either path |
| `DriveTheorems.RevokeCompletesAll` | apps/server/server_drive.c:1324-1349 | After a revocation everything requested is completed and no peer has a volume, file or request |
| `DriveTheorems.RemovePeerCompletesIts` | apps/server/server_drive.c:621-640 | Removing a peer completes exactly what it had pending and frees its slot |
| `DriveTheorems.DisabledIsBare` | apps/server/server_drive.c:1324-1372 | In every run a disabled runtime holds no volume, file or pending request |
| `DriveTheorems.QuotaHolds` | apps/server/server_drive.c:885-947 | In every run whose completions report no more than they reserved, transferred + reserved bytes stay within the cap |
| `DriveTheorems.ChargedStaysTightIff` | apps/server/server_drive.c:885-947 | A charged completion keeps that bound if and only if it reports at most its reservation plus the room left |
| `DriveTheorems.TimeoutsClear` | apps/server/server_drive.c:1379-1416 | After a dispatch no request of any peer is past its deadline |
| `DriveTheorems.DeadlineSaturates` | apps/server/server_drive.c:1287-1291 | Request deadlines saturate instead of wrapping |
| `DriveFiles.FoundIff` | apps/server/server_drive.c:862-945 | A handle is found if and only if some file slot holds it |
| `DriveFiles.FoundAreOpen` | apps/server/server_drive.c:862-945 | In every run the handles found at a peer are, each on its volume, those of its CREATE completions that succeeded less those of its successful CLOSE completions, those whose volume is gone and those of a peer that left; the counter of open files is their number |
| `DriveFiles.StepFiles` | apps/server/server_drive.c:576-1416 | What every single step does to the files of every peer, by the completions it logged |
| `DriveFiles.CloseForgets` | apps/server/server_drive.c:930-945 | In every run, after a CLOSE has completed with success its handle is not found any more, one file fewer is open, and every other handle is found as before |
| `DriveFiles.CreateOpens` | apps/server/server_drive.c:893-929 | In every run, after a CREATE has completed with success its handle, new before, is found on the request's volume, one file more is open, and every other handle is found as before |
| `DriveFiles.CloseSucceedsIff` | apps/server/server_drive.c:930-945 | A CLOSE that the client reports as done succeeds if and only if its file is open on the request's volume |
| `DriveFiles.CreateSucceedsIff` | apps/server/server_drive.c:893-929 | A CREATE that the client reports as done succeeds if and only if its file is on the device of the request's volume and not open yet |
| `DriveAdmission.AdmissibleIff` | apps/server/server_drive.c:1077-1176 | A request is admitted if and only if the volume it names is there, its sizes, ranges, locks, access, path and file are in order, no pending request has its id, and there is room for it, its bytes and its file |
| `DriveAdmission.TakenIff` | apps/server/server_drive.c:1205-1301 | In every run a request is taken on if and only if the runtime is enabled, that is so at the peer it names, and the protocol accepts it |
| `DriveAdmission.TakenIs` | apps/server/server_drive.c:1251-1299 | It is then pending in a slot that was idle, with its deadline, bytes and file reserved, and nothing else changes |
| `DriveAdmission.RefusedIs` | apps/server/server_drive.c:1205-1250 | A request that is not taken on is completed at once with the reason, and changes nothing |
| `DriveAdmission.HandedNormal` | apps/server/server_drive.c:1153-1275 | The protocol is asked about the request with its path in normal form and about nothing else: no other answer of its matters |
| `DriveAdmission.PendingIsMade` | apps/server/server_drive.c:1251-1299 | In every run each pending request is remembered just as some request step made it |
| `DriveAdmission.BoundedIsHonest` | apps/server/server_drive.c:885-947 | An event that reports no more than the length, data and output sizes of the request it completes is honest in the sense the transfer quota needs |
| `DriveSelective.OverdueIff` | apps/server/server_drive.c:1379-1416 | In every run whose protocol hands out unused ids, a dispatch of timeouts whose hooks keep to their request ends a request if and only if its deadline has come |
| `DriveSelective.CancelEndsIff` | apps/server/server_drive.c:1303-1322 | With such hooks a cancellation ends the request it names and no other |
| `DriveSelective.DetachTakesIff` | apps/server/server_drive.c:795-833 | With such hooks removing a device ends the requests on its volume and no others, takes that volume and keeps the other volumes |
| `DriveSelective.CompletesIff` | apps/server/server_drive.c:862-877 | An event completes a request if and only if it names its id, its operation and the device of its volume and brings the data it says; any other event changes nothing |
| `DriveSelective.ReportIs` | apps/server/server_drive.c:878-957 | What a report comes to: a canceller's status first, then the client's, then the size and quota limits, then success; only success with success inside is charged |
| `DriveSelective.PresentedIff` | apps/server/server_drive.c:701-793 | A device becomes a volume, under an id never used before, if and only if it is enabled, well identified, well named, allowed, new, there is room, and the platform takes it |
| `DriveSelective.AnnouncementIs` | apps/server/server_drive.c:701-793 | An announcement uses up one volume id if and only if the platform was asked, whatever it said, so no id is presented twice |
| `DriveSelective.PeerJoinsIff` | apps/server/server_drive.c:576-619 | A peer joins, bare, if and only if its identity is good and new and a slot is free |
| `DriveSelective.RefusedBecause` | apps/server/server_drive.c:1077-1250 | Which refusal a request meets: that of the first thing that is wrong with it |
| `DriveIdentity.RunDistinct` | apps/server/server_drive.c:1251-1299 | In every run whose protocol hands out unused ids, no two pending requests of a peer share one |
| `DriveIdentity.CompletedUnusedIff` | apps/server/server_drive.c:862-877 | For any peer at all: after a completion the id is unused if and only if no other pending request shared it |
| `DriveIdentity.EndedIsAbsent` | apps/server/server_drive.c:404-527 | Whatever step ends a request, no pending request of the peer carries its id afterwards, hooks that emit arbitrary events included |
| `DriveIdentity.LateEventsRefused` | apps/server/server_drive.c:862-877 | In every such run, once a request has ended, by its event or otherwise, every later event naming its id is refused and changes nothing, however the run continues, until a submission hands the id out again |
| `DriveIdentity.EndedAreReported` | apps/server/server_drive.c:460-527 | In every run whose protocol hands out unused ids, each removal, device detach, cancellation, revocation and timeout sweep reports its own status (Cancelled, State or Timeout) for every pending request it is to end, whether or not the hook re-enters for its own request |
| `DriveResubmits.NoCallsIsSweep` | apps/server/server_drive.c:460-503 | Without such submissions and with a quiet cancel hook this sweep is the one of the model |
| `DriveResubmits.LeftBehindIff` | apps/server/server_drive.c:404-503 | When the platform submits new requests as it is told of the end of old ones, a sweep over all slots leaves a request behind if and only if some turn but the first admits one |
| `DriveResubmits.ThirdIsLeft` | apps/server/server_drive.c:487-503 | Two pending requests of which the second one's end submits a third: the third takes the slot of the first and is left behind |
| `DriveExamples.GapIsReached` | apps/server/server_drive.c:1444-1453 | For every request timeout of more than INT_MAX milliseconds, a run with one request that reaches the gap, where the runtime asks for INT_MIN milliseconds of sleep |
| `DriveExamples.GapIsReachedIff` | apps/server/server_drive.c:1418-1454 | In this family of configurations some run reaches the gap if and only if the request timeout exceeds INT_MAX milliseconds |
| `DriveExamples.SharedIdOutlives` | apps/server/server_drive.c:862-877 | A run with a protocol that hands out one id twice: after the first request is completed its id is still taken, for the second |
| `DriveExamples.OverrunExceedsCap` | apps/server/server_drive.c:885-947 | A legal run after which transferred plus reserved bytes exceed the cap, because a completion reported more than it reserved |
| `ClipboardRuntime.Runtime.LookupLocal` | apps/server/server_clipboard.c:1137-1173 | Resolves an answer to the peer it names, or to the only peer that expects its id |
| `ClipboardRuntime.Runtime.BuildFormats` | apps/server/server_clipboard.c:416-475 | Keeps the formats the policy allows, in order, and rejects a list with a repeated id |
| `ClipboardRuntime.Runtime.BeginPending` | apps/server/server_clipboard.c:863-883 | Takes a free slot within the limit, or says why not and changes nothing |
| `ClipboardRuntime.Runtime.SweepAll` | apps/server/server_clipboard.c:634-643 | Visits every peer once and closes what the sweep is for |
| `ClipboardRuntime.Runtime.AddPeer` | apps/server/server_clipboard.c:261-288 | Adds an empty peer, refusing duplicates |
| `ClipboardRuntime.Runtime.RemovePeer` | apps/server/server_clipboard.c:290-311 | Has the protocol cancel the peer's requests, ends the operations still pending and, if the peer owned it, the publication |
| `ClipboardRuntime.Runtime.ChannelReady` | apps/server/server_clipboard.c:576-610 | Marks the channel ready only after both messages were sent |
| `ClipboardRuntime.Runtime.PlatformFormats` | apps/server/server_clipboard.c:612-661 | A local copy ends every operation and every ownership, and is announced to ready peers up to the first failure |
| `ClipboardRuntime.Runtime.PublishRemote` | apps/server/server_clipboard.c:727-821 | An offer becomes the publication under a new generation only if the platform takes it; a refused offer uses up a generation and nothing else |
| `ClipboardRuntime.Runtime.RequestLocalData` | apps/server/server_clipboard.c:885-929 | Starts a data request or refuses it; a second one while one is pending ends the first unanswered |
| `ClipboardRuntime.Runtime.RequestLocalFile` | apps/server/server_clipboard.c:931-997 | Starts a file request or refuses it; one that finds no slot is not answered |
| `ClipboardRuntime.Runtime.DeliverRemote` | apps/server/server_clipboard.c:999-1028 | Delivers the client's answer under the peer's ownership and closes the operation; an oversized answer is not delivered |
| `ClipboardRuntime.Runtime.ProtocolEvent` | apps/server/server_clipboard.c:1035-1105 | Dispatches client events and keeps the invariant |
| `ClipboardRuntime.Runtime.PlatformData` | apps/server/server_clipboard.c:1180-1240 | Adds a chunk, or answers the client once and frees the slot |
| `ClipboardRuntime.Runtime.PlatformRequest` | apps/server/server_clipboard.c:1242-1279 | Starts a remote data request at the current owner, or refuses it |
| `ClipboardRuntime.Runtime.PlatformFileRequest` | apps/server/server_clipboard.c:1281-1335 | Starts a remote file request at the current owner, or refuses it |
| `ClipboardRuntime.Runtime.PlatformCancel` | apps/server/server_clipboard.c:1337-1367 | Ends the named remote operation of the current owner, and every other of that peer that the protocol reports as cancelled before its call returns |
| `ClipboardRuntime.Runtime.CancelRequestsOf` | src/server/server_channels.c:3189-3215 | The protocol's cancel call names no request: it enters the runtime again with one report after the other before it returns, each closing the slot it names |
| `ClipboardRuntime.Runtime.Revoke` | apps/server/server_clipboard.c:1369-1398 | Ends every operation, every channel and the publication, whatever the protocol reports meanwhile |
| `ClipboardRuns.StepKeepsInv` | apps/server/server_clipboard.c:261-1398 | Every entry point keeps: one owner at most, the publication owned, pending count exact and bounded, local ids distinct, buffers within their limit, remote work only under the publication it named, deliveries asked for, operations opened = closed + pending |
| `ClipboardRuns.RunKeepsInv` | apps/server/server_clipboard.c:261-1398 | The same in every state of every run |
| `ClipboardTheorems.OneOwner` | apps/server/server_clipboard.c:784-820 | In every run at most one peer has a non-zero ownership generation, and a non-zero publication is owned |
| `ClipboardTheorems.OperationsConserved` | apps/server/server_clipboard.c:161-170 | In every run the operations opened are those closed plus those pending, as multisets, and the pending counter is their number and within the limit |
| `ClipboardTheorems.RemoteWorkIsOwners` | apps/server/server_clipboard.c:1242-1335 | In every run whose platform requests name generations other than zero, a pending remote operation sits at the owner of the current publication and was opened under it |
| `ClipboardTheorems.RemoteWorkIsCurrent` | apps/server/server_clipboard.c:1242-1335 | In every run, generation zero included, a pending remote operation was opened under the publication, which is its peer's ownership |
| `ClipboardTheorems.DeliveriesMatch` | apps/server/server_clipboard.c:999-1028 | In every run the deliveries to the platform are, as multisets of kind, id, peer, generation and ownership, among the operations opened: no operation is delivered more often than it was asked for, nor under another ownership |
| `ClipboardTheorems.SupersededForever` | apps/server/server_clipboard.c:1242-1367 | Once a generation is superseded, however the run continues, no request or cancel naming it succeeds or changes anything |
| `ClipboardTheorems.SupersedesIff` | apps/server/server_clipboard.c:290-1398 | A step supersedes the publication if and only if it is the removal of its owner, a local copy that stands, an offer that the platform takes, or a revocation |
| `ClipboardTheorems.ServedByOwnerIff` | apps/server/server_clipboard.c:1242-1279 | A served request is pending at an owner if and only if it names a generation other than zero |
| `ClipboardTheorems.ServedFileByOwnerIff` | apps/server/server_clipboard.c:1281-1335 | Likewise for a served file request |
| `ClipboardTheorems.ZeroIsServed` | apps/server/server_clipboard.c:612-661 | An example run: after an offer and a local copy, a request naming generation zero is served although nobody owns the clipboard |
| `ClipboardTheorems.ZeroFileIsServed` | apps/server/server_clipboard.c:1294-1335 | An example run: likewise for a file request naming generation zero |
| `ClipboardTheorems.SecondRequestEndsFirst` | apps/server/server_clipboard.c:1254-1278 | A second platform data request fails and ends the first without a delivery |
| `ClipboardTheorems.SecondAskEndsFirst` | apps/server/server_clipboard.c:905-927 | A second client data request is refused and ends the first without an answer |
| `ClipboardTheorems.ReportIsEvent` | apps/server/server_clipboard.c:1095-1102 | What the protocol reports inside its cancel call acts on the state as any event of the same kind does |
| `ClipboardTheorems.ReportsAfterWrites` | apps/server/server_clipboard.c:511-545 | After a local copy or a new offer has told the platform of a peer's cancelled operations, the protocol's reports change nothing more |
| `ClipboardPolicy.FormatsIff` | apps/server/server_clipboard.c:416-475 | An offer is refused if and only if two formats that the policy lets through share an identifier; else exactly those are kept, in order, with the identifier of their class where a local one has none |
| `ClipboardPolicy.OnlyAllowed` | apps/server/server_clipboard.c:416-821 | In every run whatever is on offer, here or at a client, is of allowed classes and has no identifier twice |
| `ClipboardPolicy.OfferIs` | apps/server/server_clipboard.c:727-821 | A client's offer that the platform takes makes it the owner under the next generation with exactly the wanted formats and ends everybody else's offer and remote work; otherwise nobody's offer changes |
| `ClipboardPolicy.CopyIs` | apps/server/server_clipboard.c:612-661 | A copy on the platform ends all work and all ownership and puts the wanted formats on offer, unless it is the clients' own publication coming back; it is good if and only if every ready client took the offer |
| `ClipboardPolicy.JoinsIff` | apps/server/server_clipboard.c:261-288 | A peer joins, bare and not ready, if and only if its identity is good and new and a slot is free |
| `ClipboardPolicy.LeavesIs` | apps/server/server_clipboard.c:290-311 | A peer that is removed leaves the others as they are and takes its publication with it |
| `ClipboardPolicy.ReadyIff` | apps/server/server_clipboard.c:576-610 | A channel becomes ready if and only if the peer is there, it has a number and both greetings were sent |
| `ClipboardPolicy.RevokedIs` | apps/server/server_clipboard.c:1369-1398 | A revocation silences every peer and ends the publication |
| `ClipboardPolicy.UnheardIsNothing` | apps/server/server_clipboard.c:1035-1060 | No event is heard from a peer that is not there or not ready, nor on another channel, except for a cancellation |
| `ClipboardPolicy.ServedIff` | apps/server/server_clipboard.c:1242-1279 | The platform's request is sent if and only if it names a publication and its holder, a format on offer there, and there is room and a willing protocol |
| `ClipboardPolicy.FileServedIff` | apps/server/server_clipboard.c:1281-1335 | Likewise for a file request, which needs files on offer, a stream, known flags and a range in bounds |
| `ClipboardPolicy.ChunkTakenIff` | apps/server/server_clipboard.c:1180-1240 | A chunk for a named peer is taken if and only if it belongs to what that peer waits for |
| `ClipboardPolicy.LastChunkSends` | apps/server/server_clipboard.c:1107-1240 | The chunk that completes the data has exactly that data sent to the client, or is refused for its length |
| `ClipboardPolicy.UnnamedIff` | apps/server/server_clipboard.c:1137-1173 | A chunk that names no peer is for the only one that waits for its request, if there is exactly one |
| `ClipboardPolicy.AskedIff` | apps/server/server_clipboard.c:885-929 | With room, a client's request is passed to the platform if and only if the format is on offer, under the next request id; else it is refused and nothing is pending |
| `ClipboardPolicy.FileAskedIff` | apps/server/server_clipboard.c:931-997 | A file request is if and only if files are on offer, its flags are known and its range is in bounds |
| `ClipboardPolicy.StrayReply` | apps/server/server_clipboard.c:1072-1080 | Nothing comes of a client's data reply if and only if no data was asked for |
| `ClipboardPolicy.StrayFileReply` | apps/server/server_clipboard.c:1081-1092 | Nothing comes of a file reply if and only if no range of that stream was asked for |
| `ClipboardLimits.PendingLimits` | apps/server/server_clipboard.c:885-1335 | In every run a pending data request may take exactly the configured data limit, and a pending file request at most the configured range, but more than nothing if that is |
| `ClipboardLimits.NothingOversized` | apps/server/server_clipboard.c:999-1240 | In every run nothing answered to a client or delivered to the platform is longer than the configured limit of its kind |
| `ClipboardLimits.AskedIsAnswered` | apps/server/server_clipboard.c:885-929 | A client that asks for a format on offer, with room and a willing platform that then supplies good chunks, is answered once: with exactly their concatenation if that is within the data limit, and refused if not |
| `ClipboardLimits.RequestedIsDelivered` | apps/server/server_clipboard.c:1242-1279 | A platform whose request was taken is given what the client sends if that is within the data limit, and nothing if not |
| `ClipboardLimits.FileIsDelivered` | apps/server/server_clipboard.c:1281-1335 | Likewise for a range of a file, limited by the length asked for or by the configured one if none was |
| `ClipboardLimits.AskedFileIs` | apps/server/server_clipboard.c:931-997 | A client's request for a range is limited to it, or to the configured one if it names none |
| `ClipboardLosses.RevokeLoses` | apps/server/server_clipboard.c:1369-1398 | A revocation ends unanswered exactly what was pending, whatever the protocol reports meanwhile |
| `ClipboardLosses.StepLoses` | apps/server/server_clipboard.c:261-1398 | Every step ends unanswered exactly the operations `Victims` names from the state before it, as multisets, and no other; for a cancellation these are the one named and the others that the protocol reports |
| `ClipboardLosses.LostIff` | apps/server/server_clipboard.c:885-1398 | A step ends a client's operation unanswered if and only if it is a known format asked for while one is pending, a servable file request without a slot, or the removal of a peer or a revocation with such work pending; a platform's if and only if it is a data request of the owner while one is pending or that cannot be sent, a file request with a free slot that cannot be sent, an oversized answer, a cancellation by either side that names pending work, or a removal or revocation with such work pending |
| `ClipboardLosses.CancelTakesOtherIff` | apps/server/server_clipboard.c:1337-1367 | Cancelling one of a peer's two remote operations always ends that one unanswered; it ends the other one as well if and only if the protocol reports it as cancelled and the channel is ready, and otherwise leaves it pending |
| `ClipboardLosses.RepliedUnlessLost` | apps/server/server_clipboard.c:161-170 | In every run the operations opened are, as multisets, those answered or delivered, those taken away by the steps `StepLoses` names, and those pending |
| `ClipboardLosses.RepliedOnceIff` | apps/server/server_clipboard.c:1175-1179 | An operation opened once and no longer pending was replied to exactly once if and only if no step of the run took it away, and never twice |
| `ClipboardAnswers.PendingIsLatest` | apps/server/server_clipboard.c:1242-1279 | In every run a pending data request is the latest one sent to its client |
| `ClipboardAnswers.DeliveredIsAskedIff` | apps/server/server_clipboard.c:999-1028 | In every run, a data answer that is delivered goes to the latest request sent to its client, and it is for the oldest one in flight; the two are the same request if and only if no other is in flight |
| `ClipboardAnswers.InTurn` | apps/server/server_clipboard.c:1254-1278 | While no data request of a peer is given up before its answer, at most one is in flight, so every answer is delivered to the request it is for |
| `ClipboardChunks.UnscopedResolves` | apps/server/server_clipboard.c:1137-1173 | An id that a peer expects resolves to that peer alone: the ambiguity branch is unreachable |
| `ClipboardChunks.ChunksAnswerOnce` | apps/server/server_clipboard.c:1107-1240 | When nothing comes between the chunks: for any chunking the client gets exactly one answer, at the first failing, oversized or last chunk, and later chunks change nothing |
| `ClipboardChunks.GoodChunks` | apps/server/server_clipboard.c:1107-1240 | When nothing comes between them, good chunks that fit give back exactly their concatenation |
| `ClipboardChunks.AnswersAreSupplied` | apps/server/server_clipboard.c:1107-1240 | In every run, whatever comes between the chunks, a positive answer to a client is exactly the concatenation of the chunks accepted for its request, in order |
| `ClipboardExamples.CancelTakesBoth` | src/server/server_channels.c:3189-3215 | A run where cancelling a data request takes a pending file request with it, and the same run with a protocol that reports nothing, where the file request stays |
| `ClipboardExamples.LateAnswerIsMisdelivered` | apps/server/server_clipboard.c:1072-1082 | A run where the client's answer to a cancelled data request is delivered as the answer to the next one |
| `ClipboardExamples.AskedTwiceAnsweredOnce` | apps/server/server_clipboard.c:885-929 | A run where a client asks twice: the second request is refused, and the first one is over without an answer |
| `FuseTable.FinishKeeps` | apps/server/server_fuse.c:998-1006 | Replying and freeing a slot keeps requests = replies + waiting, and retires the slot's id |
| `FuseTable.AdvanceKeeps` | apps/server/server_fuse.c:695-717 | The next stage, in the order open, query, close that its kind prescribes, gets an id never used before, which retires the old one |
| `FuseTable.OneReplyOrOneSlot` | apps/server/server_fuse.c:369-395 | A request made once has one reply and no slot, or one slot and no reply |
| `FuseTable.AllReplied` | apps/server/server_fuse.c:2572-2625 | With nothing waiting the replies are exactly the requests |
| `FuseTable.RetiredStays` | apps/server/server_fuse.c:352-367 | An id that was used and left the table never comes back |
| `FuseTable.ReplyCame` | apps/server/server_fuse.c:998-1006 | A request whose slot gave it up has had its reply in between |
| `FuseTable.RetiredThroughEntry` | apps/server/server_fuse.c:352-389 | ... nor through a new request of the kernel |
| `FuseProvider.Provider.FindPending` | apps/server/server_fuse.c:352-367 | Finds the slot with the id, and reports none only if no slot has it |
| `FuseProvider.Provider.Enter` | apps/server/server_fuse.c:369-389 | A kernel request takes a free slot or is told that there is none |
| `FuseProvider.Provider.FinishError` | apps/server/server_fuse.c:998-1006 | Replies with a non-zero error if there is a request to reply to, and frees the slot |
| `FuseProvider.Provider.Callback` | apps/server/server_fuse.c:719-883 | Whatever completes inside a callback, to any depth, keeps the accounts and touches no request that has no id yet |
| `FuseProvider.Provider.HandOver` | apps/server/server_fuse.c:695-883 | The stage is handed over once under a new id and the old id is retired; the request may be complete on return |
| `FuseProvider.Provider.SubmitOrFail` | apps/server/server_fuse.c:695-883 | With a volume the next stage is handed over, with the error to remember; without one the request is replied to with an error and its slot freed |
| `FuseProvider.Provider.StartNotify` | apps/server/server_fuse.c:886-917 | A usable directory with a volume and a free slot gets a watch, which holds no kernel request; nothing is replied without one, and no request is disturbed |
| `FuseProvider.Provider.CancelNotify` | apps/server/server_fuse.c:920-950 | The first watch on the handle is over and its id retired; no kernel request is dropped, even if the callback freed the slot |
| `FuseProvider.Provider.FinishClose` | apps/server/server_fuse.c:1571-1608 | Ends a lookup, release or failed open with its one reply; an error remembered from an earlier stage wins over the close's own, and no error is lost |
| `FuseProvider.Provider.CompleteLookup` | apps/server/server_fuse.c:1610-1647 | Open, query, close: each completion hands over the next stage, or the closing of what was opened, or ends in the reply that `AfterLookup` names |
| `FuseProvider.Provider.CompleteOpen` | apps/server/server_fuse.c:1649-1696 | An open ends in its reply or, if it failed with the remote file open, hands over the closing of that file with the error remembered |
| `FuseProvider.Provider.CompleteNotify` | apps/server/server_fuse.c:1698-1719 | A watch completion replies to nobody; the watch is handed over again if its handle is usable and it did not fail |
| `FuseProvider.Provider.CompleteReadDir` | apps/server/server_fuse.c:1721-1763 | Queries again while there is more to list, and otherwise sends the one reply |
| `FuseProvider.Provider.CompleteTransfer` | apps/server/server_fuse.c:1788-1842 | A read, write, flush or lock completion is one reply: the error if there is one, success only without one, a denied lock as EAGAIN |
| `FuseProvider.FailedOpenCloses` | apps/server/server_fuse.c:1571-1696 | An open that fails with the remote file open closes it before the reply, which is the open's error whatever becomes of the close |
| `FuseProvider.LookupSucceedsLast` | apps/server/server_fuse.c:1571-1647 | A lookup finds its entry only when open, query and close have all succeeded |
| `FuseProvider.ListingEndsAtNoMore` | apps/server/server_fuse.c:1721-1763 | A listing is queried again as long as there is more and a volume to ask, and shown only when the remote side says there is no more |
| `FuseProvider.FailureStaysFailure` | apps/server/server_fuse.c:1571-1852 | No completion with an error ends in a successful reply, except a listing's, where ENOENT means no more |
| `FuseProvider.Provider.Complete` | apps/server/server_fuse.c:1770-1852 | A completion for an id in the table retires it for good and does what `AfterComplete` says of the slot: the next stage or the reply; any other, such as that of an earlier stage, is refused and changes nothing |
| `FuseProvider.Provider.ClipboardComplete` | apps/server/server_fuse.c:3057-3090 | An answer for a clipboard read that is current ends that read with the one reply that `ReadAnswer` names and retires its id; any other answer is refused and changes nothing |
| `FuseProvider.Provider.LookupName` | apps/server/server_fuse.c:1854-1894 | An immediate reply, EBUSY without a slot, or a lookup handed over at its opening, in the order of the checks |
| `FuseProvider.Provider.OpenNode` | apps/server/server_fuse.c:1934-2005 | Likewise for open and opendir, whose local and cached nodes are replied to at once |
| `FuseProvider.Provider.ReadFile` | apps/server/server_fuse.c:2025-2115 | Likewise for read, remote or from the clipboard |
| `FuseProvider.Provider.ReadClipboard` | apps/server/server_fuse.c:2047-2097 | Handed over once; a callback that reports a failure leaves the request with one reply, even if it had completed before |
| `FuseProvider.Provider.WriteFile` | apps/server/server_fuse.c:2123-2169 | Likewise for write: stale, read-only and empty writes are replied to at once |
| `FuseProvider.Provider.FlushFile` | apps/server/server_fuse.c:2171-2197 | Likewise for flush and fsync |
| `FuseProvider.Provider.SetLock` | apps/server/server_fuse.c:2213-2264 | Likewise for setlk: invalid locks and ranges are replied to at once |
| `FuseProvider.Provider.ReadDirectory` | apps/server/server_fuse.c:2303-2354 | Likewise for readdir: local and cached listings are replied to from a slot, remote ones are queried |
| `FuseProvider.Provider.ReleaseHandle` | apps/server/server_fuse.c:2356-2404 | Likewise for release and releasedir; before the closing is handed over the handle's watch is over and its id retired |
| `FuseProvider.Provider.AbortSelected` | apps/server/server_fuse.c:2805-2844 | Removing a device, peer or clipboard generation leaves no selected slot with a kernel request, and every selected request has had its reply |
| `FuseProvider.Provider.Stop` | apps/server/server_fuse.c:2675-2703 | After a stop no request waits: the replies are exactly the requests |
| `FuseProvider.Provider.Ask` | apps/server/server_fuse.c:1854-2404 | Every kernel entry starts its request as its plan says |
| `FuseProvider.Provider.Play` | apps/server/server_fuse.c:352-2844 | Any sequence of kernel requests, remote and clipboard completions and aborts: the requests are those of the run, each is replied to once or held by one slot, what is due after each request and completion has come about, an id retired on the way stays retired, and every later completion of it, of either sort, is refused |
| `FuseAnswers.SucceedsIff` | apps/server/server_fuse.c:1571-1852 | A completion ends a request with the reply of success of its kind if and only if everything its last stage needs is there and nothing failed before: an entry needs the child, data must fit, a write must be confirmed, a listing must be at its end |
| `FuseAnswers.ReadSucceedsIff` | apps/server/server_fuse.c:3057-3090 | A clipboard read succeeds if and only if the client sent what fits |
| `FuseAnswers.ProceedsIff` | apps/server/server_fuse.c:1610-1763 | A lookup or a listing goes on to its next stage, without an error remembered, if and only if everything that stage needs is there |
| `FuseAnswers.StartsIff` | apps/server/server_fuse.c:1854-2404 | A request succeeds at once if and only if it needs nothing remote, and begins, with the kind and the stage it begins with, if and only if it does |
| `FuseAnswers.RunAnswers` | apps/server/server_fuse.c:1571-2404 | In every run a request that found a slot and was given each of its stages without a failure and with everything it needs, or that needs none, has been replied to with the success of its kind |
| `FuseFaults.StartFault` | apps/server/server_fuse.c:1854-2404 | A request is told at once of the first check it fails, by error number; without one it succeeds or begins |
| `FuseFaults.EndFault` | apps/server/server_fuse.c:1571-1852 | A completion ends a request with the first fault, an error remembered coming before the later ones, unless it has a file to close first |
| `FuseFaults.QueryFault` | apps/server/server_fuse.c:1610-1647 | A lookup that could not query its file closes it all the same and remembers why |
| `FuseFaults.ReadFault` | apps/server/server_fuse.c:3057-3090 | A clipboard read that fails is told the client's error, or that the data did not fit |
| `FuseFaults.RunRefuses` | apps/server/server_fuse.c:1854-2404 | In every run a request that failed a check when it was made has been told which, or that no slot was free |
| `FuseFaults.RunFaults` | apps/server/server_fuse.c:1571-1852 | In every run a stage that was answered with a fault has had that fault replied, or its file is being closed with the fault remembered |
| `FuseDirectory.ReplyDirectory` | apps/server/server_fuse.c:1495-1569 | One reply holds the longest run of live entries from the offset that fits, each with the offset that follows it |
| `FuseDirectory.PageIsPrefix` | apps/server/server_fuse.c:1522-1564 | A page is a prefix of what is left and its last offset is where the rest begins |
| `FuseDirectory.PageEmptyIff` | apps/server/server_fuse.c:1522-1564 | A page is empty if and only if nothing is left or the next entry does not fit |
| `FuseDirectory.ReadingShowsEverything` | apps/server/server_fuse.c:1495-1569 | Following the offsets with pages that each hold at least one entry shows ".", "..", every live cached entry once and in order, and then an empty page |
| `FuseDirectory.PageFits` | apps/server/server_fuse.c:1522-1564 | The entries of a page fit its room together, and with the next live entry they would not |
| `FuseDirectory.ReplyFits` | apps/server/server_fuse.c:1514-1564 | The room is what was asked for, but at most four mebibytes |
| `FuseDirectory.LeftIff` | apps/server/server_fuse.c:1522-1564 | What is left at an offset holds exactly the entries shown from there on: the directory, its parent or itself, then each cached entry that has a node, with the offset that follows it |
| `FuseDirectory.LeftOrdered` | apps/server/server_fuse.c:1522-1564 | They come in the order of their offsets |
| `UriList.SizeIsExact` | apps/server/server_fuse.c:1124-1131 | The sizing pass adds up exactly the bytes the writing pass emits |
| `UriList.AppendFileUri` | apps/server/server_fuse.c:1107-1162 | Appends one percent-encoded line exactly when the path is absolute and the list stays within 16 MiB, filling the sized buffer exactly, and changes nothing otherwise |
| `UriList.PrintAll` | apps/server/server_fuse.c:1263-1327 | Prints every path in order, or fails as a whole |
| `UriList.DecodeEncode` | apps/server/server_clipboard_files.c:152-183 | Decoding undoes encoding exactly on paths without NUL, CR and LF, and fails on all others |
| `UriList.LineRoundTrip` | apps/server/server_clipboard_files.c:116-187 | A printed line decodes to its path if and only if the path is clean |
| `UriList.ReadUri` | apps/server/server_clipboard_files.c:116-187 | Accepts only local file URIs, with no authority or exactly localhost, and undoes percent-encoding |
| `UriList.ListRoundTrip` | apps/server/server_clipboard_files.c:332-357 | Printing any list of clean absolute paths, splitting it into lines and decoding them gives the list back |
| `UriList.BasenameIsTail` | apps/server/server_clipboard_files.c:189-198 | The name is the text after the last slash |
| `UriList.ClipboardFiles.TakeLine` | apps/server/server_clipboard_files.c:332-345 | Splits off one line with or without a carriage return, skipping blank lines and comments |
| `UriList.ClipboardFiles.OpenEntry` | apps/server/server_clipboard_files.c:200-252 | Opens one file; a failure leaves no descriptor open |
| `UriList.ClipboardFiles.ImportUriList` | apps/server/server_clipboard_files.c:310-377 | Replaces the shared files by those of the list as a whole, or leaves them as they were; every entry holds one descriptor and no descriptor leaks |
| `UriList.ImportPrinted` | apps/server/server_clipboard_files.c:310-377 | Up to the file limit, importing a printed list shares exactly those files in order |
| `UriText.SpellingIsRead` | apps/server/server_clipboard_files.c:152-183 | Whatever spells a path, byte by byte or by a percent sign and two digits in capitals or small letters, is read as that path |
| `UriText.UriIff` | apps/server/server_clipboard_files.c:116-187 | A line is read as a path if and only if it spells it after "file://" or "file://localhost", beginning with a slash |
| `UriText.PrintedText` | apps/server/server_fuse.c:1093-1162 | Letters, digits and "/-_.~" are printed as they are, every other byte as a percent sign and two digits in capitals |
| `UriText.LinesOfText` | apps/server/server_clipboard_files.c:332-345 | A raw line contributes itself without its carriage return, or nothing if it is empty or a comment, and the last one needs no line feed |
| `UriText.SharedIff` | apps/server/server_clipboard_files.c:310-377 | A list is shared as given files if and only if there are one to thirty-two of them and its lines name them, one each and in order, with the name after the last slash, of at most 255 bytes, and the size the disk reports |

## Left out

- Completion callbacks that submit new requests: the invariants and run theorems of the drive assume that there are none, because they fail when there are; `DriveResubmits` models such callbacks for the sweep over all slots alone, with a quiet cancel hook. `submit` hooks that complete before they return are not modelled.
- Events a cancel hook emits for devices (rather than requests), and entries to the FUSE provider other than completions while a callback runs.
- Clipboard callbacks that re-enter, other than the protocol's cancel call: they are assumed to return before the next entry. At apps/server/server_clipboard.c:913-927 a platform that answered before returning a failure would make two responses.
- Replies to device announcements, the platform's `remove` and `remove_peer` notifications, and the drive runtime's volume listing: calls out with no effect on the modelled state.
- Allocation failure, structure version and size checks, and configuration defaults.
- Wrap-around of 64-bit identifier and generation counters: they are unbounded here.
- Node, handle and inode tables of the FUSE provider, which appear as arbitrary answers, so reply contents other than the error codes are not tied to them; getattr, access, statfs and forget, which reply at once.
- Decoding of directory entries and file metadata, and how file descriptors are encoded for the wire.
- Recognition of clipboard formats by MIME type or name; formats arrive already classified.
- `fuse_add_direntry` record sizes: directory paging takes an arbitrary size per name.
- The publication of clipboard files as nodes (apps/server/server_fuse.c:1170-1344) beyond printing their list, and reading file ranges (apps/server/server_clipboard_files.c:388-454).
- `server_host_run_once` beyond poll preparation and frame dispatch: accepting, resizing, reaping and provider dispatch.
- The protocol codecs, command-line tools, keymaps and fuzzers.
- FuseProvider.Provider.Callback: covers finite nesting only; a callback that never returns is not modelled.
