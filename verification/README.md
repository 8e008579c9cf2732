# Verified core of YTMDL

This project models the small stateful protocols of YTMDL, the music server (Go, `backend/`) and
its player app (Swift, `apple/`), and proves what every run of them keeps.

Each protocol comes in two forms. A value machine (`*Model.dfy`) has a state, an `Event` datatype
and a `Step` function; a sequence of events is a run, and since every atomic section, callback,
reply and clock reading is an event of its own, every interleaving is some run. The theorems are
about all runs. Beside it stands the object the source has (a class with the same fields), whose
methods update those fields in place and are each proved equal to the machine's step. For the
offline library and the player a driver method replays any sequence of events on a new object, so
the theorems about runs are about the objects too. Everything the source leaves to the outside
(file errors, network answers, map iteration order, random draws, the clock) is an argument of the
event. Beside what every run keeps, the `*Effects`, `*Progress`, `*Live`, `*Delivery`, `*Session`,
`*History` and `*Reading` modules say what each operation achieves, which a
machine that did nothing would not meet.

- **Offline library** (`Offline*.dfy`): records move between queued, downloading, paused, ready and
  failed while callbacks of cancelled transfers still arrive; `pump` evicts through `remove`, which
  pumps again.
- **Device sign-in** (`Device*.dfy`): grants, the two halves of a poll around the unlocked session
  exchange, the sliding-window quotas, and the polling client, in the shape of section 3.5 of
  RFC 8628.
- **KeyedMutex** (`Mutex*.dfy`, `KeyedMutex.dfy`): reference-counted lock objects that are
  deleted and made again, as small steps of any number of threads.
- **Favourites** (`Favorites*.dfy`): one client and one server with mutations, loads, replies in any
  order, revisions, generations and lost replies.
- **Login limiter** (`Limiter*.dfy`): the filtered lists against the whole failure history.
- **Shutdown** (`Shutdown*.dfy`): one stamped budget in nanoseconds, the stop sequence, seal, flush,
  idle wait and close, beside the health drainer.
- **Playback** (`QueueModel.dfy`, `PlaybackQueue.dfy`, `Player*.dfy`): the queue over any element
  type, and the player with its current and its prefetched item, generations and callbacks. Items
  are reduced to the track id they were made for.
- **Transfer budget** (`BudgetModel.dfy`, `TransferBudget.dfy`): a compare-and-swap maximum and a
  one-shot cancellation, one atomic access per step.
- **Password hashes** (`Base64.dfy`, `PasswordModel.dfy`): printing and parsing of the encoded
  string, with unpadded base64 (sections 4 and 3.2 of RFC 4648); the key function of RFC 9106 is a
  parameter.
- **Artist identity** (`ArtistModel.dfy`, `MergeGuard.dfy`): pair classification, winner selection
  and the checks before a manual merge.
- **Equaliser** (`Equalizer*.dfy`): two packed words, built with bitwise or and read with shifts and
  masks, and torn reads between the main and the render thread.

Where the code falls short of what its comments or names suggest, the model keeps the code, a
lemma says exactly when the property holds, and another one shows an input on which it does not:

- A removal whose files cannot be deleted cancels the transfer but leaves the record, so a completion
  that was already on its way still publishes; clearing the account behaves alike:
  `OfflineRemoval.RemovalStopsAttemptExactly`, `ClearingStopsAttemptExactly` and
  `CancelledTransferCanPublish`.
- A raised storage limit is not acted upon until the next call or callback, although a record waits and
  there is room: `OfflineProgress.BecomesIdleExactly`, `RaisedLimitIsNotActedUpon`.
- Favourites can be wrong about a track that is not pending, after a lost reply or a mutation that
  arrives late. In every run the client is wrong about such a track exactly when it shows otherwise
  than the last mutation that reached the server asked for, and both moves that cause it are judged
  by what the client showed before: `FavoritesExact.FavoritesAgreeExactly`,
  `LateMutationAgreesExactly`, `LostReplyAgreesExactly`, with a run for each in `FavoritesClient`.
- `retryAfter` is measured from the oldest counted failure. Waiting it out is enough exactly when fewer
  than the maximum are later than that one; more can be counted, because several attempts may be
  admitted before any of them fails: `LimiterModel.RetryAfterSufficesExactly`, `WaitCanBeTooShort`.
- Appending a different track where the queue wraps around, while prefetching is not possible, leaves
  a prefetched item that is not the next track; nothing else does, and it is never promoted:
  `PlayerProofs.StandbyGoesStaleExactly`, `StaleStandbyOnlyAfterWrap`, `StaleStandbyIsPossible`.
- A parallelism outside eight bits is read modulo 256 instead of being refused:
  `PasswordModel.ParsePrintExactly`, `ParallelismIsTruncated`.
- The base64 reader accepts texts the writer never produces: `Base64.EncodeOfDecode`,
  `StrayBitIsAccepted`.
- The merge guard looks for the `artist:` prefix without trimming first, the resolver trims:
  `MergeGuard.NotionsDifferExactly`, `GuardAndResolverAgreeExactly`, `GuardAndResolverDisagree`.

## Model

| member | source | states |
|---|---|---|
| OfflineProofs.ReadyOnlyThroughLastAttempt | apple/App/OfflineLibrary.swift:448-477 | in every run a record becomes ready only through a completion carrying the transfer id `pump` gave that record last, for a stored file within the size limit, while the record was downloading or paused |
| OfflineProofs.RetiredNeverPublishes | apple/App/OfflineLibrary.swift:448-453 | an attempt no record and no task refers to stays so in every continuation, and its completion changes nothing |
| OfflineProofs.DetachRetiresAttempts | apple/App/OfflineLibrary.swift:254-271 | after logging out, no completion of an attempt of that account issued before ever changes the library, whatever happens in between, except the attempt whose file a record has |
| OfflineProofs.RemoveRetiresAttempts | apple/App/OfflineLibrary.swift:318-328 | after a removal that deleted the record, no earlier attempt ever publishes, even when the track is enqueued again |
| OfflineProofs.SingleTransfer | apple/App/OfflineLibrary.swift:416-418 | at most one record is downloading in every reachable state |
| OfflineProofs.BudgetNeverRaised | apple/App/OfflineLibrary.swift:194-195 | no step raises the ready bytes above the larger of what they were and the limit |
| OfflineProofs.ReachableInv | apple/App/OfflineLibrary.swift:140-167 | ids unique, ready files non-empty, every live task owned by an unfinished record, every remembered attempt the one issued last |
| OfflineEviction.EvictsOnlyCache | apple/App/OfflineLibrary.swift:420-423 | the recursion of pump and remove evicts only automatic, ready, unprotected records of the current account |
| OfflineEviction.PumpDeletesEvictions | apple/App/OfflineLibrary.swift:416-439 | pump is exactly the deletion of its evictions, with at most queued records started or failed beside it |
| OfflineEviction.EvictsOldestFirst | apple/App/OfflineLibrary.swift:422-423 | an evicted record is no newer than those evicted after it and than every evictable survivor |
| OfflineEviction.EvictsOnlyWhileFull | apple/App/OfflineLibrary.swift:421-424 | before each eviction the budget was still exhausted |
| OfflineRemoval.RemovalStopsAttemptExactly | apple/App/OfflineLibrary.swift:318-328 | a removal stops the live attempt if and only if the record's files could be deleted |
| OfflineRemoval.ClearingStopsAttemptExactly | apple/App/OfflineLibrary.swift:331-346 | clearing the account stops a live attempt if and only if the folder could be listed and the record's files could be deleted |
| OfflineRemoval.CancelledTransferCanPublish | apple/App/OfflineLibrary.swift:318-328 | a run from the empty library in which a file error lets the cancelled transfer publish |
| OfflineRemoval.PumpKeepsAttempt | apple/App/OfflineLibrary.swift:416-439 | pump leaves a running or paused attempt acceptable |
| OfflineEviction.OldestIsFirst | apple/App/OfflineLibrary.swift:422 | among records of the same date the first one is evicted |
| OfflineProgress.PumpStartsFirst | apple/App/OfflineLibrary.swift:416-436 | with room left and nothing downloading, pump starts the first queued record whose account has a client, under the task it still has or a fresh one, or fails it if the request cannot be made, and changes no other record |
| OfflineProgress.PumpServesFirstInLine | apple/App/OfflineLibrary.swift:416-439 | after its evictions pump starts that record if they made room, leaves it queued if the next one to evict cannot be deleted, and fails it otherwise |
| OfflineProgress.NeverIdle | apple/App/OfflineLibrary.swift:416-439 | in every run without file errors, refused requests and changes of the limit, some record is downloading whenever a queued record of a configured account could start and there is room |
| OfflineLive.DownloadsAreLive | apple/App/OfflineLibrary.swift:416-436 | in every run in which the files that should go could be deleted, a downloading record has exactly the transfer it remembers |
| OfflineLive.NeverWithoutTransfer | apple/App/OfflineLibrary.swift:416-439 | so in every such run a transfer is held whenever a queued record could start and there is room |
| OfflineProgress.BecomesIdleExactly | apple/App/OfflineLibrary.swift:152 | an event without file errors leaves a busy library idle if and only if it raises the limit above the ready bytes while a record waits |
| OfflineProgress.RaisedLimitIsNotActedUpon | apple/App/OfflineLibrary.swift:152 | a library that a raised limit leaves idle |
| OfflineProgress.PumpAgainEndsIdling | apple/App/OfflineLibrary.swift:423-438 | the pump scheduled after a failure gets any library going again |
| OfflineProgress.CompletionStartsNext | apple/App/OfflineLibrary.swift:448-477 | in every run a completion with a record waiting and room left leaves exactly one record downloading |
| OfflineEffects.FinishEffect | apple/App/OfflineLibrary.swift:448-476 | a completion of the remembered attempt publishes the file if it has at least one byte, fits both limits and could be stored, and fails the record otherwise |
| OfflineEffects.ProgressEffect | apple/App/OfflineLibrary.swift:440-447 | progress is noted and changes nothing else, unless it announces more than a file may have or than is left of the limit: then the attempt is given up |
| OfflineEffects.FailEffect | apple/App/OfflineLibrary.swift:489-496 | a failure of the running attempt fails the record and drops its task |
| OfflineEffects.StaleCallbackEffect | apple/App/OfflineLibrary.swift:440-453 | callbacks of a transfer that is not the record's any more change nothing |
| OfflineEffects.PauseEffect | apple/App/OfflineLibrary.swift:312-317 | a paused record keeps its attempt and its task |
| OfflineEffects.EnqueueEffect | apple/App/OfflineLibrary.swift:296-311 | at most 500 tracks are handled, fewer only if the library is full: unknown ones get a queued record at the end, known ones are pinned and queued again unless running or present |
| OfflineEffects.ReconcileEffect | apple/App/OfflineLibrary.swift:398-413 | after a launch exactly the records whose remembered attempt survived have their task again, and downloads without one are paused |
| OfflineEffects.RemoveEffect | apple/App/OfflineLibrary.swift:318-328 | a removal takes away the record and its task, and of the others only evictable records |
| OfflineEffects.ClearEffect | apple/App/OfflineLibrary.swift:331-346 | of the account exactly the records whose files stayed behind may remain, and nothing of another account goes |
| OfflineEffects.SettingsEffect | apple/App/OfflineLibrary.swift:253 | choosing a profile, protecting tracks and the limit do just that, and a launch starts nothing until the transfers are known |
| OfflineEffects.LoggedOutStaysQuiet | apple/App/OfflineLibrary.swift:254-271 | from logging out until the account is configured again nothing of it is queued or downloading, whatever happens |
| OfflinePinned.PinnedFilesStay | apple/App/OfflineLibrary.swift:420-423 | a pinned or protected ready file stays through every run that does not remove it, clear the account, ask for it again or take the protection away |
| OfflineStore.OfflineLibrary.Pump | apple/App/OfflineLibrary.swift:416-439 | the mutually recursive method on the fields equals the machine's pump and terminates |
| OfflineStore.OfflineLibrary.Remove | apple/App/OfflineLibrary.swift:318-328 | equals the machine's removal, including the file error branch |
| OfflineStore.OfflineLibrary.Enqueue | apple/App/OfflineLibrary.swift:296-311 | equals the machine's step: at most 500 tracks a call, 10000 records in all, ready and running ones kept |
| OfflineStore.OfflineLibrary.EnqueueBatch | apple/App/OfflineLibrary.swift:298-309 | the loop over the tracks equals the recursive definition from every position |
| OfflineStore.OfflineLibrary.Pause | apple/App/OfflineLibrary.swift:312-317 | equals the machine's step |
| OfflineStore.OfflineLibrary.Detach | apple/App/OfflineLibrary.swift:254-271 | the loop pauses and disowns exactly the unfinished records of the account |
| OfflineStore.OfflineLibrary.ClearCurrent | apple/App/OfflineLibrary.swift:331-346 | equals the machine's step, whichever files stay behind |
| OfflineStore.OfflineLibrary.Progress | apple/App/OfflineLibrary.swift:440-447 | equals the machine's step; a stale task id changes nothing |
| OfflineStore.OfflineLibrary.Finish | apple/App/OfflineLibrary.swift:448-477 | equals the machine's step for every delivery |
| OfflineStore.OfflineLibrary.Fail | apple/App/OfflineLibrary.swift:489-496 | equals the machine's step; a stale task id changes nothing |
| OfflineStore.OfflineLibrary.Reconcile | apple/App/OfflineLibrary.swift:398-413 | adopts exactly the surviving transfers their records still remember and pauses lost downloads |
| OfflineStore.Replay | apple/App/OfflineLibrary.swift:141-167 | any sequence of calls and callbacks takes a new library object through the run of the machine, so the invariant holds of it |
| DeviceProtocol.ExactlyOnceExchange | backend/internal/auth/devices.go:194-241 | in every interleaving of polls, confirms, prunes and failed exchanges each grant yields at most one session, for the user whose confirmation is on record |
| DeviceProtocol.ApprovalIsFinal | backend/internal/auth/devices.go:179-186 | once a grant is confirmed its approver never changes |
| DeviceProtocol.CodeSelectsOneGrant | backend/internal/auth/devices.go:158-163 | no two unconfirmed grants share a code, so preview and confirm select one grant whatever the map order |
| DeviceProtocol.PutBackIsSafe | backend/internal/auth/devices.go:230-239 | a failed exchange puts the grant back unchanged, never beside a copy, and only before it expires |
| DeviceProtocol.AnswersAreSpaced | backend/internal/auth/devices.go:208-217 | answers other than slow_down for one grant are at least the interval apart |
| DeviceProtocol.RunInv | backend/internal/auth/devices.go:107-241 | code uniqueness, one place for each grant, recorded approvals and pacing hold in every reachable state |
| DeviceDelivery.StartInvalidExactly | backend/internal/auth/devices.go:107-111 | a start is invalid if and only if its name is empty, longer than 64 or broken by a line end or tab, and then changes nothing |
| DeviceDelivery.StartSucceeds | backend/internal/auth/devices.go:121-142 | a start that is not refused is given the first of its first eight codes that no unexpired grant shows |
| DeviceDelivery.StartFailsExactly | backend/internal/auth/devices.go:121-144 | it fails if and only if no token or none of eight codes can be had, and has used up one of the address's starts |
| DeviceDelivery.OfferStays | backend/internal/auth/devices.go:107-220 | in every interleaving a started grant keeps its code, name and expiry until it is confirmed or expires, polled or not |
| DeviceDelivery.PreviewAnswersExactly | backend/internal/auth/devices.go:149-165 | a preview that is not refused shows the name and expiry of the grant the code is for and is invalid if there is none |
| DeviceDelivery.ConfirmAnswersExactly | backend/internal/auth/devices.go:167-188 | a confirmation that is not refused approves the grant the code is for, for exactly this user and session, and no other |
| DeviceDelivery.FailedExchangeReturnsGrant | backend/internal/auth/devices.go:230-239 | in every run a failed exchange before the expiry puts the grant back under its key, unchanged |
| DeviceDelivery.ReturnedGrantIsTakenAgain | backend/internal/auth/devices.go:230-239 | and the device's next poll after its interval and before the expiry takes the same approval again, whatever others do |
| DeviceDelivery.IssuedExactly | backend/internal/auth/devices.go:221-241 | a settled exchange issues a session of the approver if and only if the approving session and user still stand and the session could be created |
| DeviceDelivery.ApprovedDeviceIsSignedIn | backend/internal/auth/devices.go:194-241 | in every run a confirmed grant is taken by its next rested poll, and when the exchange succeeds a session of the recorded approver is issued |
| DeviceDelivery.SlowedExactly | backend/internal/auth/devices.go:208-217 | the next poll of a grant is told slow_down if and only if it comes less than five seconds after an answer, or ten after a slow_down |
| DevicePolling.SolePollerIsNeverSlowed | apple/App/AppModel.swift:102-121 | a client that alone polls its grant and waits its interval after each answer is never told slow_down |
| DevicePolling.RaisedIntervalSuffices | backend/internal/auth/devices.go:208-213 | after a slow_down, a client that waits its raised interval is not slowed again unless somebody else polled |
| DevicePolling.CompleteDeviceSignIn | apple/App/AppModel.swift:102-121 | the client's loop: every poll waits the interval in force, slow_down raises it by five, and it ends by approval, refusal or expiry |
| DevicePolling.PatientClientIsNeverSlowed | apple/App/AppModel.swift:102-121 | when all polls of a grant are requests of that loop, whatever requests or answers are lost, the client is a sole patient poller and is never told slow_down |
| DevicePolling.WaitCountsSlowdowns | apple/App/AppModel.swift:102-121 | before a request the client waits its first interval, and after n slow_downs five seconds more for each, up to thirty |
| DeviceQuota.QuotaIsSlidingWindow | backend/internal/auth/devices.go:49-98 | of the quota machine by itself: the kept list of a key is its admission history in the window, since the key was last dropped to make room; no window holds more than the maximum; at most 1024 keys are kept |
| DeviceQuota.AdmissionDropsExactly | backend/internal/auth/devices.go:86-98 | an admission is noted at the end of its key's list, and another key is lost if and only if it is the one dropped for a new key while 1024 are held |
| DeviceQuota.RecentExactly | backend/internal/auth/devices.go:66-71 | an admission counts for less than five minutes |
| DeviceAdmission.RunIsQuotaRun | backend/internal/auth/devices.go:107-220 | every run of the sign-in protocol is a run of the quota machine on the start map and on the confirmation map |
| DeviceAdmission.AdmissionsAreSpread | backend/internal/auth/devices.go:49-98 | after every run of the protocol the kept list of a key is its admissions in the window, and no window holds more than the maximum |
| DeviceAdmission.KeysAreBounded | backend/internal/auth/devices.go:81-98 | after every run of the protocol either map holds at most 1024 keys |
| DeviceAdmission.RefusedExactlyWhenFull | backend/internal/auth/devices.go:86-89 | the next section that asks for a key is refused if and only if its admissions already fill the window |
| DeviceAdmission.StartLimitedExactly | backend/internal/auth/devices.go:115-120 | a start with a valid name is told to wait if and only if the table or the window of its address is full |
| DeviceAdmission.CodeLimitedExactly | backend/internal/auth/devices.go:152-175 | a preview or confirmation is told to wait if and only if its user has asked ten times in the window |
| DeviceService.DeviceGrants.Prune | backend/internal/auth/devices.go:49-79 | the loops equal the pure prune of grants and of both attempt maps |
| DeviceService.DeviceGrants.StartDevice | backend/internal/auth/devices.go:107-145 | equals the machine's start for every eviction, token and sequence of drawn codes |
| DeviceService.DeviceGrants.PreviewDevice | backend/internal/auth/devices.go:149-165 | equals the machine's preview; the grant shown is one that matches the code |
| DeviceService.DeviceGrants.ConfirmDevice | backend/internal/auth/devices.go:167-188 | equals the machine's confirmation |
| DeviceService.DeviceGrants.PollDevice | backend/internal/auth/devices.go:194-220 | equals the section before the exchange: the approved grant leaves the table |
| DeviceService.DeviceGrants.ReturnGrant | backend/internal/auth/devices.go:233-237 | equals the section after a failed exchange: before its expiry the grant is stored under its key again |
| DeviceService.Compact | backend/internal/auth/devices.go:66-71 | the compaction loop keeps exactly the attempts in the window, in order |
| DeviceService.PruneRecords | backend/internal/auth/devices.go:64-79 | every key keeps its recent attempts and keys without any are dropped |
| DeviceService.DeviceAdmit | backend/internal/auth/devices.go:86-98 | admits if and only if there is room for the key, evicting another key when the map is full |
| DeviceService.PickCode | backend/internal/auth/devices.go:125-143 | the first drawn code that no grant shows, within the attempts allowed |
| DeviceService.FirstMatch | backend/internal/auth/devices.go:159-163 | finds a matching unconfirmed grant if and only if there is one |
| MutexRuns.MutualExclusionPerKey | backend/internal/library/locks.go:27-47 | in every interleaving at most one thread holds a key, whichever lock objects the key had before |
| MutexRuns.CallsShareStoredObject | backend/internal/library/locks.go:27-47 | every call waiting for, holding or releasing a key refers to the object stored now, whose count is the number of those calls |
| MutexRuns.KeysAreCalls | backend/internal/library/locks.go:80-84 | the map holds exactly the keys with a call in progress, so it is empty when there is none |
| MutexRuns.WaiterIsBlockedOnlyByHolder | backend/internal/library/locks.go:27-47 | a waiting call can proceed unless another thread holds its key |
| MutexRuns.FailedTryLockChangesNothing | backend/internal/library/locks.go:51-77 | a failing TryLock meets a key in use and changes nothing |
| MutexRuns.CallsAdvance | backend/internal/library/locks.go:27-77 | every event takes the call of its own thread one phase on, and no other |
| MutexRuns.UnlockLetsWaitersGo | backend/internal/library/locks.go:38-47 | releasing a key lets every call waiting for it go on |
| KeyedMutexObjects.KeyedMutex.Enter | backend/internal/library/locks.go:27-37 | the section of Lock under the map's mutex equals the machine's step on heap objects |
| KeyedMutexObjects.KeyedMutex.Leave | backend/internal/library/locks.go:38-47 | the section of unlock counts out and deletes the entry exactly with its last call |
| KeyedMutexObjects.KeyedMutex.TryLock | backend/internal/library/locks.go:51-77 | equals the machine's step for every answer a mutex may give |
| KeyedMutexObjects.KeyedMutex.Len | backend/internal/library/locks.go:80-84 | the number of stored keys |
| FavoritesProofs.FavoritesAgree | apple/App/AppModel.swift:122-148 | once a load of the session was applied, a track that is not pending and was not changed unheard is shown as favourite if and only if the server has it |
| FavoritesProofs.ReliableFavoritesAgree | apple/App/AppModel.swift:179-191 | when every mutation that took effect is heard to have succeeded, that holds for every track not pending |
| FavoritesExact.FavoritesAgreeExactly | apple/App/AppModel.swift:122-191 | in every run, once a load of the session was applied, the client is wrong about a track that is not pending if and only if a mutation changed it and the client shows otherwise than the last of them asked for |
| FavoritesExact.LastEffectDecides | apple/App/AppModel.swift:179-191 | from one effect on a track to the next, through loads, replies and sessions, the client is right about it if and only if it shows what the first asked for |
| FavoritesExact.LateMutationAgreesExactly | apple/App/AppModel.swift:179-191 | when a mutation nobody awaits reaches the server, the client is right afterwards if and only if it already showed what the mutation asks for |
| FavoritesExact.LostReplyAgreesExactly | apple/App/AppModel.swift:184-190 | when the reply to an effective mutation is lost, the track is no longer pending, and the client is right if and only if it already showed what was asked for |
| FavoritesProofs.StepInv | apple/App/AppModel.swift:122-191 | every move of client, server and network keeps the agreement of favourites, pending set and every answer still under way |
| FavoritesSession.PendingExactly | apple/App/AppModel.swift:179-186 | in every run a track is pending if and only if a mutation of it has been sent and not been answered |
| FavoritesSession.TogglesAgainExactly | apple/App/AppModel.swift:179-186 | a second mutation of a track is sent if and only if the client is online and the first is not under way any more |
| FavoritesSession.ReplyShows | apple/App/AppModel.swift:185-191 | a success shows exactly its effect and moves the revision; an error shows nothing; both end the mark |
| FavoritesSession.LoadBegins | apple/App/AppModel.swift:122-128 | a load begins if and only if the client is online and nothing is being loaded, with a token no other load has |
| FavoritesSession.LoadReplyEnds | apple/App/AppModel.swift:128-148 | the answer to the current load ends it whether it succeeded or not, and its favourites are shown if and only if no mutation was heard of since |
| FavoritesSession.OneLoadIsCurrent | apple/App/AppModel.swift:122-128 | in every run at most one load under way is the current one |
| FavoritesSession.SessionsAreIsolated | apple/App/AppModel.swift:292-302 | ending a session shows nothing of it, and no answer with an earlier token ever changes favourites or pending tracks again |
| FavoritesClient.LostReplyDisagrees | apple/App/AppModel.swift:185-190 | a run in which a lost success reply leaves a track wrong that is not pending |
| FavoritesClient.LateMutationDisagrees | apple/App/AppModel.swift:179-191 | a run in which a mutation of an earlier session reaches the same account after the load |
| FavoritesClient.AppModel.ToggleFavorite | apple/App/AppModel.swift:179-186 | the segment before the request equals the machine's step |
| FavoritesClient.AppModel.ToggleFinished | apple/App/AppModel.swift:184-191 | the segment after the reply equals the machine's step, ignored when the session changed |
| FavoritesClient.AppModel.LoadLibrary | apple/App/AppModel.swift:122-128 | the segment that captures generation and revision equals the machine's step |
| FavoritesClient.AppModel.LibraryLoaded | apple/App/AppModel.swift:135-148 | the answer is applied only if neither the session nor the revision moved |
| FavoritesClient.AppModel.EndSession | apple/App/AppModel.swift:292-302 | clears the favourites and starts a new generation |
| LimiterModel.DeniesExactly | backend/internal/auth/limiter.go:41-71 | in every run Allow denies if and only if at least the maximum of failures since the last success lie in the window; filtering and cleanup never matter |
| LimiterHistory.DeniesExactlyByEvents | backend/internal/auth/limiter.go:20-71 | the same with the failures counted from the events alone, and with five attempts in five minutes when nothing positive is configured |
| LimiterHistory.CleanupKeepsExactly | backend/internal/auth/limiter.go:94-117 | right after a cleanup the limiter holds exactly the keys with a failure that still counts, with those failures |
| LimiterModel.RetryAfterIsHonoured | backend/internal/auth/limiter.go:61-68 | every Allow of the key before t plus retryAfter, with no success in between, is denied too |
| LimiterModel.RetryAfterSufficesExactly | backend/internal/auth/limiter.go:61-68 | if nothing more fails, Allow at t plus retryAfter admits if and only if fewer than the maximum of the counted failures are later than the oldest of them |
| LimiterModel.WaitCanBeTooShort | backend/internal/auth/limiter.go:61-84 | a run in which more than the maximum are counted and Allow at the promised time still denies |
| LimiterModel.WaitCanSufficeBeyondTheMaximum | backend/internal/auth/limiter.go:61-84 | one in which as many are counted, two at the same instant, and the promised wait is enough |
| LimiterObjects.Limiter.Allow | backend/internal/auth/limiter.go:41-71 | equals the machine's step and answer on the stored record |
| LimiterObjects.Limiter.RecordFailure | backend/internal/auth/limiter.go:74-85 | appends to the record of the key, made when missing |
| LimiterObjects.Limiter.RecordSuccess | backend/internal/auth/limiter.go:88-92 | forgets the key |
| LimiterObjects.Limiter.Cleanup | backend/internal/auth/limiter.go:94-117 | one sweep filters every record and drops exactly those left empty |
| LimiterObjects.Filter | backend/internal/auth/limiter.go:51-59 | the loop keeps exactly the later timestamps, in order |
| LimiterObjects.FilterInPlace | backend/internal/auth/limiter.go:51-59 | over one backing array the loop never overwrites a timestamp still to be read |
| ShutdownModel.BudgetIsOrdered | backend/cmd/server/main.go:138-181 | a positive configured value is the whole budget; start, drain, workers and final deadline are in order, each tail phase gets a quarter up to five seconds, the drain at least half |
| ShutdownModel.StartedAndStampedOnce | backend/cmd/server/main.go:159-206 | in every interleaving the stop sequence starts and the deadline is stamped at most once, never to change |
| ShutdownModel.ClosedMeansQuiescentForever | backend/cmd/server/main.go:849-926 | a closed database means all four components stopped in their order, persistence sealed and idle, and nothing queued or written ever after |
| ShutdownModel.ClosesExactlyWhenSafe | backend/cmd/server/main.go:883-905 | close releases the database if and only if the workers came down in time and the pool reported rest |
| ShutdownModel.StopsInOrder | backend/cmd/server/main.go:187-206 | scheduler, subscriptions, manager and library service are stopped in this order, the workers count as down if and only if all four are, and persistence is sealed only behind that |
| ShutdownModel.ShutdownBeginsAtOnce | backend/cmd/server/main.go:824-860 | a signal, and close at the latest, stamps the deadline from that moment and has the stop sequence running |
| ShutdownModel.WaitsAreKept | backend/cmd/server/main.go:212-228 | neither serve nor close goes on before all four have stopped or the deadline of its own wait has passed |
| ShutdownModel.ClosedLosesNothing | backend/cmd/server/main.go:849-905 | when the database is closed every health snapshot handed in before sealing has been written |
| ShutdownModel.ShutdownEndsByItsDeadline | backend/cmd/server/main.go:212-228 | once the stamped deadline has passed, the main goroutine gets to the end by at most seven moves of its own, whatever workers, stop sequence and drainer do |
| ShutdownObjects.Application.BeginShutdownBudget | backend/cmd/server/main.go:159-164 | stamps on first use and returns the same deadline ever after |
| ShutdownObjects.Application.DrainDeadline | backend/cmd/server/main.go:170-172 | two reserves before the one stamped deadline |
| ShutdownObjects.Application.WorkersDeadline | backend/cmd/server/main.go:179-181 | one reserve before the one stamped deadline |
| ShutdownObjects.Application.StopWorkers | backend/cmd/server/main.go:187-206 | starts the sequence only when it was not started |
| QueueModel.LabelsFollow | apple/Sources/YTMDLCore/Models.swift:203-243 | an edit of the queue with every entry labelled by its position is the same edit: labels tell what happens to occurrences |
| QueueModel.EditKeepsPlayingOccurrence | apple/Sources/YTMDLCore/Models.swift:209-243 | every edit of a non-empty queue keeps the playing occurrence, not merely its id |
| QueueModel.ApplyIsValid | apple/Sources/YTMDLCore/Models.swift:203-243 | every edit keeps at most 500 tracks and a valid index |
| QueueModel.NavigationIsValid | apple/Sources/YTMDLCore/Models.swift:236-242 | next, previous and select keep a valid index |
| QueueModel.ReplaceIsValid | apple/Sources/YTMDLCore/Models.swift:195-202 | replacing keeps that too and plays the selected track, also beyond the first 500 |
| QueueModel.MoveKeepsOthersInOrder | apple/Sources/YTMDLCore/Models.swift:221-230 | moving conserves the occurrences and the order of the others |
| QueueModel.MoveBackRestores | apple/Sources/YTMDLCore/Models.swift:221-230 | moving there and back restores tracks and index |
| QueueModel.EditsConserve | apple/Sources/YTMDLCore/Models.swift:203-243 | what every effective edit does to the multiset of tracks and to the played part; playing next is a move |
| QueueModel.ReorderedConserves | apple/Sources/YTMDLCore/Models.swift:243 | a shuffle by any permutation conserves the upcoming tracks |
| QueueEffects.InsertedPlaysNext | apple/Sources/YTMDLCore/Models.swift:204-208 | an inserted track stands right behind the one that plays and plays next, and everything else keeps its place and order |
| QueueEffects.AppendedPlaysLast | apple/Sources/YTMDLCore/Models.swift:203 | an appended track stands at the end and plays next only if nothing else did |
| QueueEffects.ChosenPlaysNext | apple/Sources/YTMDLCore/Models.swift:216-220 | a later entry chosen to play next does, and the others keep their order |
| QueueEffects.RemovedIsGone | apple/Sources/YTMDLCore/Models.swift:210-215 | a removal takes out that entry alone; the one that plays cannot be removed |
| QueueEffects.MovedIsThere | apple/Sources/YTMDLCore/Models.swift:223-230 | a moved entry stands where it was asked for; impossible positions do nothing |
| QueueEffects.ClearedEndsHere | apple/Sources/YTMDLCore/Models.swift:231-235 | clearing ends the queue behind the track that plays |
| QueueEffects.ShuffledInOrder | apple/Sources/YTMDLCore/Models.swift:243 | shuffling plays the upcoming tracks in the order that was drawn |
| QueueEffects.ReplacedShowsWindow | apple/Sources/YTMDLCore/Models.swift:195-202 | a replaced queue shows at most 500 consecutive tracks, from the first or from the selected one beyond the first 500 |
| QueueEffects.NextAndPrevious | apple/Sources/YTMDLCore/Models.swift:236-241 | going on and going back undo each other inside the queue; at its ends going on wraps around if it repeats and going back stays |
| PlaybackQueueObjects.PlaybackQueue.ReplaceAll | apple/Sources/YTMDLCore/Models.swift:195-202 | equals the specification for every start, valid or not |
| PlaybackQueueObjects.PlaybackQueue.InsertNext | apple/Sources/YTMDLCore/Models.swift:204-208 | equals the specification and tells whether it did anything |
| PlaybackQueueObjects.PlaybackQueue.Remove | apple/Sources/YTMDLCore/Models.swift:210-215 | equals the specification, for every position |
| PlaybackQueueObjects.PlaybackQueue.PlayNext | apple/Sources/YTMDLCore/Models.swift:216-220 | equals the specification, for every position |
| PlaybackQueueObjects.PlaybackQueue.Move | apple/Sources/YTMDLCore/Models.swift:223-230 | equals the specification, for every pair of positions |
| PlaybackQueueObjects.PlaybackQueue.Next | apple/Sources/YTMDLCore/Models.swift:236-240 | advances exactly when there is a next track or the queue repeats |
| PlaybackQueueObjects.PlaybackQueue.ShuffleUpcoming | apple/Sources/YTMDLCore/Models.swift:243 | reorders the upcoming tracks by the order drawn |
| PlaybackQueueObjects.PlaybackQueue.HandleAll | apple/Sources/YTMDLCore/Models.swift:203-243 | any sequence of edits keeps a valid queue and the track that plays |
| PlayerProofs.ItemsBelongToTheirTracks | apple/App/PlayerModel.swift:418-440 | in every run standby was made for the pending id, the current item for the current track, and shown details belong to the current track |
| PlayerProofs.UpcomingAgrees | apple/App/PlayerModel.swift:503-506 | the prefetch's idea of the upcoming track is the one the queue advances to |
| PlayerProofs.PromotionPlaysTheNextTrack | apple/App/PlayerModel.swift:564-576 | in every run a promotion plays exactly the track the queue selects next |
| PlayerProofs.CallbacksConcernTheCurrentItem | apple/App/PlayerModel.swift:444-468 | a callback is about the current item or changes nothing |
| PlayerProofs.PlaysAreReportedOnce | apple/App/PlayerModel.swift:496-498 | every report names the track its item was made for, and later reports are of later items, so none is reported twice |
| PlayerEffects.PlaysAreReportedExactly | apple/App/PlayerModel.swift:496-498 | in every run a play is reported if and only if the current item is heard for the first time, under the current track |
| PlayerEffects.PlayEffect | apple/App/PlayerModel.swift:195-199 | playing a list loads the selected track, or the first; an empty list stops the player |
| PlayerEffects.SelectEffect | apple/App/PlayerModel.swift:216 | selecting loads that position; one outside the queue changes nothing |
| PlayerEffects.NextEffect | apple/App/PlayerModel.swift:324-329 | going on plays the next track, from the prefetched item if it is ready and from a new one otherwise, and stops at the end |
| PlayerEffects.PreviousEffect | apple/App/PlayerModel.swift:330 | going back early loads the previous track, late it only starts over |
| PlayerEffects.ResumeEffect | apple/App/PlayerModel.swift:333-348 | resuming loads again after an error or without an item and otherwise goes on with the item |
| PlayerEffects.FinishedEffect | apple/App/PlayerModel.swift:582-586 | when an item ends, playback stops at a boundary, the same item starts over when one track repeats, and otherwise the next plays |
| PlayerEffects.EditEffect | apple/App/PlayerModel.swift:209-234 | a queue edit leaves everything else alone but what is prefetched and the connection it brings |
| PlayerEffects.EditPrefetches | apple/App/PlayerModel.swift:212-234 | an edit that takes effect drops what was prefetched and prefetches what comes next now |
| PlayerEffects.TickPrefetches | apple/App/PlayerModel.swift:500-526 | while the item plays, what comes next is prefetched as soon as that is allowed |
| PlayerEffects.PrefetchedTrackFollows | apple/App/PlayerModel.swift:517-576 | in every run a track prefetched while its predecessor played follows it even if no item can be made any more |
| PlayerProofs.StandbyGoesStaleExactly | apple/App/PlayerModel.swift:209-234 | in every run a step leaves a prefetched item that is not the upcoming track if and only if it appends a different track where the queue wraps around and may not prefetch then |
| PlayerProofs.StaleStandbyOnlyAfterWrap | apple/App/PlayerModel.swift:209-211 | a prefetched item that is not the upcoming track is the first track of a repeating queue and is never promoted |
| PlayerProofs.StaleStandbyIsPossible | apple/App/PlayerModel.swift:209-211 | a run that leaves such an item |
| PlayerPrefetch.PromoteIsLoad | apple/App/PlayerModel.swift:564-576 | promoting and loading afresh leave the same player behind |
| PlayerPrefetch.PrefetchIsInvisible | apple/App/PlayerModel.swift:517-526 | a run and the same run without prefetching agree on everything but the prefetched item |
| PlayerObjects.PlayerModel.LoadCurrent | apple/App/PlayerModel.swift:418-440 | equals the machine's load, including a failing item |
| PlayerObjects.PlayerModel.PrepareNext | apple/App/PlayerModel.swift:517-526 | equals the machine's prefetch |
| PlayerObjects.PlayerModel.PromotePrepared | apple/App/PlayerModel.swift:564-576 | promotes exactly when the standby item is ready and is for the upcoming track |
| PlayerObjects.PlayerModel.Next | apple/App/PlayerModel.swift:324-329 | equals the machine's step |
| PlayerObjects.PlayerModel.Previous | apple/App/PlayerModel.swift:330 | equals the machine's step |
| PlayerObjects.PlayerModel.Resume | apple/App/PlayerModel.swift:333-348 | equals the machine's step: loads again after an error or without an item |
| PlayerObjects.PlayerModel.Stop | apple/App/PlayerModel.swift:371-383 | equals the machine's step |
| PlayerObjects.PlayerModel.DidFinish | apple/App/PlayerModel.swift:582-586 | equals the machine's step for boundary, repeat-one and next |
| PlayerObjects.PlayerModel.Append | apple/App/PlayerModel.swift:209-211 | equals the machine's edit, keeping what was prefetched |
| PlayerObjects.PlayerModel.InsertNext | apple/App/PlayerModel.swift:212-215 | equals the machine's edit |
| PlayerObjects.PlayerModel.EditUpcoming | apple/App/PlayerModel.swift:217-234 | equals the machine's edit for shuffling, removing, playing next, moving and clearing |
| PlayerObjects.PlayerModel.Tick | apple/App/PlayerModel.swift:496-500 | equals the machine's observation |
| PlayerObjects.Replay | apple/App/PlayerModel.swift:324-348 | any sequence of calls and callbacks takes a new player object through the run of the machine, so the invariant holds of it |
| BudgetModel.ObservedNeverDecreases | backend/internal/downloader/combined.go:69-87 | no interleaving lowers the observed value or takes back a cancellation |
| BudgetModel.ObservedIsMaximum | backend/internal/downloader/combined.go:69-87 | once all calls returned, the observed value is the largest positive report |
| BudgetModel.TrippedExactly | backend/internal/downloader/combined.go:82-86 | then the kind is set if and only if a report exceeded a positive limit, and the transfer was cancelled exactly that often |
| BudgetModel.CancelledAtMostOnce | backend/internal/downloader/combined.go:82-86 | at every moment at most one cancellation, and a set kind means the observed value is above the limit |
| BudgetModel.RetryMeansProgress | backend/internal/downloader/combined.go:73-81 | a failed swap means the observed value was raised since it was loaded |
| BudgetModel.BlameIsJustified | backend/internal/downloader/combined.go:102-125 | the budget is blamed without a cause only after a report above the limit, and always once such a report has returned unless the caller ended the job |
| BudgetModel.ReportsExactly | backend/internal/downloader/combined.go:102-125 | a failed transfer keeps its own error if the caller ended the job, and otherwise blames the budget without a cause after an excess report and with it for a timeout or an oversized file |
| BudgetObjects.TransferBudget.Observe | backend/internal/downloader/combined.go:69-87 | against any schedule of raises by others, and whether or not another call sets the kind first, the loop ends, leaves the maximum and cancels at most once |
| Base64.DecodeOfEncode | backend/internal/auth/password.go:57-58 | every byte string survives encoding and decoding |
| Base64.EncodeAvoidsSeparator | backend/internal/auth/password.go:60-61 | an encoded salt or key never holds the separator of the hash string |
| Base64.EncodeOfDecode | backend/internal/auth/password.go:107-115 | a readable text is what the writer produces if and only if it has no line break and no stray trailing bits |
| Base64.StrayBitIsAccepted | backend/internal/auth/password.go:107-115 | a text with a stray trailing bit that reads like the written one |
| Base64Reading.ReadableExactly | backend/internal/auth/password.go:107-115 | a text is readable if and only if it holds only the 64 symbols and line breaks and does not end one symbol behind a group of four |
| Base64Reading.LineBreaksAreSkipped | backend/internal/auth/password.go:107-115 | line breaks do not matter, wherever they stand |
| PasswordModel.ParsePrintExactly | backend/internal/auth/password.go:66-115 | parsing recovers what was printed if and only if the version is the supported one, the parameters are positive and in range, and salt and key are not empty |
| PasswordModel.ParseOfPrint | backend/internal/auth/password.go:66-115 | for every printed string, which error or which parameters parsing yields |
| PasswordModel.VerifyPrinted | backend/internal/auth/password.go:117-122 | verification of a printed hash compares exactly the key derived with the printed salt and parameters |
| PasswordModel.VerifyHash | backend/internal/auth/password.go:45-63 | a password of 8 to 128 characters, and no other, is hashed and verifies against its own hash, and another exactly when it derives the same key |
| PasswordModel.PrintInjective | backend/internal/auth/password.go:60-61 | different hashes have different strings |
| PasswordModel.ParallelismIsTruncated | backend/internal/auth/password.go:98-99 | a printed parallelism of 258 is read as 2 |
| PasswordModel.SplitOfJoin | backend/internal/auth/password.go:67-68 | splitting undoes joining when no part holds the separator |
| PasswordReading.JoinOfSplit | backend/internal/auth/password.go:67-68 | splitting loses nothing: the parts hold no separator and join to the text again |
| PasswordReading.ReprintReadsTheSame | backend/internal/auth/password.go:66-123 | whatever string was accepted, printing what was read gives one that is read the same and verifies the same passwords |
| PasswordReading.FormatExactly | backend/internal/auth/password.go:67-70 | exactly the strings with five dollar signs have the right format |
| PasswordReading.AlgorithmExactly | backend/internal/auth/password.go:72-74 | of these exactly the ones that name argon2id are looked at further |
| PasswordReading.VersionIsItsNumber | backend/internal/auth/password.go:76-79 | the version may stand behind blanks, carry a plus and leading zeros and be followed by text: only its number decides |
| PasswordReading.SilentPartsAreIgnored | backend/internal/auth/password.go:82-97 | parts that name no parameter may stand anywhere |
| PasswordReading.OrderIsFree | backend/internal/auth/password.go:82-101 | parameters of different names may come in any order |
| PasswordModel.ParseParams | backend/internal/auth/password.go:81-105 | the loop over the parameters equals the fold, with its errors |
| PasswordModel.HashPassword | backend/internal/auth/password.go:45-63 | the format string with its fields filled in is the printed form |
| PasswordModel.VerifyPassword | backend/internal/auth/password.go:66-123 | equals the specification for every string |
| ArtistModel.BetterTransitive | backend/internal/artistidentity/identity.go:142-169 | the preference is transitive |
| ArtistModel.BetterTotal | backend/internal/artistidentity/identity.go:142-169 | it is asymmetric, and decides between any two candidates with distinct ids |
| ArtistModel.ClassifySymmetric | backend/internal/artistidentity/identity.go:86-128 | the classification does not depend on the order of the pair |
| ArtistModel.ClassifyExactly | backend/internal/artistidentity/identity.go:86-128 | two rows are one artist by source, related and proven, related, or ambiguous, and exactly when |
| MergeGuard.SyntheticExactly | backend/internal/artistidentity/identity.go:71-83 | a row is name-derived if and only if its source marked it so, its id is blank, or its id begins with the prefix behind any white space |
| ArtistModel.WinnerBeatsAll | backend/internal/artistidentity/identity.go:173-193 | among distinct ids the winner is better than every other candidate |
| ArtistModel.WinnerIsPreferred | backend/internal/artistidentity/identity.go:130-169 | the winner has a subscription if any candidate has, is real if any of those is, then has artwork, the most items, the oldest date and the least id |
| ArtistModel.LessExactly | backend/internal/artistidentity/identity.go:168 | ids are compared by their first difference, and an id comes before every longer one it begins |
| ArtistModel.TrimExactly | backend/internal/artistidentity/identity.go:80-83 | trimming takes off all blanks at both ends and nothing else |
| ArtistModel.WinnerIgnoresOrder | backend/internal/artistidentity/identity.go:173-193 | the same candidates in any order have the same winner |
| ArtistModel.ChooseWinner | backend/internal/artistidentity/identity.go:173-193 | no duplicate beats the winner, and the others are conserved in order |
| MergeGuard.CollectDuplicates | backend/cmd/ytmdlctl/main.go:1956-1975 | fails if and only if the canonical id is named among the duplicates, and otherwise yields the distinct ids in order of first mention |
| MergeGuard.KeptExactly | backend/cmd/ytmdlctl/main.go:1956-1975 | those ids are distinct and exactly the non-empty ones named |
| MergeGuard.Guard | backend/cmd/ytmdlctl/main.go:2141-2164 | the two checks accept if and only if no two members have different real source ids on one provider |
| MergeGuard.CheckDuplicates | backend/cmd/ytmdlctl/main.go:2149-2164 | the nested map of real source ids decides that among the duplicates |
| MergeGuard.Prepare | backend/cmd/ytmdlctl/main.go:1955-2164 | a merge touches distinct existing rows that pass the guard, and each refusal has its own cause |
| MergeGuard.GuardIsStricter | backend/cmd/ytmdlctl/internal/reconcile/reconcile.go:39-41 | every row the guard takes for name-derived is name-derived to the resolver |
| MergeGuard.NotionsDifferExactly | backend/cmd/ytmdlctl/internal/reconcile/reconcile.go:39-41 | a row is name-derived to the resolver and real to the guard if and only if white space stands before the prefix |
| MergeGuard.GuardAndResolverAgreeExactly | backend/internal/artistidentity/identity.go:86-128 | for rows the guard keeps apart the resolver says ambiguous if and only if white space stands before the prefix of both or of neither |
| MergeGuard.GuardAndResolverDisagree | backend/internal/artistidentity/identity.go:80-83 | two rows on which they differ |
| EqualizerModel.FieldOfPacked | apple/App/Equalizer.swift:119-131 | every byte is read back exactly as it was put in, so fields never overlap |
| EqualizerModel.TornReadIsMixed | apple/App/Equalizer.swift:207-214 | words of two different settings decode to bands 0 to 7 of one and everything else of the other |
| EqualizerModel.DecodeOfPublish | apple/App/Equalizer.swift:207-229 | decoding what was published gives the flags and the settings on the half-decibel grid |
| EqualizerModel.CodeIsClose | apple/App/Equalizer.swift:122-127 | the grid is within a quarter decibel, and exact if and only if the value is on it |
| EqualizerModel.DecodedIsClose | apple/App/Equalizer.swift:119-131 | every decoded gain and the preamp are that close to the clamped value; flags are exact |
| EqualizerModel.DecodedFollowsPublished | apple/App/Equalizer.swift:119-131 | the render thread decodes what was published within a quarter decibel inside the bounds, the nearer bound outside, and flat where no finite gain was given |
| EqualizerModel.PublishOfDecode | apple/App/Equalizer.swift:119-131 | publishing what was decoded gives the same words |
| EqualizerRun.EveryFieldWasPublished | apple/App/Equalizer.swift:207-229 | in every interleaving each decoded field comes from a published setting, the high word at most one setting older than the low one |
| EqualizerRun.QuietRefreshIsCurrent | apple/App/Equalizer.swift:207-229 | an undisturbed refresh after a complete publish decodes the last setting |
| EqualizerRun.RefreshBetweenStoresIsTorn | apple/App/Equalizer.swift:119-131 | a refresh between the two stores sees the lower bands of the new setting and the rest of the one before |
| EqualizerRun.ViewOnlyMovesForward | apple/App/Equalizer.swift:207-229 | what the render thread sees of the high word never goes back |
| EqualizerObjects.EqualizerParameters.Publish | apple/App/Equalizer.swift:119-131 | the packing loop builds exactly the two words |
| EqualizerObjects.EqualizerParameters.PackBands | apple/App/Equalizer.swift:121-125 | the loop with ors and shifts packs eight codes into one word and two into the other |
| EqualizerObjects.EqualizerKernel.Refresh | apple/App/Equalizer.swift:207-229 | the decoding loop leaves exactly the decoded settings, also when it returns early |
| EqualizerObjects.WordsFit | apple/App/Equalizer.swift:119-131 | the words fit 64 bits and never equal the kernel's initial value, so the first refresh decodes |

## Left out

- Failure texts, loudness values, collections, sidecar files and the Wi-Fi setting of the offline library; `save` is taken to succeed, so a relaunch starts from the records as they were.
- The default `nil` task id of `finish`, which the delegate never passes, and a closed transfer session.
- SHA-256: record ids, code hashes and token hashes are taken to be collision free; device tokens and transfer ids are taken to be fresh.
- A device code of the wrong length is refused before the lock is taken; that check, code normalisation and base32 are not modelled.
- Grants are values in the map: while a poll exchanges one it holds a copy, which nobody else can change in the source either.
- Device names are taken after white space around them was cut off, one character for each byte.
- A shutdown with some of the components missing, which are then skipped.
- Clocks are taken not to run backwards in the device, limiter and shutdown models.
- DeviceProtocol.ExactlyOnceExchange: takes a failed session creation to have issued nothing, as the code does.
- No bound of 128 on the grants is claimed: a grant put back is not counted against it.
- No claim that every queued download makes progress after a file error: a removal that fails leaves a record downloading without a task.
- KeyedMutex: the inner mutexes are contracts; an unlock closure is called once.
- FavoritesProofs.FavoritesAgree: excepts tracks changed by a mutation whose success was never heard, because for those it can be false; FavoritesExact.FavoritesAgreeExactly says when.
- Favourites: one client, one reply for each request; paging, artists, albums and playlists are not modelled.
- DevicePolling.CompleteDeviceSignIn: a request still under way when the user gives up is not followed further.
- The session pool's seal, flush and idle calls are contracts, as its code is not part of this model; a missing pool is not modelled.
- HTTP draining, the broker and the limiter's ticker goroutine.
- AVPlayer, observers and audio sessions: their callbacks are events; fading, volume, playback position and sleep timers only decide whether a prefetch happens or playback stops.
- PlayerObjects.PlayerModel.EditUpcoming: the five queue edits that cancel and prepare again share one method.
- A transfer without a budget, or a budget without a cancel function.
- Argon2 itself, constant-time comparison, the random generator's failure and the dummy hash.
- PasswordModel.VerifyPassword: white space before the version number is limited to ASCII.
- Artist names, database queries, the dry run and the execution of a merge.
- Filter coefficients, automatic headroom and the audio path of the equaliser; doubles are reals.
- Lyrics search, error code tables, views, widgets and the update machinery are not modelled.
