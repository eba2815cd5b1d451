# Verified model of the music player's services and desktop client

This project models the parts of the system whose guarantees do not follow from reading one
function, and proves them with Dafny. `dafny verify dfyconfig.toml` checks everything.

Protocols that run as several interleaved tasks are state machines: a `State`, an `Action` per
atomic step (what happens between two awaits, or one atomic or store command), and a `Run` over
any list of actions, so every theorem about `Run` holds for every interleaving. Objects that are
updated in place are classes, and loops are loops; each method is tied to a function or relation
that the other theorems are about. Outcomes of foreign code (probes, encoders, file system, bus,
remote services, clocks, random choices) are arbitrary parameters.

- `BatchedLane`: the worker's batched lane over JetStream deliveries. Every delivery is in one
  place, is settled once, is acked only after its own output was published, and the number of
  unsettled deliveries is bounded.
- `LaneVerdicts`: which of ack, nak and term a delivery gets, from what happened to it, and in which
  order deliveries are worked on.
- `UploadPipeline`: the storage service's batching transcoder. Every job is answered once, leaves
  no file behind, and what is committed passed the duration rule; runs end and nothing gets stuck.
- `UploadAnswers`: which answer a job gets, from the probes, encoder runs and writer attempts it had.
- `LocalStore`, `FileLocks`: commits to the local disk, the retrying writer, the per-file locks,
  and what they mean together for the durations in storage over whole runs.
- `UploadQuota`: the shared byte counter of the upload directory, with 64-bit wrap-around.
- `PlayerQueue`, `PlayerStore`: the player's queue under all its actions, with shuffle.
- `Continuation`, `ContinuationRuns`: playing a paged list of likes to its end before the wave
  takes over, also while the listener moves about and requests are pending.
- `AuthRecovery`: the session recovery of the desktop client.
- `YmPlaylists`, `YmSync`, `YmRuns`: the incremental playlist sync of the Yandex import, and what
  the end of a run saves and loses.
- `YmStale`: which playlists an import run deletes, writes and leaves alone.
- `Hls`: the HLS assembler with its refresh rounds, and the playlist parser.
- `JsonScanner`, `TranscodingOrder`: the balanced-JSON scanner, and the two orderings of
  transcodings.
- `ListCache`: the chunked lazy list cache.
- `CacheIndex`, `CacheRuns`: the response cache with its inverted index.
- `Throttle`: the slot reservation in front of the upstream.

Where the code does not meet the property one would expect of it, a lemma gives the input that
shows it and another says exactly when the property holds:

- A nak that raises ends the executor of the batched lane while the fetcher goes on, and what is
  queued waits until shutdown (`BatchedLane.RaisedNakStrands`,
  `BatchedLane.DeadExecutorStrandsTheQueue`; as long as the executor lives nothing is stuck:
  `BatchedLane.NothingIsStuck`).
- A rescan of the upload directory, made by another upload between the removal of a source by the
  pipeline and the drop of its reservation, takes the bytes out of the counter twice, and the
  counter wraps
  (`UploadQuota.RescanThenDropWraps`; exactly when: `UploadQuota.CoversExactly`,
  `UploadQuota.RescanKeepsCoverExactly`). The comment above the rescan promises recovery from
  external cleanup; the start-up purge makes the seed, which is all it can soundly recover, zero.
- The local backend answers a failed rename by removing the stored file; if the next rename fails
  too, both files are gone, and as the source was already moved, no retry can succeed
  (`LocalStore.LongerFileLosesBoth`; exactly when: `LocalStore.JobLosesExactly`).
- A write to an index that is being cleared, of a key the clear does not have on its list, or one
  with a shorter life than its neighbours, leaves entries readable that no clear finds
  (`CacheRuns.RaceOrphansAnEntry`, `CacheRuns.ShorterLifeOrphansAnEntry`; exactly when:
  `CacheRuns.StoreKeepsInvExactly`).
- A match that arrives while the final flush is writing, after its snapshot, is never written,
  because the end of the run clears the timer (`YmRuns.LateMatchIsLost`; exactly when:
  `YmRuns.EndingIsExact`, `YmRuns.EndingShowsExactly`). The importer sleeps 150 ms after each match
  before it can return (`desktop/src-tauri/src/import/ym.rs`, line 250), so this takes an event that
  is delivered late.
- A play without a queue while shuffle is on is forgotten when shuffle goes off, and the index
  lands on another track (`PlayerQueue.QueueLessPlayUnderShuffle`; exactly when:
  `PlayerQueue.GuardIsExact`).
- A full login does not call off a renew in flight, whose rejection then raises the modal over the
  new session (`AuthRecovery.LoginDoesNotCallOff`; exactly when: `AuthRecovery.ModalExactly`).
- A call of the autopilot that is overtaken by another play acts on that play: its page joins the
  new queue (`ContinuationRuns.StalePageJoinsNewQueue`), or its give-up disarms the source that was
  armed since, and the wave joins a list that was never asked for more
  (`ContinuationRuns.StaleGiveUpDisarmsNewSource`; exactly when: `ContinuationRuns.CallStraysExactly`
  and, for a wave that is already asked for, `ContinuationRuns.WaveStraysExactly`).
- Sparse upstream chunks make consecutive pages skip items (`ListCache.SparseChunksSkipItems`;
  exactly when a page will be full: `ListCache.FullPageExactly`).

## Model

| member | source | states |
|---|---|---|
| BatchedLane.LaneIsSafe | worker/src/runner.py:101-269 | over every interleaving, each fetched message is in exactly one place, is settled at most once, is acked only after its own output was published or prepare gave nothing, and unsettled messages stay within fanout + queue + batch |
| BatchedLane.IdleLaneSettledEverything | worker/src/runner.py:160-269 | a lane that has gone idle without a raised bus call has settled every delivery exactly once |
| BatchedLane.CalmRunAbandonsNothing | worker/src/runner.py:208-269 | only a raised or cancelled bus call can leave a delivery unsettled for good |
| BatchedLane.RunKeepsInv | worker/src/runner.py:101-269 | the inductive invariant: places, bounds and history hold in every reachable state |
| BatchedLane.ExecStepConserves | worker/src/runner.py:208-269 | each step of the executor keeps all its items or settles exactly its first one, through failed batches and one-by-one retries |
| BatchedLane.ExecStepIsCaused | worker/src/runner.py:208-248 | the executor's acks and publishes have their cause in the log: an ack needs the publish of that message's own output (for naks and terms see `LaneVerdicts.VerdictIsExact`) |
| BatchedLane.TaskHistoryKept | worker/src/runner.py:131-158 | a prepare task settles only what the history allows |
| BatchedLane.BoundsKept | worker/src/runner.py:160-206 | permits, queue and batch bound what is in flight, whatever step is taken |
| BatchedLane.PlaceKept | worker/src/runner.py:131-269 | no step duplicates or drops a message |
| BatchedLane.WorkIsBounded | worker/src/runner.py:131-269 | over every run, the steps that prepare tasks and executor have taken and those still possible are at most 11 for each delivery, retries of a failed batch included |
| BatchedLane.NothingIsStuck | worker/src/runner.py:131-269 | while the executor lives and a delivery is unsettled, some prepare task or the executor can go on without a raised call |
| BatchedLane.CalmRunSettlesEverything | worker/src/runner.py:131-269 | a run without raised calls can go on as long as a fetched delivery is not settled exactly once |
| BatchedLane.DeadExecutorStrandsTheQueue | worker/src/runner.py:249-269 | once the executor has ended without a shutdown, whatever is queued stays queued and unsettled until one |
| BatchedLane.RaisedNakStrands | worker/src/runner.py:220-224 | the run in which a raised nak strands a queued delivery |
| LaneVerdicts.VerdictIsExact | worker/src/runner.py:131-248 | over every run, a settled delivery is termed if and only if its payload was bad; naked if and only if its prepare raised, the GPU call on it alone raised or one on its batch returned another number of results, or its publish or ack raised; else it is acked, and then prepare had nothing or its own result was published |
| LaneVerdicts.PublishesItsOwn | worker/src/runner.py:233-242 | what is published for a delivery is what a GPU call returned at its place in the batch |
| LaneVerdicts.HapIsAnAction | worker/src/runner.py:131-248 | each such cause is the doing of an action of the run, taken on that delivery |
| LaneVerdicts.OnlyBadPayloadsAreTermed | worker/src/runner.py:131-158 | a termed delivery had a bad payload and no prepare |
| LaneVerdicts.FirstPutFirstSettled | worker/src/runner.py:160-248 | over every run, the queue holds what was put last, in order, and the executor the deliveries taken last, so they are settled in the order in which they were put, through batches and one-by-one retries |
| LaneVerdicts.BatchRunsTogether | worker/src/runner.py:208-232 | a GPU call is on all that was collected; only after it raised on several is it made again, on each alone |
| UploadPipeline.EveryJobKeepsItsPromise | storage/src/pipeline.rs:100-316 | over every interleaving and every path's own removals: one reply per job, source and staged output gone once answered, uploaded only after a commit, rejected exactly for a failed gate that may be published and never with a commit, committed durations within the rule; at most max_transcodes batches at once |
| UploadPipeline.GateIsExact | storage/src/pipeline.rs:279-302 | a readable duration passes the gate exactly when it is over 30 s, within the maximum when one is set, and within tolerance of the expected one when given |
| UploadPipeline.JobStepKeepsInv | storage/src/pipeline.rs:237-277 | through probes, gates, encoders and writer outcomes, the output is staged only where some later path removes or commits it, and the source is there until the answer |
| UploadPipeline.RejectEnds | storage/src/pipeline.rs:304-316 | a rejection ends a job cleanly provided its output is gone by then |
| UploadPipeline.WriterKeepsInv | storage/src/pipeline.rs:356-370 | whatever a writer attempt leaves of the output, what follows takes care of it |
| UploadPipeline.JobInvKeepsPromise | storage/src/pipeline.rs:237-316 | the invariant implies what every job is promised |
| UploadPipeline.EncodeKeepsInv | storage/src/pipeline.rs:188-234 | a batch encoder that succeeds, fails or never starts, and its per-file fallback, leave no output behind unless it succeeded |
| UploadPipeline.RunKeepsInv | storage/src/pipeline.rs:100-277 | it holds in every reachable state, as does the bound on running batches |
| UploadPipeline.StepsUseUpWork | storage/src/pipeline.rs:146-277 | every step but a submission uses up remaining work |
| UploadPipeline.RunsEnd | storage/src/pipeline.rs:100-277 | without new submissions a run has at most as many steps as work remained |
| UploadPipeline.NothingIsStuck | storage/src/pipeline.rs:100-277 | while a job is unanswered some task can go on |
| UploadPipeline.UnansweredRunsGoOn | storage/src/pipeline.rs:68-98 | so no run stops before every submitted job is answered |
| UploadAnswers.AnswersAreEarned | storage/src/pipeline.rs:146-316 | over every run, an answered job has exactly the answer it earned: Ffmpeg if and only if its own encoder run, or that of a batch in which it was the only accepted job, did not succeed, or its output had no readable duration; Gated with a reason if and only if a probe of it breaks that bound; Backend if and only if its output was not found or all retries + 1 attempts failed; Done with the probed duration if and only if an attempt committed it |
| UploadAnswers.EarnedIsAnswered | storage/src/pipeline.rs:237-316 | an answer that was earned has been given, or is one step from it, and nothing else is done first |
| UploadAnswers.GateReasons | storage/src/pipeline.rs:279-302 | which reason a duration out of bounds is rejected for, and which goes first when several bounds are broken |
| UploadAnswers.JudgedAsSubmitted | storage/src/pipeline.rs:68-98 | a job is judged by the terms it was submitted with |
| UploadAnswers.BatchesAreSmall | storage/src/pipeline.rs:100-144 | no batch is larger than the batch size |
| LocalStore.LocalBackend.CommitTranscode | storage/src/backend/local.rs:28-63 | what one commit does to the stored file and its source for every outcome of its system calls: kept, replaced, untouched, or lost; no other key is touched |
| LocalStore.LocalBackend.ShouldKeepExisting | storage/src/backend/local.rs:122-140 | keep exactly when both files are probed and the stored one plus 2 s is at least the candidate |
| LocalStore.LocalBackend.MoveOrCopyFile | storage/src/backend/local.rs:142-152 | the source leaves its place exactly when it arrives at the staging file, across devices too |
| LocalStore.LocalBackend.ReplaceFile | storage/src/backend/local.rs:154-167 | success puts the staged file in place; failure leaves the old one unless it was removed for a second rename |
| LocalStore.LocalBackend.ProcessWriterJob | storage/src/pipeline.rs:438-471 | the retry loop is the bounded repetition of commits, all failures use up retries + 1 attempts, and the source is gone at the end |
| LocalStore.DecidingAttempt | storage/src/pipeline.rs:438-471 | one attempt decides a job, the first that keeps or stages; retries after a failed replacement cannot help |
| LocalStore.JobSucceedsExactly | storage/src/pipeline.rs:438-471 | a job succeeds exactly when its deciding attempt does |
| LocalStore.JobLosesExactly | storage/src/backend/local.rs:154-167 | a stored file is lost exactly when the deciding attempt removed it and could not rename again; such a job fails |
| LocalStore.LongerFileLosesBoth | storage/src/backend/local.rs:154-167 | the environment in which the stored file and its longer replacement are both lost, however many retries are left |
| LocalStore.JobKeepsTheLongest | storage/src/backend/local.rs:122-140 | with working probes a replacement gains more than 2 s, and after a success the stored file is at most 2 s shorter than the source |
| FileLocks.AppState.FileLock | storage/src/main.rs:38-49 | a live mutex of the filename is handed out again, else a new one, with dead entries pruned |
| FileLocks.CommitsAreSerial | storage/src/routes/upload.rs:256-263 | in every run, uploads share a mutex exactly when they share a filename, and at most one upload per filename is past its lock |
| FileLocks.RunKeepsInv | storage/src/main.rs:38-49 | the lock table stays injective and lists every upload's mutex, and what a commit saw in the store is still there |
| FileLocks.PutIsAsDecided | storage/src/backend/local.rs:37-60 | so a replacement acts on the very file it was decided about |
| FileLocks.CommitIsTheBackends | storage/src/backend/local.rs:28-63 | the two interleaved steps of a commit are the one commit of the backend, for every outcome of its system calls |
| FileLocks.NobodyIsStuck | storage/src/routes/upload.rs:256-263 | whoever waits for a filename, some upload of that filename can move |
| FileLocks.StepGains | storage/src/backend/local.rs:122-140 | each step of a sound run changes a stored file only to one more than 2 s longer |
| FileLocks.StoredNeverFalls | storage/src/backend/local.rs:28-63 | over a sound run no stored duration decreases and no file is lost |
| FileLocks.EveryOfferStaysMet | storage/src/backend/local.rs:122-140 | from a successful commit to the end of the run, stored + 2 is at least what it offered |
| UploadQuota.TmpReservation.TryAdd | storage/src/routes/upload.rs:38-50 | admitted exactly when the counter plus n is within the limit; a refusal leaves the counter as it was |
| UploadQuota.TmpReservation.Drop | storage/src/routes/upload.rs:53-61 | the reserved bytes leave the counter, if there is a limit |
| UploadQuota.Rescanner.RescanTmpUsage | storage/src/routes/upload.rs:66-93 | skipped while another runs or within 5 s of the last; else, run alone, it lowers the counter to the bytes on disk and notes the time, also when the walk fails |
| UploadQuota.RunAccounts | storage/src/routes/upload.rs:26-93 | in every interleaving, rescans included, counter = seed + held + not yet rolled back - recovered, modulo 2^64 |
| UploadQuota.ExactWithoutRescan | storage/src/routes/upload.rs:26-61 | until a rescan subtracts, the counter is exact and seed + held stays within the limit |
| UploadQuota.RefusedExactly | storage/src/routes/upload.rs:38-50 | an add is refused exactly when held bytes and adds in mid-air leave it no room |
| UploadQuota.RefusalIsUndone | storage/src/routes/upload.rs:43-46 | a refused add and its rollback leave no trace |
| UploadQuota.QuietCounter | storage/src/routes/upload.rs:53-93 | with everything dropped the counter is back at the seed, less what rescans recovered; it has wrapped exactly if that was more than the seed |
| UploadQuota.CoversExactly | storage/src/routes/upload.rs:63-93 | the counter covers live reservations exactly while rescans recovered no more than seed plus adds in mid-air |
| UploadQuota.RescanKeepsCoverExactly | storage/src/routes/upload.rs:73-92 | a rescan keeps the cover exactly when it subtracts no more than the excess; undisturbed, exactly when all reserved bytes are on disk |
| UploadQuota.RescanThenDropWraps | storage/src/routes/upload.rs:183-193 | an upload that is refused and rescans between the removal of another's source and the drop of its reservation makes the counter wrap, and every later add is refused |
| PlayerQueue.GuardIsExact | desktop/src/stores/player.ts:253-476 | for every action: index on the playing track and remembered order within the queue are kept if and only if the action's guard holds |
| PlayerQueue.RunKeepsInv | desktop/src/stores/player.ts:253-476 | both hold over every run of guarded actions, with any random choices |
| PlayerQueue.ExactSinceRemembered | desktop/src/stores/player.ts:253-476 | the remembered order is a permutation of the queue from when it was taken to the first queue-less play |
| PlayerQueue.QueueLessPlayUnderShuffle | desktop/src/stores/player.ts:280-288 | the input on which a queue-less play under shuffle breaks the index |
| PlayerQueue.MoveFollowsTheEntry | desktop/src/stores/player.ts:435-445 | moving entries keeps the index on the same entry |
| PlayerQueue.RemoveKeepsIndex | desktop/src/stores/player.ts:415-433 | a removal keeps the index right exactly within its guard |
| PlayerQueue.PlayOfAForeignTrack | desktop/src/stores/player.ts:260-270 | under shuffle, playing a track that is not in the given queue drops another from it |
| PlayerQueue.ShuffleGivesTheOrderBack | desktop/src/stores/player.ts:449-476 | shuffle on, any listening and adding, shuffle off: the queue at the start followed by the added tracks in call order |
| PlayerQueue.ShuffleGivesThePlaceBack | desktop/src/stores/player.ts:449-476 | and the index is on the playing track again |
| PlayerQueue.SessionRemembers | desktop/src/stores/player.ts:383-413 | throughout, the remembered order is that queue with the additions so far |
| PlayerQueue.NextRunsOn | desktop/src/stores/player.ts:309-336 | any number of `next`: the queue in order, then round again under repeat-all, else the last entry for good |
| PlayerQueue.PrevRunsBack | desktop/src/stores/player.ts:338-346 | any number of `prev`: back entry by entry to the first, which is then started again |
| PlayerQueue.NextLeads | desktop/src/stores/player.ts:309-336 | the one entry `next` goes to, by position, and that nothing else changes |
| PlayerQueue.PrevLeads | desktop/src/stores/player.ts:338-346 | likewise for `prev` |
| PlayerQueue.MergeIsFieldwise | desktop/src/stores/player.ts:518-529 | replaced metadata takes the new fields, keeps the others and the URN |
| PlayerStore.ShuffleArray | desktop/src/stores/player.ts:175-180 | the in-place shuffle permutes, whatever the random indices |
| PlayerStore.Player.Play | desktop/src/stores/player.ts:253-279 | the action is the specified step of the queue state |
| PlayerStore.Player.PlayAlone | desktop/src/stores/player.ts:280-288 | likewise, without a queue |
| PlayerStore.Player.PlayFromQueue | desktop/src/stores/player.ts:291-299 | likewise |
| PlayerStore.Player.Next | desktop/src/stores/player.ts:309-336 | likewise; the end-of-queue handler gets the last track exactly at the end without repeat-all |
| PlayerStore.Player.Prev | desktop/src/stores/player.ts:338-346 | likewise |
| PlayerStore.Player.SetQueue | desktop/src/stores/player.ts:363-381 | likewise |
| PlayerStore.Player.AddToQueue | desktop/src/stores/player.ts:383-402 | likewise; under shuffle each track lands anywhere behind the playing one |
| PlayerStore.Player.AddToQueueNext | desktop/src/stores/player.ts:404-413 | likewise |
| PlayerStore.Player.RemoveFromQueue | desktop/src/stores/player.ts:415-433 | likewise, for any index |
| PlayerStore.Player.MoveInQueue | desktop/src/stores/player.ts:435-445 | likewise, for positions in the queue |
| PlayerStore.Player.ClearQueue | desktop/src/stores/player.ts:447 | likewise |
| PlayerStore.Player.ToggleShuffle | desktop/src/stores/player.ts:449-476 | likewise |
| PlayerStore.Player.ToggleRepeat | desktop/src/stores/player.ts:478-481 | likewise |
| PlayerStore.Player.ReplaceTrackMetadata | desktop/src/stores/player.ts:518-529 | likewise, merging the fields of every entry of the same URN |
| Continuation.PagedSource.Next | desktop/src/lib/queue-continuation.ts:46-66 | one page per call, done at the first empty or last page, unmoved by a failed request |
| Continuation.Autopilot.ArmLikesContinuation | desktop/src/lib/queue-continuation.ts:75-91 | the start page is the one the queue's length falls in; if the queue holds the first likes, no page before it is missing |
| Continuation.Autopilot.FetchUnseen | desktop/src/lib/queue-autopilot.ts:72-98 | pages are asked for until one brings something the queue lacks, and the loop ends; in step with a list, that is its next part, and an empty answer means the whole list is queued |
| Continuation.Autopilot.ContinueFromContextSource | desktop/src/lib/queue-autopilot.ts:68-98 | true: the queue grew and playback moved on, in step with a list to a longer prefix of it and its first new track; false: the queue is untouched and the list is used up or a request failed |
| Continuation.Autopilot.AutopilotContinueFromTrack | desktop/src/lib/queue-autopilot.ts:33-61 | the wave gets its turn only when the source gave up, which in step with a list means that all of it is queued, failures apart; a second call in flight does nothing |
| Continuation.WholeListIsQueued | desktop/src/lib/queue-continuation.ts:75-80 | repeated continuation queues the whole list, within one continuation per incomplete page |
| Continuation.ContinuedGrows | desktop/src/lib/queue-autopilot.ts:75-97 | each continuation makes progress until the list is used up |
| Continuation.UnseenOfPage | desktop/src/lib/queue-autopilot.ts:89 | leaving out known tracks from an overlapping page leaves exactly what the queue lacks, in order |
| ContinuationRuns.ListBeforeWave | desktop/src/lib/queue-autopilot.ts:33-98 | over every interleaving of requests with moving about, running into the end again and playing other things, as long as no call has strayed: the queue is a prefix of the list until the wave, and the wave is asked only with the whole list queued, failures apart |
| ContinuationRuns.UndisturbedNeverStrays | desktop/src/lib/queue-autopilot.ts:31-61 | no call strays as long as nothing else is played while one is in flight |
| ContinuationRuns.CallStraysExactly | desktop/src/lib/queue-autopilot.ts:68-98 | a request is of the play whose queue this is exactly when its source is the armed one, and a call strays exactly when it adds or gives up while its source is not |
| ContinuationRuns.WaveStraysExactly | desktop/src/lib/queue-autopilot.ts:45-54 | a wave strays exactly when it brings something unseen and its call began during another play; an armed source never waits behind a wave of its own play |
| ContinuationRuns.OwnCallContinues | desktop/src/lib/queue-autopilot.ts:75-97 | a call that does not stray extends the queue along its list and plays on, or gives up with all of it queued or a request failed |
| ContinuationRuns.StrayCallIntrudes | desktop/src/lib/queue-autopilot.ts:77-95 | one that does adds its page to another play's queue, or disarms whatever source is armed |
| ContinuationRuns.CallComesToAnEnd | desktop/src/lib/queue-autopilot.ts:72-98 | a call whose pages keep coming ends: with the queue continued to the end of the first page that has anything new, or asking the wave with the whole list queued |
| ContinuationRuns.ActionsAreThePlayers | desktop/src/lib/queue-autopilot.ts:92-96 | every action leaves in queue and index what actions of the player's queue make of them: a play, a move, or an addition followed by `next` |
| ContinuationRuns.EndedAsks | desktop/src/lib/queue-autopilot.ts:33-45 | the end of the queue begins one call, of the armed source if there is one, and none while one is in flight |
| ContinuationRuns.RunKeepsInv | desktop/src/lib/queue-autopilot.ts:31-98 | the invariant behind them: an armed source is the current play's, and unless something strayed, queue, source and the request's snapshot are in step with the list |
| ContinuationRuns.StalePageJoinsNewQueue | desktop/src/lib/queue-autopilot.ts:68-98 | the run in which a page of the old list joins a queue played since |
| ContinuationRuns.StaleGiveUpDisarmsNewSource | desktop/src/lib/queue-continuation.ts:82-91 | the run in which other likes are played and armed while the last page is on its way, and lose their source to the old call's give-up |
| AuthRecovery.AtMostOneRenew | desktop/src/lib/auth-recovery.ts:31-69 | over every run at most one renew is in flight, and phase silent or busy implies one is |
| AuthRecovery.RunKeepsInv | desktop/src/lib/auth-recovery.ts:25-122 | the invariant behind it, over all events in any order |
| AuthRecovery.NoSpinnerOutlivesItsRenew | desktop/src/lib/auth-recovery.ts:42-66 | however a renew ends, no silent phase and no spinner is left |
| AuthRecovery.CancelledIsCalledOff | desktop/src/lib/auth-recovery.ts:28-49 | the generation test says exactly whether a success has called the current attempt off |
| AuthRecovery.ModalExactly | desktop/src/lib/auth-recovery.ts:47-61 | the modal is raised exactly by a renew that failed with 401 and that no success called off |
| AuthRecovery.CalledOffFailsQuietly | desktop/src/lib/auth-recovery.ts:47-49 | a renew that was called off and fails leaves the idle phase |
| AuthRecovery.SuccessClosesExactly | desktop/src/lib/auth-recovery.ts:99-105 | in terms of the events: a success closes the modal or the silent attempt, and calls off the renew in flight, exactly when the user is neither retrying nor signing in |
| AuthRecovery.UserSteers | desktop/src/lib/auth-recovery.ts:31-66 | what the busy and sign-in flags mean in terms of the events |
| AuthRecovery.LoginDoesNotCallOff | desktop/src/lib/auth-recovery.ts:112-122 | the run in which a stale rejection raises the modal after a full login |
| AuthRecovery.RenewStartsExactly | desktop/src/lib/auth-recovery.ts:71-105 | which events start a renew: a retry; a gap or an escalating hit when idle and past the cooldown; none while one runs |
| AuthRecovery.AccumulatorIsUnspent | desktop/src/lib/auth-recovery.ts:79-100 | the accumulator forgets only hits that a success or an escalation spent, or that are too old |
| AuthRecovery.EscalationNeedsThreeHits | desktop/src/lib/auth-recovery.ts:79-87 | an escalation has two earlier hits within 15 s and no success since |
| AuthRecovery.CooldownHolds | desktop/src/lib/auth-recovery.ts:71-76 | for 5 s after the last recovery, by whichever event, no gap and no rate limit starts a renew |
| AuthRecovery.Recovery.StartRenew | desktop/src/lib/auth-recovery.ts:31-46 | the handler is the specified step |
| AuthRecovery.Recovery.Start | desktop/src/lib/auth-recovery.ts:71-76 | likewise |
| AuthRecovery.Recovery.NoteRateLimit | desktop/src/lib/auth-recovery.ts:79-87 | likewise |
| AuthRecovery.Recovery.NoteAuthGap | desktop/src/lib/auth-recovery.ts:90-92 | likewise |
| AuthRecovery.Recovery.NoteSuccess | desktop/src/lib/auth-recovery.ts:99-105 | likewise |
| AuthRecovery.Recovery.RetryRenew | desktop/src/lib/auth-recovery.ts:108-110 | likewise |
| AuthRecovery.Recovery.RenewSettles | desktop/src/lib/auth-recovery.ts:43-65 | likewise, for the continuation of a renew |
| AuthRecovery.Recovery.CompleteReauth | desktop/src/lib/auth-recovery.ts:113-122 | likewise, once the login is complete |
| AuthRecovery.Recovery.MarkRecovered | desktop/src/stores/auth-recovery.ts:43 | likewise |
| AuthRecovery.Recovery.Reset | desktop/src/stores/auth-recovery.ts:44 | likewise |
| YmPlaylists.TitleRoundTrip | desktop/src/stores/ym-import.ts:85-95 | a chunk's title is read back as its index |
| YmPlaylists.TitleOfIndex | desktop/src/stores/ym-import.ts:89-95 | a title read as an index is that index's own title exactly when its number has no leading zero |
| YmPlaylists.ChunkArray | desktop/src/stores/ym-import.ts:77-83 | the loop computes the chunks |
| YmPlaylists.ChunksPartition | desktop/src/stores/ym-import.ts:77-83 | chunks lose nothing and reorder nothing |
| YmPlaylists.ChunkSizes | desktop/src/stores/ym-import.ts:77-83 | each holds between 1 and `size` items of the list |
| YmPlaylists.ChunkAt | desktop/src/stores/ym-import.ts:77-83 | chunk i is the stretch from i * size on, by position |
| YmPlaylists.KeyIsInjective | desktop/src/stores/ym-import.ts:235-242 | equal chunk keys mean equal chunks |
| YmRuns.RunKeepsInv | desktop/src/stores/ym-import.ts:209-340 | the invariant of matches, timers and coalesced flushes, over all interleavings |
| YmRuns.SkippingIsRewriting | desktop/src/stores/ym-import.ts:239-260 | after a flush the remote playlists are what rewriting every chunk gives |
| YmRuns.RecordedKeysAreTrue | desktop/src/stores/ym-import.ts:209-325 | between flushes, playlist i holds the chunk recorded under key i |
| YmRuns.QuietRemoteIsCurrent | desktop/src/stores/ym-import.ts:209-393 | with no flush running, queued or scheduled, the playlists in order are the reversed matches |
| YmStale.StaleAreDeleted | desktop/src/stores/ym-import.ts:186-271 | once a final flush was asked to delete stale playlists, with something matched, none is left beyond the chunks of all matches whenever no flush runs or waits, whatever flushes it was merged with |
| YmStale.CleanedDeletesExactly | desktop/src/stores/ym-import.ts:186-207 | the deletions take exactly the playlists of the import beyond the chunks of that flush |
| YmStale.OthersAreSpared | desktop/src/stores/ym-import.ts:89-95 | over every run, a playlist with another title is neither written nor deleted |
| YmStale.TimersDeleteNothing | desktop/src/stores/ym-import.ts:209-271 | a run without a final flush deletes nothing and rewrites nothing needlessly |
| YmStale.NoMatchNoChange | desktop/src/stores/ym-import.ts:209-271 | a run without a match leaves the playlists alone, stale-deleting flushes included |
| YmStale.WritesExactly | desktop/src/stores/ym-import.ts:150-184 | in every run, a chunk is left alone exactly when the flush is not finalizing and the same tracks were written last; and a write goes for an existing playlist exactly when there is one, so none is made twice |
| YmStale.FinalizingRewrites | desktop/src/stores/ym-import.ts:239-260 | a finalizing flush puts every chunk in place, whatever was recorded |
| YmStale.FlushLosesNoFlag | desktop/src/stores/ym-import.ts:216-221 | merging a flush with those that wait loses no flag |
| YmSync.ReversedAt | desktop/src/stores/ym-import.ts:233 | reversal by position: the newest match first |
| YmSync.WriteKeepsInv | desktop/src/stores/ym-import.ts:150-184 | a skipped chunk is in place already, a written one is put in place |
| YmSync.CleanedKeepsInv | desktop/src/stores/ym-import.ts:186-207 | deleting stale playlists removes only those past the last chunk |
| YmRuns.PendingExactly | desktop/src/stores/ym-import.ts:209-340 | in every run, what is matched is flushed or about to be exactly when no match came after the last snapshot, or a flush that takes another is waiting or looking up |
| YmRuns.EndingIsExact | desktop/src/stores/ym-import.ts:342-393 | after the end of a run has been wound down, the chunks last written, which the playlists hold, are those of all matches exactly when at the end no match had come after the last snapshot, or a flush was waiting or looking up |
| YmRuns.EndingShowsExactly | desktop/src/stores/ym-import.ts:342-393 | given a snapshot of something and a new last match, the playlists hold all matches exactly in these cases |
| YmRuns.LostMatchShows | desktop/src/stores/ym-import.ts:233-235 | a new match that came too late is missing at the head of the first playlist |
| YmRuns.LateMatchIsLost | desktop/src/stores/ym-import.ts:387-391 | the run, with events only where the flush waits, in which a match arrives while the final flush writes, and is lost |
| Hls.FetchSegmentBatch | streaming/src/stream/hls.rs:225-263 | whatever order requests complete in, slots and failures are those of asking each index once |
| Hls.FetchSegments | streaming/src/stream/hls.rs:169-216 | the refresh loop computes the order-free rounds; a fetched segment is not asked for again |
| Hls.DownloadHls | streaming/src/stream/hls.rs:138-223 | the download is the order-free specification, with at most MAX_M3U8_REFRESH + 1 rounds of requests |
| Hls.DownloadMeaning | streaming/src/stream/hls.rs:138-223 | it succeeds exactly when some round completes all segments; behind the init data, byte j of segment i is at the total length of the segments before it plus j, and there is nothing else |
| Hls.ConcatIsLaidOut | streaming/src/stream/hls.rs:218-222 | the assembled bytes, by position |
| Hls.PreludeMeaning | streaming/src/stream/hls.rs:150-167 | when the init data is accepted, and that it is the fetched one |
| Hls.Assemble | streaming/src/stream/hls.rs:218-222 | the loop appends the bodies in playlist order |
| Hls.RoundsMeaning | streaming/src/stream/hls.rs:169-216 | the rounds succeed exactly with the first bodies obtained per segment |
| Hls.AskedOncePerRound | streaming/src/stream/hls.rs:138-223 | no index is requested more often than there are rounds |
| Hls.StaysFrugal | streaming/src/stream/hls.rs:225-263 | each batch asks only for what is still missing |
| Hls.FinishedRounds | streaming/src/stream/hls.rs:172-181 | once all is there, nothing more is asked |
| Hls.ParseM3u8 | streaming/src/stream/hls.rs:51-72 | the line loop computes the init map and the media lines in order |
| Hls.MapLine | streaming/src/stream/hls.rs:56-64 | a map tag gives its URI |
| Hls.PlaylistRoundTrip | streaming/src/stream/hls.rs:51-72 | a written playlist is read back |
| ListCache.EveryStateIsASnapshot | backend/src/cache/list_cache_service.rs:130-180 | under any interleaving of loads, fetches, saves and losses, every stored state is a chunk-boundary prefix with its cursor and flag |
| ListCache.ListCacheService.GetPage | backend/src/cache/list_cache_service.rs:243-293 | the answer and the new store for every load, fetch and save outcome, quick path and locked path |
| ListCache.AdvanceIsAfter | backend/src/cache/list_cache_service.rs:264-288 | fetching from a snapshot gives a later one, long enough, exhausted, or 8 chunks on |
| ListCache.AfterIs | backend/src/cache/list_cache_service.rs:264-288 | against a list given as chunks and links: a snapshot is the concatenation of the first chunks with the link behind them, and is exhausted exactly from the last chunk, or the first empty one, on |
| ListCache.StoredIsFirstChunks | backend/src/cache/list_cache_service.rs:130-180 | under any interleaving, so is whatever is stored |
| ListCache.AfterGrows | backend/src/cache/list_cache_service.rs:264-288 | later snapshots extend earlier ones |
| ListCache.PagesArePrefixes | backend/src/cache/list_cache_service.rs:295-311 | a page served is a prefix of the page of any longer state, and a last page is final |
| ListCache.FullPageExactly | backend/src/cache/list_cache_service.rs:243-311 | a request that is answered serves its page in full exactly when the page lies beyond the list, or the stored state and the next 8 chunks reach to the end of the page or list |
| ListCache.DenseChunksFillPages | backend/src/cache/list_cache_service.rs:264-288 | with chunks of at least limit/8 items, n chunks bring n * limit / 8 items |
| ListCache.ReadPage | backend/src/cache/list_cache_service.rs:243-311 | the next page of a dense list is complete |
| ListCache.ReadAll | backend/src/cache/list_cache_service.rs:243-311 | pages 0, 1, 2, ... until has_more is false terminate and are the concatenation of all chunks of the upstream list, from any stored prefix |
| ListCache.SparseChunksSkipItems | backend/src/cache/list_cache_service.rs:264-311 | one-item chunks make two consecutive pages skip items |
| JsonScanner.ExtractBalancedJson | streaming/src/stream/cookies.rs:386-415 | returns the shortest prefix whose braces outside strings balance, and nothing exactly when there is none |
| JsonScanner.MachineCountsBraces | streaming/src/stream/cookies.rs:391-413 | the scanner's depth is the count of braces outside strings |
| JsonScanner.RunString | streaming/src/stream/cookies.rs:392-402 | inside a string it leaves exactly at the closing quote, escapes included |
| JsonScanner.ObjectIsShortestBalanced | streaming/src/stream/cookies.rs:386-415 | an object text before any tail is exactly its shortest balanced prefix |
| JsonScanner.ExtractObject | streaming/src/stream/cookies.rs:386-415 | so the scanner returns exactly the object text |
| JsonScanner.NeutralValue | streaming/src/stream/cookies.rs:386-415 | every JSON value is neutral to the scanner |
| TranscodingOrder.RankedTranscodings | streaming/src/stream/anon.rs:454-511 | the loops give the ordering of the playable entries by block, preset and position |
| TranscodingOrder.TieredTranscodings | streaming/src/stream/cookies.rs:107-146 | the six filters give the stable sort of the offered entries by tier |
| TranscodingOrder.OrderingIsUnique | streaming/src/stream/anon.rs:454-511 | there is only one such ordering |
| TranscodingOrder.OrderingRepeatsNothing | streaming/src/stream/anon.rs:454-511 | it loses and repeats nothing |
| TranscodingOrder.TierFilterIsTier | streaming/src/stream/cookies.rs:107-146 | the six overlapping filters partition the transcodings |
| TranscodingOrder.PresetStep | streaming/src/stream/anon.rs:481-503 | a preset round adds the first entry of its preset |
| TranscodingOrder.RestStep | streaming/src/stream/anon.rs:489-509 | the closing rounds add what is left in input order |
| CacheIndex.CacheService.SetRaw | backend/src/cache/cache_service.rs:82-110 | the transaction's effect on data and index, zero lifetimes and expired indexes included |
| CacheIndex.CacheService.ClearIndex | backend/src/cache/cache_service.rs:173-187 | all members go, for any number of them across 500-sized chunks, and nothing else; if the store fails on the way, some of them go and the index stays |
| CacheIndex.CacheService.ClearByCacheKeys | backend/src/cache/cache_service.rs:112-142 | the indexes named by the trimmed keys are cleared in whatever order; one that fails is skipped, its index stays, and nothing outside the named indexes goes |
| CacheIndex.TrimTakesTheEnds | backend/src/cache/cache_service.rs:117-123 | trimming takes white space from the ends of a key, and all of it |
| CacheIndex.IndexKeyIsInjective | backend/src/cache/cache_service.rs:190-200 | index names coincide only for the same index, given session ids without colons |
| CacheIndex.ColonSessionsCollide | backend/src/cache/cache_service.rs:190-200 | with a colon two sessions can share a name |
| CacheRuns.RunKeepsInv | backend/src/cache/cache_service.rs:82-187 | over every run of harmless writes, every live registered entry is in its key's live index, and every clear under way still has it on its list |
| CacheRuns.StoreKeepsInvExactly | backend/src/cache/cache_service.rs:82-110 | a write keeps this exactly when it does not shorten the index's life, and its entry, if it will live, is on the list of every clear of the index under way |
| CacheRuns.SetKeepsCoverExactly | backend/src/cache/cache_service.rs:99-106 | a write keeps this exactly when it does not shorten the index's life below another live entry's |
| CacheRuns.FinishKeepsCoverExactly | backend/src/cache/cache_service.rs:185 | dropping an index keeps it exactly when no entry still lives under it |
| CacheRuns.ClearLeavesNothing | backend/src/cache/cache_service.rs:173-187 | when a clear finishes, no entry registered under the index is readable, but for those past their recorded expiry |
| CacheRuns.ClearedKeysAreGone | backend/src/cache/cache_service.rs:112-142 | the same for the clear of several cache keys |
| CacheRuns.PromptEntriesAreGone | backend/src/cache/cache_service.rs:101-102 | an entry written without delay is never among the exceptions |
| CacheRuns.OnlyListedEntriesGo | backend/src/cache/cache_service.rs:173-187 | an entry goes only as a member on the list of a clear, and changes only by a write to it |
| CacheRuns.DeletesInChunks | backend/src/cache/cache_service.rs:181-184 | each deletion takes the next 500 members, and exactly those |
| CacheRuns.RaceOrphansAnEntry | backend/src/cache/cache_service.rs:175-185 | a write during a clear stays readable and in no index |
| CacheRuns.ShorterLifeOrphansAnEntry | backend/src/cache/cache_service.rs:103-105 | a shorter lifetime takes the index down before a longer entry |
| Throttle.Throttle.Wait | backend/src/common/throttle.rs:19-38 | the slot reserved under the lock, and a sleep to exactly that slot |
| Throttle.SlotsAreSpaced | backend/src/common/throttle.rs:19-38 | slots in lock order are at least one interval apart |
| Throttle.SlotIsTheLargestDemand | backend/src/common/throttle.rs:19-38 | slot k is the largest over j <= k of now_j + (k - j) * interval: nobody waits needlessly |
| Throttle.WindowHoldsFew | backend/src/common/throttle.rs:19-38 | a window of width w holds at most floor(w / interval) + 1 slots |

## Left out

- HTTP, NATS, Redis, S3, Google Drive and database clients, ffmpeg and ffprobe: only their outcomes appear, as arbitrary values.
- Rounding, infinities and not-a-number in durations: durations are reals, clocks are integers.
- Cancellation at shutdown and dropped client connections: upload handlers run to completion; a cancelled or raising bus call leaves its delivery unsettled.
- The concurrent lane of the worker: its semaphore discipline is the simple half of the batched lane's.
- The order of jobs in the dispatcher's channel and the batch deadline: any waiting job may join a batch, and a batch may start at any size.
- Closed channels and dropped replies in the writer pool and the pipeline.
- Best-effort removals of temporary and staged files are taken to succeed.
- LocalStore.LocalBackend.ProcessWriterJob: does not contain the early return for a missing source, which the local backend never reports; `UploadPipeline` has it as an outcome. The backoff delays are not modelled.
- FileLocks.EveryOfferStaysMet: covers commits that report success; an offer whose system calls fail is not stored. Deletions through the files route, which take no lock, are not among the actions.
- UploadQuota.RunAccounts: takes one add at a time per upload, and all bytes received, offered and seeded together to stay below 2^64. The walk over the directory is one arbitrary result.
- Files left in the upload directory: a request that fails after its bytes were accepted drops its reservation but leaves its file, so the counter can also fall below the disk; `UploadQuota` has the counter and the reservations, not the files.
- UploadQuota.CoversExactly: the interleaved rescans come one at a time but at any distance; the cooldown is in `UploadQuota.Rescanner` only, and skips rescans.
- The player's `isPlaying` flag, volume, rate and pitch, and persistence.
- PlayerStore.Player.MoveInQueue: takes positions in the queue, which is what the rows of the queue view pass; with a `from` beyond the end the source would put an undefined entry into the queue, and negative positions would count from the end.
- Continuation.Autopilot.AutopilotContinueFromTrack: takes the wave's or the related tracks' answer as given, and runs without interruption, which `ContinuationRuns` does not assume; pausing after an empty or failed wave is not modelled.
- ContinuationRuns.ListBeforeWave: the listener moves within the queue and plays other things but does not edit the queue; adding, removing or moving entries while a list is played on, and shuffle, are not among the actions.
- Continuation.Autopilot.ContinueFromContextSource: the statements about the list assume a stable list of distinct tracks with shuffle off, and a queue that holds its first entries.
- AuthRecovery.RenewStartsExactly: assumes that the clock does not run backwards between rate-limit hits. Query invalidation, and a login whose session cannot be stored, are left out.
- YmRuns.EndingIsExact: with repeated matches, or nothing snapped by the end, playlists that were there before may hold a lost match by coincidence, so the playlists' side is one way; `YmRuns.EndingShowsExactly` has both for a new last match.
- YmRuns.QuietRemoteIsCurrent: assumes playlist calls that succeed, distinct playlist titles, URNs without NUL characters, and a run that ends with no match left to its timer.
- YmPlaylists.TitleOfIndex: numbers in titles are exact; titles with more digits than a double holds exactly are read as they stand.
- Hls.ParseM3u8: takes lines as given and URL resolution as an arbitrary function; body validators are part of the fetch outcome.
- JsonScanner.ExtractObject: the grammar of values is a superset of that of RFC 8259 (literals and numbers are arbitrary texts without braces and quotes); overflow of the 32-bit depth counter is not modelled.
- The list cache's per-key lock table, its prefix index and its expiry: losses of stored entries are arbitrary.
- CacheRuns.RunKeepsInv: assumes that no caller's clock is ahead of the store's, and harmless writes; a clear whose store fails on the way is part of `CacheIndex` but not of these runs.
- CacheIndex.IndexKeyIsInjective: says nothing of the hashed data keys; SHA-256 is not modelled.
- Throttle.Throttle.Wait: the sleep itself and the fairness of the lock are left to the runtime; lock order is the order of calls.
- Configuration, routing, authentication of uploads, filename canonicalisation, user interface and formatting: no hard property.
