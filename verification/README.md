# Verified model of the Game Boy play server

A Dafny 4.11 model of the parts of this repository where state, timing and order decide whether play is
correct. `dafny verify dfyconfig.toml` checks all of it.

| file | models |
|---|---|
| `PlayTypes.dfy`, `PlayDefaults.dfy`, `Text.dfy` | the values of a play request; its named regions and wall-clock budget; stripped and lower-cased text |
| `Phases.dfy` | flattening a hold, mash or script into phases of one chord |
| `EngineReference.dfy` | the play engine as it would be one frame at a time, and what that guarantees |
| `InputEngine.dfy`, `PlayCall.dfy` | the engine itself: chunks, ticks, buttons, timeouts, proved against the reference |
| `EngineRuns.dfy`, `CallShots.dfy` | what the log and the pictures of whole calls show and what mode "all" hands back of them, with four calls worked out |
| `Sampling.dfy`, `ScreenshotPlan.dfy` | half-to-even sampling and the selection of screenshots |
| `UntilMonitor.dfy` | the caller's `until` rule and the default abort, with their streak counters |
| `SharedCounter.dfy` | which requests' calls keep the promises of the counter those two share |
| `BlackRect.dfy` | the summed-area search for the largest near-black box |
| `IntentRequests.dfy`, `IntentWire.dfy`, `IntentCalls.dfy` | the small calls an intent is made of, and the payloads that stand for them |
| `Intents.dfy` | the intents as loops of play calls, and the frames they can use |
| `PlaySchema.dfy`, `PlayWire.dfy` | the request parser, and the trip of a request from host to instance |
| `CommandLoop.dfy` | the emulator thread, its callers and its stoppers, interleaved |
| `Sessions.dfy` | loads and stops over the registry of instances, interleaved |
| `Uploads.dfy` | the resumable upload store with its batches |
| `OAuth.dfy` | consents, codes and refresh tokens over whole runs |

How the pieces fit. A picture is the list of chords played up to it: any deterministic emulator's LCD is a
function of that list, so equal lists mean equal pictures. The clock is any sequence of readings and the
emulator may stop at any tick. A monitor is any function of the frames it was shown;
`UntilMonitor.Evaluate` proves that the real one is such a function, and `Intents.Execute` runs the engine
with it. An intent is a chain of such calls, each asked for because of the picture then shown.
`PlayCall.RunPlayInput` ties every call to `EngineReference.Run`, so each lemma about the reference
holds of every call. Threads are models of atomic steps; a claim about runs is proved of every reachable
state. Methods are proved equal to specification functions, and the properties are proved of those.

Every lemma turns automatic induction off, so each rests only on the proof written in it.

## Where the code does less than it seems to

Each of these is a theorem of the model, with the exact condition where the promise holds.

- A call that times out files a final picture. The code composes a frame first only if no frame was composed
  on purpose earlier in the call; if one was, the picture filed can be older than the frames reported
  (`EngineRuns.TimedOutPicture` says exactly when; `EngineRuns.StaleFinalPicture` is such a call). If none
  was, one extra frame is played that the call does not count (`EngineReference.ExtraTick`, in the contract
  of `RunPlayInput`).
- Every chord change of a call is rendered at its first tick, except the release of a mash that fires while
  its button is down; fired in a release phase, nothing changes and nothing is missed
  (`EngineRuns.ChordChangesSeen`, `MashReleaseSeen`, `UnrenderedRelease`). The released gap also runs past
  the frame budget (`EngineReference.CallBudget`).
- The caller's `until: blocked` and the default abort of a directional hold count on one counter. For N from
  2 to 11 the caller's answer comes too late or too early in some call of every request with room for
  min(N + 1, 5 + N / 2) evaluations, and in no call of a shorter one (`SharedCounter.BlockedPromise`,
  `BrokenPromise`). For N of 12 or more, the default, the caller's answer never comes, and with room for ten
  evaluations the abort can end the call after six still ones instead of twelve (`AbortPromise`,
  `AbortTooEarly`, `CallerNeverBlocks`).
- The two latches of `until: classifier, disappears` decide nothing: it fires on the first evaluation that
  does not show the thing, seen before or not (`UntilMonitor.DisappearsIsAbsence`).
- A single `append_chunk` has no rollback: after a failed write the upload still agrees with its metadata if
  and only if no byte landed (`Uploads.FailedWriteAgrees`). A retry of the last index accepts any non-empty
  tail of the file, not just the last chunk (`Uploads.RetryIsIdempotent`).
- A call that passes the running check can be left unanswered, whatever the worker was doing at the time
  (`CommandLoop.StrandedCommand`). Once the thread has ended, a command is unanswered if and only if it was
  appended after the worker last took the queue (`CommandLoop.UnansweredCameTooLate`).
- A start that raises after launching leaks a live instance, and a live instance found not running is
  forgotten; either way the same email can then have two (`Sessions.LeakedLaunch`, `MisjudgedInstance`).
- In mode "all", a fired mash with more than forty-four records hands back no interrupt
  (`CallShots.MashInterruptKept`, `LostInterrupt`), and a call that times out at a frame already filed labels
  two shots final (`AllLabelsFit` says exactly when; `TwoFinalShots`).
- The internal parser accepts a wait whose frame cap cuts it short, and rejects the same request when it is
  sent on (`PlayWire.CutWaitIsRejected`). The public arguments never build one (`PlaySchema.ArgsNormalised`).

## Model

| member | source | states |
|---|---|---|
| `PlayCall.RunPlayInput` | gb_mcp/emulator/input_engine.py:22-203 | For every play, interval, keyframe rule, monitor and clock: with no timeout the chunked engine plays the same chord in every frame, makes the same monitor calls, keeps the same records and reports the same frame count and stop reason as the one-frame-at-a-time reference; the steps reported are exactly the reported phases with a frame played, the first if none was, and at a timeout just before a chunk that chunk's phase too; a timeout is reported exactly when a clock reading was late, the readings being one at the start and one before and after each chunk, and the call is then the reference cut at that chunk; a dead emulator ends a call only at a tick that failed; every exit leaves no button held |
| `PlayCall.CutChunk` | gb_mcp/emulator/input_engine.py:74-97 | A chunk goes exactly to the next phase end, evaluation, keyframe, step shot or last frame and not past one, and its flags say which of them are due there |
| `PlayCall.NextEvalIsNext` | gb_mcp/emulator/input_engine.py:256-262 | The next evaluation frame is the first later multiple of the interval, or the end |
| `PlayCall.ChunkPlayed` | gb_mcp/emulator/input_engine.py:79-117 | A chunk adds its frames at once, and leaves on the LCD exactly what frame-by-frame play would |
| `PlayCall.RunChunk` | gb_mcp/emulator/input_engine.py:79-158 | For the reference a whole chunk is one look at its last frame: nothing is due inside it |
| `InputEngine.TickWithoutRender` | gb_mcp/emulator/input_engine.py:291-296 | Unrendered ticks play exactly the frames asked for, at most four at a time, and leave the LCD alone |
| `InputEngine.TickChunk` | gb_mcp/emulator/input_engine.py:265-288 | A chunk's ticks sum to the chunk; rendered ticks play one frame; the first is rendered after a chord change and the last when the LCD is needed |
| `InputEngine.SetButtons` | gb_mcp/emulator/input_engine.py:305-316 | The buttons held become exactly the phase's set, and the answer says whether that is a change |
| `InputEngine.ReleaseAll` | gb_mcp/emulator/input_engine.py:319-329 | Lets go of every button held |
| `InputEngine.ChangesAppend` | gb_mcp/emulator/input_engine.py:100-106 | If each chunk renders its first tick after a chord change, so does the whole log |
| `EngineReference.QuietStretch` | gb_mcp/emulator/input_engine.py:79-90 | Frames at which nothing is due can be played in one go without changing anything observed |
| `EngineReference.EvaluationSchedule` | gb_mcp/emulator/input_engine.py:74-115 | The i-th monitor call, index i, is at frame min((i+1)*interval, total), on the picture of that frame, whatever the phases and keyframes |
| `EngineReference.EvaluationCount` | gb_mcp/emulator/input_engine.py:74-115 | How many evaluations have been made after n frames |
| `EngineReference.EvaluationsAtMost` | gb_mcp/emulator/input_engine.py:74-115 | No call makes more evaluations than its frames over the interval, rounded up |
| `EngineReference.RunShows` | gb_mcp/emulator/input_engine.py:116-118 | A monitor that decides nothing on the first m - 1 of those pictures is shown the m-th, and the call does what it then answers |
| `EngineReference.FirstDecision` | gb_mcp/emulator/input_engine.py:116-148 | A call stops at the first evaluation the monitor decides on, and only there |
| `EngineReference.RecordsOrdered` | gb_mcp/emulator/input_engine.py:119-158 | Record indices strictly increase and each record shows the picture of its own frame, phase and kind |
| `EngineReference.CheckpointRecorded` | gb_mcp/emulator/input_engine.py:149-158 | Every keyframe checkpoint reached is recorded |
| `EngineReference.StopRecorded` | gb_mcp/emulator/input_engine.py:119-158 | The frame a call stops at is recorded last |
| `EngineReference.OneFinalRecord` | gb_mcp/emulator/input_engine.py:119-191 | Every finished call has exactly one final record: the last, at the frame count the call reports |
| `EngineReference.LatePictureIsCurrent` | gb_mcp/emulator/input_engine.py:182-191 | The last picture of a call that no monitor ended shows all frames played if and only if the frame it stopped at was an evaluation, a keyframe, a step shot or the last, or began a new chord, or no such frame came before it |
| `EngineRuns.TimedOutPicture` | gb_mcp/emulator/input_engine.py:182-191 | The same of every call that times out |
| `EngineRuns.StaleFinalPicture` | gb_mcp/emulator/input_engine.py:182-191 | A whole call on a clock that runs out: it reports six frames and files the picture of frame four as final, against the comment above the flag |
| `EngineRuns.ChordChangesSeen` | gb_mcp/emulator/input_engine.py:119-135 | The first tick after every chord change of a finished call is rendered if and only if the call is not a mash fired while its chord was held |
| `EngineRuns.MashReleaseSeen` | gb_mcp/emulator/input_engine.py:129-135 | In terms of the request: a mash fired at frame n renders its release if and only if (n - 1) mod (press + release) >= press |
| `EngineRuns.UnrenderedRelease` | gb_mcp/emulator/input_engine.py:129-135 | A whole mash call whose release is not rendered |
| `EngineRuns.MashInterruptPlace` | gb_mcp/emulator/input_engine.py:119-145 | The interrupt of a fired mash is its second to last record and its only one |
| `CallShots.MashInterruptKept` | gb_mcp/emulator/vision.py:1268-1285 | Of the records of a fired mash mode all hands back an interrupt if and only if there are at most forty-four |
| `CallShots.LostInterrupt` | gb_mcp/emulator/vision.py:1268-1285 | A whole mash call stopped by its monitor after sixty frames: it hands back thirty shots, and none is the interrupt |
| `CallShots.AllLabelsFit` | gb_mcp/emulator/vision.py:1268-1285 | Of what mode all hands back of a call the last shot alone is labelled final, unless the call ended undecided, before its last frame, at a frame the loop had already filed, and at most forty-four shots were taken |
| `CallShots.TwoFinalShots` | gb_mcp/emulator/vision.py:1268-1285 | A whole call that times out at the end of a step: both shots it hands back are labelled final |
| `EngineReference.DecisionEnds` | gb_mcp/emulator/input_engine.py:116-148 | After a decision nothing more happens |
| `EngineReference.CallBudget` | gb_mcp/emulator/input_engine.py:41-43 | A call advances at most min(max_frames, 21600) frames, plus a gap of 12 to 16 exactly when a mash fires |
| `Phases.MashPhases` | gb_mcp/emulator/input_engine.py:235-253 | The mash loop builds exactly the phase list of the specification |
| `Phases.PhasesFor` | gb_mcp/emulator/input_engine.py:206-232 | The phase list of a hold, mash or script is built and cut as specified |
| `Phases.TruncateHeld` | gb_mcp/emulator/input_engine.py:219-232 | Cutting at the budget keeps exactly the first `budget` frames of what is held |
| `Phases.MashHeld` | gb_mcp/emulator/input_engine.py:235-253 | In a mash the button is held at frame f exactly when f mod (press + release) < press |
| `Phases.FlattenedSchedule` | gb_mcp/emulator/input_engine.py:206-253 | Frame by frame, the phases are the first `budget` frames of the unbounded schedule of the request |
| `Sampling.RoundDiv` | gb_mcp/emulator/vision.py:1084 | Rounds to the nearest integer, ties to the even neighbour |
| `Sampling.RoundDivUnique` | gb_mcp/emulator/vision.py:1084 | The two clauses of half-to-even rounding leave only one answer |
| `Sampling.EvenIndexSpread` | gb_mcp/emulator/vision.py:1076-1088 | Rounded even samples never collide, start at 0 and end at the last record |
| `Sampling.EvenIndices` | gb_mcp/emulator/vision.py:1076-1088 | For count > cap >= 2 exactly cap strictly increasing indices, from 0 to count - 1 |
| `Sampling.GreedyPickSound` | gb_mcp/emulator/vision.py:1228-1244 | The greedy picks are records with distinct indices, at most one per target |
| `Sampling.GreedyPickReachesTop` | gb_mcp/emulator/vision.py:1228-1244 | The highest index recorded is always picked |
| `Screenshots.PicksAroundCover` | gb_mcp/emulator/vision.py:1228-1248 | The picks and the interrupt are at most five distinct records covering the top index and the interrupt |
| `Screenshots.ScreenshotPlan.Record` | gb_mcp/emulator/vision.py:1116-1136 | Appends the shot and remembers the last frame and the last interrupt index |
| `Screenshots.ScreenshotPlan.SortedPicks` | gb_mcp/emulator/vision.py:1228-1255 | At most five shots in order of frame, the highest index last: the trimming branch is never needed |
| `Screenshots.ScreenshotPlan.SelectKeyframes` | gb_mcp/emulator/vision.py:1228-1266 | At most five shots with strictly increasing indices, covering the highest recorded and the interrupt, the last being the only one of a final kind |
| `Screenshots.ScreenshotPlan.SelectAll` | gb_mcp/emulator/vision.py:1268-1285 | All records, or thirty evenly spread with both ends kept, in order; every label: interrupts as such, as final the final records and whatever else stands at the last frame, the rest as steps |
| `Screenshots.AllKindsFit` | gb_mcp/emulator/vision.py:1268-1285 | Only the last shot is labelled final, if and only if no other shot kept stands at its frame without being the interrupt |
| `Sampling.SecondToLastKept` | gb_mcp/emulator/vision.py:1076-1088 | Of more than thirty records the second to last is kept if and only if there are at most forty-four |
| `UntilMonitor.UntilMonitor.Evaluate` | gb_mcp/emulator/vision.py:853-861 | Until it decides, the answer of the counters and latches is the one the whole history of frames gives by definition, so the monitor is a function of the frames shown |
| `UntilMonitor.UntilMonitor.EvalStable` | gb_mcp/emulator/vision.py:1013-1025 | The stable streak is the run of settled evaluations since the first |
| `UntilMonitor.UntilMonitor.EvalOverworld` | gb_mcp/emulator/vision.py:976-995 | The overworld streak is the run of settled evaluations without battle or text |
| `UntilMonitor.UntilMonitor.EvalBlocked` | gb_mcp/emulator/vision.py:945-960 | One use of the blocked counter, with the grace period of the default abort |
| `UntilMonitor.UntilMonitor.EvalClassifier` | gb_mcp/emulator/vision.py:1046-1064 | Agrees with the memoryless rule: the two latches never decide anything |
| `UntilMonitor.UntilMonitor.EvalLumaJump` | gb_mcp/emulator/vision.py:962-974 | Fires on a fade, or once a new cover seen earlier is gone |
| `UntilMonitor.UntilMonitor.EvalDefaultHoldAbort` | gb_mcp/emulator/vision.py:898-931 | The scene reasons in their order, then blocked |
| `UntilMonitor.RunMeans` | gb_mcp/emulator/vision.py:945-960 | A streak of n is n evaluations in a row, none before the start |
| `UntilMonitor.StableFires` | gb_mcp/emulator/vision.py:1013-1025 | `stable` fires if and only if the last N evaluations after the first all settled |
| `UntilMonitor.OverworldFires` | gb_mcp/emulator/vision.py:976-995 | `overworld` fires if and only if the last N evaluations after the first settled without battle or text box |
| `UntilMonitor.BlockedFiresAlone` | gb_mcp/emulator/vision.py:945-960 | `blocked` without a counting default abort fires if and only if the last N evaluations after the first were still |
| `UntilMonitor.AbortFiresAlone` | gb_mcp/emulator/vision.py:945-960 | The default abort alone needs twelve still evaluations in a row after the four of grace |
| `UntilMonitor.AbortFiresEarlyWhenShared` | gb_mcp/emulator/vision.py:853-861 | With the counter shared, the default abort needs only six |
| `UntilMonitor.BlockedFiresShared` | gb_mcp/emulator/vision.py:853-861 | Exactly when the caller's `blocked` fires with the counter shared |
| `SharedCounter.ShownIsHistory` | gb_mcp/emulator/vision.py:853-861 | What a call shows its monitor are growing pictures, none before the last decided on |
| `SharedCounter.BlockedPromise` | gb_mcp/emulator/vision.py:945-960 | Over all calls of a request (all eyes, capture plans, earlier frames and lengths), the caller's `blocked` answers exactly on N still evaluations in a row, if and only if the default abort does not count too, or N is 1, or N is at least 12, or the hold has room for fewer than min(N + 1, 5 + N / 2) evaluations |
| `SharedCounter.BrokenPromise` | gb_mcp/emulator/vision.py:945-960 | For every other request, a call of that request in which the caller's answer is wrong |
| `SharedCounter.AbortPromise` | gb_mcp/emulator/vision.py:898-931 | Over all calls of a request, the default abort ends a call as blocked only after twelve still evaluations in a row past the grace period, if and only if the counter is not shared, or N is below 12, or the hold has room for fewer than ten evaluations |
| `SharedCounter.AbortTooEarly` | gb_mcp/emulator/vision.py:898-931 | For every other request, a call of that request that the abort ends after six |
| `SharedCounter.NeverTwelveInARow` | gb_mcp/emulator/vision.py:853-861 | With the counter shared no call lives to see twelve still evaluations in a row |
| `SharedCounter.CallerNeverBlocks` | gb_mcp/emulator/vision.py:853-861 | With the counter shared and N at least 12, a call never ends with the caller's `blocked` |
| `BlackRect.FourLookups` | gb_mcp/emulator/vision.py:687-692 | Four entries of the summed-area table give the dark count of any box |
| `BlackRect.Search.Cumulate` | gb_mcp/emulator/vision.py:684-685 | Every table entry is the direct count of its corner box |
| `BlackRect.Search.RectFill` | gb_mcp/emulator/vision.py:687-692 | The looked-up fill is the quotient of dark count and area as the machine rounds it, whatever the rounding, and 0 for an empty box |
| `BlackRect.Search.Take` | gb_mcp/emulator/vision.py:697-705 | A box replaces the best if strictly larger and dark enough |
| `BlackRect.Search.TakeCornerRow` | gb_mcp/emulator/vision.py:720-724 | Breaking out of a row skips only boxes too small to win |
| `BlackRect.Search.TakeCorners` | gb_mcp/emulator/vision.py:716-724 | Breaking out of the rows skips only boxes too small to win |
| `BlackRect.SmallBoxesSkip` | gb_mcp/emulator/vision.py:718-723 | Boxes no larger than the best so far never change the result |
| `BlackRect.AllCandidatesListed` | gb_mcp/emulator/vision.py:707-724 | The boxes scanned are exactly the top, bottom, left, right and bottom-right anchored ones |
| `BlackRect.LargestNearBlackRect` | gb_mcp/emulator/vision.py:680-725 | The pruned search returns the first largest box among all candidates meeting the fill, and nothing exactly when none meets it |
| `CommandLoop.WakeKept` | gb_mcp/emulator/loop.py:433-445 | Every step of worker, callers and stoppers keeps the events from lagging behind the list and the stop flag |
| `CommandLoop.LockKept` | gb_mcp/emulator/loop.py:438-445 | The lock is held by exactly the thread in its critical section |
| `CommandLoop.OrderKept` | gb_mcp/emulator/loop.py:476-501 | Every step keeps: appended commands are answered, in hand or queued, in order |
| `CommandLoop.OwnersKept` | gb_mcp/emulator/loop.py:438-445 | Each call appends at most one command |
| `CommandLoop.NoLostWakeup` | gb_mcp/emulator/loop.py:653-668 | In every reachable state, a worker at or in its wait with the event clear and nobody about to set it has an empty queue and no stop to see |
| `CommandLoop.CommandsConserved` | gb_mcp/emulator/loop.py:438-445 | In every reachable state appended = answered ++ batch ++ queue, and no command is answered twice |
| `CommandLoop.QueueIsUnswept` | gb_mcp/emulator/loop.py:476-481 | In every reachable state the queue is what was appended after the worker last took it |
| `CommandLoop.UnansweredCameTooLate` | gb_mcp/emulator/loop.py:638-685 | When the thread is gone, the commands answered are exactly those appended before it last took the queue; the later ones are still queued and never answered |
| `CommandLoop.HistoryGrows` | gb_mcp/emulator/loop.py:476-501 | Answers and appended commands are never taken back |
| `CommandLoop.ExitGoesOn` | gb_mcp/emulator/loop.py:653-685 | Once a stop is requested the worker can always take another step towards its end |
| `CommandLoop.StrandedCommand` | gb_mcp/emulator/loop.py:438-445 | From every reachable state in which a new call passes the running check, it can go unanswered: its command stays in the queue of a thread that is gone |
| `Sessions.StepKeeps` | gb_mcp/emulator/session.py:346-412 | Every step of every load, stop and backend keeps the registry and liveness invariants |
| `Sessions.EveryInstanceAccounted` | gb_mcp/emulator/session.py:346-412 | In every reachable state a live instance is the registered one of its email, or is being launched under the lock, or was leaked or wrongly marked dead |
| `Sessions.OneLiveInstancePerEmail` | gb_mcp/emulator/session.py:346-412 | Apart from instances gone astray, an email never has two live instances |
| `Sessions.AstrayOnlyIfMisled` | gb_mcp/emulator/session.py:52-62 | An instance goes astray only where the backend denies a live instance or a start raises after launching |
| `Sessions.TruthfulBackend` | gb_mcp/emulator/session.py:203-218 | With a backend that never misleads nothing goes astray, over any run of loads, stops, resets and shutdowns |
| `Sessions.StoppedIsDead` | gb_mcp/emulator/session.py:588-618 | A stop that answers stopped names an instance that is dead for good, unless it went astray |
| `Sessions.LeakedLaunch` | gb_mcp/emulator/session.py:379-406 | From every reachable state where a launch succeeded and its start then raises, a load for another game gets the email a second live instance, and no stop reaches the first |
| `Sessions.LockLeaves` | gb_mcp/emulator/session.py:346-412 | From every reachable state the load holding the lock can give up, with the registry and every live instance as they were |
| `Sessions.MisjudgedInstance` | gb_mcp/emulator/session.py:128-146 | From every reachable state with a live registered instance, one status call that finds it not running leads there too, whoever holds the lock |
| `Uploads.DoKeepsAgreement` | gb_mcp/storage/uploads.py:278-357 | Each append or batch keeps the file equal to the accepted chunks, its length to received_bytes and next_index to their number; a failed one changes nothing |
| `Uploads.FailedWriteAgrees` | gb_mcp/storage/uploads.py:278-311 | After a failed write of a single append the upload still agrees with some list of chunks if and only if no byte landed |
| `Uploads.RunAgrees` | gb_mcp/storage/uploads.py:278-425 | Agreement after any sequence of accepted, rejected, retried and batched appends |
| `Uploads.RetryIsIdempotent` | gb_mcp/storage/uploads.py:341-354 | Repeating the last index never changes the upload; it is accepted if and only if the data ends the file |
| `Uploads.BatchIsAllOrNothing` | gb_mcp/storage/uploads.py:383-425 | Whatever fails wherever in a batch, file and metadata are as before; otherwise the batch is the fold of single appends |
| `Uploads.BatchSucceeds` | gb_mcp/storage/uploads.py:405-420 | A batch succeeds if and only if it starts at the next index, fits, and none of its writes fails |
| `Uploads.UploadRoundTrip` | gb_mcp/storage/uploads.py:323-425 | Any in-order slicing, by single appends and batches, with repeats of the last slice, stray requests, failed writes and rolled-back batches in between, builds exactly the concatenation |
| `Uploads.TakeReturnsTheFile` | gb_mcp/storage/uploads.py:428-447 | After such an upload take_assembled returns exactly the file |
| `Uploads.UploadStore.ExpireUploads` | gb_mcp/storage/uploads.py:80-101 | An upload is deleted if and only if its age has reached the limit; every other one is left as it was |
| `Uploads.LocateFinds` | gb_mcp/storage/uploads.py:104-115 | An upload is found if and only if its id is well formed and it is younger than the limit at the sweep and not older at the second look; nobody else's live upload is touched |
| `Uploads.UploadStore.BeginUpload` | gb_mcp/storage/uploads.py:140-200 | A new upload starts empty at index 0 with the sanitised name, size, digest and owner it was begun with, or nothing changes; each rejection exactly when its check fails |
| `Uploads.UploadStore.ApplyDecodedChunk` | gb_mcp/storage/uploads.py:278-311 | Writes one chunk as the specification says, and touches no other upload |
| `Uploads.UploadStore.RollbackUpload` | gb_mcp/storage/uploads.py:314-320 | Restores the file's length and the metadata |
| `Uploads.UploadStore.AppendOne` | gb_mcp/storage/uploads.py:323-357 | The single append, its checks in order and its retry rule |
| `Uploads.UploadStore.AppendMany` | gb_mcp/storage/uploads.py:360-425 | The batch append, its checks in order, and its all-or-nothing result |
| `Uploads.UploadStore.TakeAssembled` | gb_mcp/storage/uploads.py:428-447 | Returns the file only when complete and of the announced digest |
| `Intents.Execute` | gb_mcp/emulator/play_runtime.py:82-98 | One internal call is exactly n frames of the reference engine, cut at a boundary, with the monitor and capture plan of its request, and reports that run's frames, stop reason, steps and records, after the opening picture of a film |
| `Intents.CallFlow` | gb_mcp/emulator/input_engine.py:182-191 | Such a call reports at most its limit, and plays what it reports and at most one frame more |
| `Intents.FramesAccounted` | gb_mcp/emulator/intents.py:121-143 | Over the chain of calls of an intent the emulator plays the frames reported, and at most one more per call |
| `Intents.IntentPlays` | gb_mcp/emulator/intents.py:121-143 | So a finished intent moves the emulator by what it reports, within its bound, and at most one frame more per call |
| `Intents.RewrittenMashHoldsNothing` | gb_mcp/emulator/play_runtime.py:181-214 | A public mash with no text box in sight holds no button, for twelve frames |
| `Intents.Merge` | gb_mcp/emulator/intents.py:121-143 | The merged result reports the exact sum of its parts, and is otherwise the last |
| `Intents.AskFlow` | gb_mcp/emulator/intents.py:199-221 | A wait, tap or hold reports at most its frames, an A mash at most twelve more |
| `Intents.IntentRun.Add` | gb_mcp/emulator/intents.py:62-77 | Each part of an intent is one engine call on the picture then shown, and extends the chain that accounts for everything played |
| `Intents.AdvanceText` | gb_mcp/emulator/intents.py:224-301 | Mashes A exactly while text shows and otherwise waits; stops with no text shown unless the frames are used up or a mash played nothing; reports at most max(90, b + 27) frames for a budget of b |
| `Intents.WaitTurnEvent` | gb_mcp/emulator/intents.py:440-476 | Waits in slices of at most eight frames, each begun with nothing to answer, within a budget that may already be spent; stops only when something needs an answer, the budget is spent, or a wait played nothing |
| `Intents.BattleTurn` | gb_mcp/emulator/intents.py:479-550 | Mashes text, gives a battle without text one A, and waits in between, nothing else; at most 16 answers and 3627 frames; stops only when neither battle nor text shows, or at the frame cap, or after 16 answers |
| `Intents.BattleUntilOverworld` | gb_mcp/emulator/intents.py:559-592 | One mash, or a short wait when neither battle nor text shows; says overworld exactly when neither shows before or after; at most max(16, b) + 12 frames |
| `Intents.SkipIntro` | gb_mcp/emulator/intents.py:595-633 | Taps Start and A only while neither menu nor text shows, and stops only when one does, the cap is reached, or a tap played nothing; at most cap + 15 frames |
| `Intents.RunAway` | gb_mcp/emulator/intents.py:312-424 | One or two attempts, the second if and only if the first leaves the battle on; each is text first if any shows, then, unless text was all there was, B, a wait, the way to the last command if a pane shows, and a wait for the world; at most 888 frames |
| `Intents.EnterDoor` | gb_mcp/emulator/intents.py:644-682 | Exactly a hold towards the door and a wait for the world, within their two limits |
| `Intents.DoorDirection` | gb_mcp/emulator/intents.py:636-641 | The first direction asked for, or up if there is none |
| `IntentWire.UntilArrives` | gb_mcp/emulator/intents.py:270-274 | Every condition the intents send parses to the rule it means |
| `IntentWire.ReadPlaysSend` | gb_mcp/emulator/intents.py:95-105 | Whatever request the instance has read, its speed, scale and media word can be sent on |
| `IntentWire.AskArrives` | gb_mcp/emulator/intents.py:95-221 | A wait, A mash, script or hold within the parser's limits is sent as a payload that reads back as exactly the request it stands for |
| `IntentWire.StepsRead` | gb_mcp/emulator/intents.py:179-180 | The button script parses to the script it means |
| `IntentCalls.EveryCallArrives` | gb_mcp/emulator/intents.py:62-77 | Every call an intent makes is within those limits: its payload reads back as the request that the engine ran |
| `PlaySchema.ParseNormalises` | gb_mcp/emulator/input_schema.py:417-606 | Every request the parser accepts is normalised: in range, with distinct buttons, and of one of the four shapes |
| `PlaySchema.NormalizeButtons` | gb_mcp/emulator/input_schema.py:173-191 | Names in order, each only where it first occurs |
| `PlaySchema.PlannedStepFrames` | gb_mcp/emulator/input_schema.py:398-402 | The planned frames are the length of the script |
| `PlaySchema.ArgsNormalised` | gb_mcp/emulator/input_schema.py:892-958 | What the public arguments build is normalised, and its frame cap never cuts its script |
| `PlayDefaults.TimeoutFor` | gb_mcp/emulator/input_schema.py:405-414 | The wall-clock budget is between 90 and 180 seconds, and below 180 covers the planned frames and five seconds more |
| `PlayWire.WireRoundTrip` | gb_mcp/tools/play.py:43-48 | A normalised request sent over the wire and parsed again is accepted if and only if its frame cap does not cut its script, and then arrives equal but for a chord turned script and the second copy of the intent |
| `PlayWire.PublicPlayArrives` | gb_mcp/emulator/play_runtime.py:56-70 | Every public request that is accepted arrives at the instance as the play it stands for, with any screenshot mode and scale put on top |
| `PlayWire.CutWaitIsRejected` | gb_mcp/emulator/input_schema.py:541-559 | A wait accepted with a smaller frame cap is rejected when parsed again |
| `PlayWire.SameCall` | gb_mcp/tools/play.py:43-48 | The request that arrives gives the engine the same schedule, budget, interval, timeout and intent |
| `PlayWire.SameVerdict` | gb_mcp/emulator/vision.py:853-861 | ... and its monitor the same answer to every history |
| `PlayWire.HashRegionsReadBack` | gb_mcp/emulator/input_schema.py:340-355 | The table of named regions survives the wire |
| `PlayWire.UntilReadsBack` | gb_mcp/emulator/input_schema.py:244-318 | An until rule survives the wire |
| `OAuth.Provider.TakePending` | gb_mcp/oauth.py:146-152 | A consent token is removed by the first attempt and returned only before its deadline |
| `OAuth.Provider.ExchangeAuthorizationCode` | gb_mcp/oauth.py:167-181 | A code is gone after the first attempt, whoever makes it; tokens only for its own client |
| `OAuth.Provider.ExchangeRefreshToken` | gb_mcp/oauth.py:192-209 | A refresh token is gone after the first attempt; a new one takes its grant over |
| `OAuth.Provider.IssueTokensLocked` | gb_mcp/oauth.py:232-281 | Tokens carry the grant's client, resource, issuer and email |
| `OAuth.Provider.CompleteConsent` | gb_mcp/oauth.py:504-546 | The form works once and only in time; asking again is the same request with the same deadline under a new token; a code carries the request's client, resource and issuer and a normal email; no other answer stores a code |
| `OAuth.CompleteIsTwoSteps` | gb_mcp/oauth.py:504-546 | Completing a consent is two steps of a run, so what holds of every run holds of it |
| `OAuth.NormalizeIdempotent` | gb_mcp/storage/db.py:106-115 | Normalising an email again changes nothing |
| `OAuth.StepKeeps` | gb_mcp/oauth.py:140-209 | Every step keeps each name tied to one consent, and each consent to what was asked of it |
| `OAuth.RedeemedOnce` | gb_mcp/oauth.py:146-209 | Over whole runs no consent token, code or refresh token is redeemed twice (sections 4.1.2 and 6 of RFC 6749) |
| `OAuth.TokensKeepTheirConsent` | gb_mcp/oauth.py:232-281 | Every access token issued carries the client, issuer, resource and normalised email of the consent it descends from |
| `OAuth.OneCredential` | gb_mcp/oauth.py:140-209 | A consent is never worth two live credentials at once |
| `OAuth.OnlyItsOwnClient` | gb_mcp/oauth.py:167-209 | Whoever redeems a live code or refresh token uses it up, and only its own client gets tokens for it |
| `OAuth.AnsweredInTime` | gb_mcp/oauth.py:146-152 | A form is answered only by the deadline of its consent |
| `OAuth.RedisplayKeepsDeadline` | gb_mcp/oauth.py:549-568 | However often its form is shown again, a consent keeps its first deadline |
| `OAuth.ConsentsAreKept` | gb_mcp/oauth.py:504-570 | What a consent asked for never changes, nor its email once given |

## Left out

- Uploads.UploadStore.AppendOne: base64, SHA-256 and the sanitising of file names are arbitrary functions, and the rollback's own writes do not fail.
- UntilMonitor.UntilMonitor.Evaluate: pixel deltas, classifiers, luminance and hashes are arbitrary functions of frames, so their thresholds are not modelled.
- BlackRect.Search.Cumulate: the two numpy cumulative sums are one loop over rows, and the table holds whole numbers, which floats of that size hold exactly.
- Intents.Merge: the pictures of the parts are stated per call by `Intents.Execute` and are not carried into the merged result.
- PlaySchema.ParseNormalises: error messages are not modelled, nor numeric strings inside a region; text is ASCII when stripped and lower-cased.
- PlayWire.WireRoundTrip: an object is the fields the parser reads; keys it ignores are not carried.
- Sessions.EveryInstanceAccounted: a container reused by its name after a restart of the server is not modelled, nor are status payloads; the removal of an instance found not running may or may not take effect.
- CommandLoop.StrandedCommand: a call's own timeout, after which it raises, is not a step of the model.
- CommandLoop.NoLostWakeup: safety only; that a waiting worker is scheduled again is not part of the model.
- OAuth.Provider.ExchangeAuthorizationCode: PKCE, the expiry of codes and refresh tokens and the signature of access tokens are checked by library code outside the model.
- OAuth.RedeemedOnce: random tokens are names never used before; the HTML page and redirects are not modelled.
- Exceptions from pressing a button or setting the emulation speed: in the model only a tick can end a call.
- PNG, GIF and OCR output, `_select_interrupt_and_final`, and the shaping of public results: they would only add straight-line members.
- The order of steps inside a crash between two file writes, Docker plumbing, HTTP routes, the ROM header checks and the catalogue.
