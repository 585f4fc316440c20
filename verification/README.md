# Recording backend: protocols and invariants

The backend files interview recordings: it matches a recording with a calendar event and a Notion card,
uploads it to a Synology NAS or an S3 store, shares it, updates the card, asks the recruiter when it is
unsure, and cleans up the source. Almost every step talks to an outside system and is followed by a commit,
and the process may be cut off between the two. This project models those protocols in Dafny 4.11 and proves
what they guarantee over all runs.

Each protocol has the same shape. A datatype `State` (or `System`, `Store`) holds the outside systems, the
rows, the clock and the program points; `Event` lists the requests, commits, crashes, clock advances and
moves of others; `Step` is one event, `Run` a sequence of them, so a lemma about `Run` speaks of every
interleaving and every crash. How a request ends is a parameter of its event: well, without effect, or with
an effect and no answer. `Inv` is the inductive invariant. History fields (counters, flags) are written and
never read by the protocol. Beside the theorems over all runs, lemmas spell out in statuses and columns what one
operation ends in: exactly when it is accepted, what it leaves when nothing disturbs it, and what a request
without an answer leaves. Where the code updates objects in place, a class does the same with its fields,
and every method is proved to change the state exactly as `Step` says.

| file | what it models |
| --- | --- |
| `Values.dfy` | nullable values, and how a request ends |
| `SynologyUpload.dfy` | the ownership-marker upload, any number of concurrent calls |
| `SynologyPaths.dfy`, `Destinations.dfy` | path normal forms, allowed roots, the SQL filter |
| `FolderDiscovery.dfy` | the bounded, paginated breadth-first folder discovery |
| `ObjectStorage.dfy` | S3 re-chunking, and object creation without overwrite |
| `Pipeline.dfy` | the recording row, its status table, and all six writers with their stale sessions |
| `PipelineOutcomes.dfy` | what every commit of the pipeline leaves in the row, by status and reply |
| `DeadEnds.dfy` | from where a recording can still be completed |
| `UnleasedRoute.dfy` | what the non-interview route, which holds no lease, can break, and exactly when |
| `TransferTarget.dfy` | where a transfer puts the file |
| `TransferRecovery.dfy` | a transfer cut off and resumed, on top of the upload protocol |
| `Reroute.dfy`, `RerouteInvariant.dfy`, `RerouteSafety.dfy` | the reroute saga with the verified move |
| `RerouteOutcomes.dfy` | what each request of a reroute leads to, and what an undisturbed attempt leaves |
| `RerouteCompletion.dfy` | from where an interrupted reroute can still be finished |
| `RerouteOverlap.dfy` | any number of reroute attempts at the same time |
| `NotionReassignment.dfy`, `Cleanup.dfy`, `CleanupOverlap.dfy` | the other two sagas, the last one with any number of confirmations at work |
| `RoutingJobs.dfy`, `RoutingOverlap.dfy` | routing jobs; and closing one while others write its recording |
| `IntentReplay.dfy`, `ProcessingLease.dfy` | idempotent requests, and the lease of a recording |
| `Reviews.dfy` | answers and batches |
| `QuestionQueue.dfy`, `QuestionQueueOverlap.dfy` | digests and the outbox; and several drains of it at the same time |
| `Matching.dfy` | the calendar matcher |

## Where the code falls short of its promise

Several properties one would expect do not hold. For each there is a lemma that shows the failure, and one
that says exactly when the property holds, over all states and events or over all runs.

- A reroute that failed after its link was stored completes on retry without looking at the card
  (`RetryAfterFailureSkipsCard`). An attempt completes with the card read back exactly when the operation had
  not failed when it began, or the card had been read back before
  (`CompletesWithCardReadExactlyUnlessFailed`).
- A reroute cut off between the two moves of the file and of its marker can never be finished
  (`CrashBetweenTheMovesIsFinal`); a retry recognises a move exactly when both arrived
  (`InterruptedMoveIsRecoveredExactlyWhenComplete`). The move may be asked for again, exactly as long as it had
  no effect (`RetryAsksAgainExactlyWhenNotMoved`); it takes effect at most once (`TheFileSurvivesOverlap`).
- Whether an interrupted reroute can still be finished under its key, by any run, depends on what row, NAS and
  the moves under way allow, and `CanFinishExactlyWhenFinishable` says on what: the version was not left, the
  recording may be rerouted, the path was never used; a pending file still has its size and can get its marker,
  with source and target path as free as its phase needs them; and a failed operation has its link.
- A reroute to a path that any recording ever used never completes (`UsedPathNeverCompletes`); the swap goes
  through exactly on a new one (`SwapCompletesExactlyOnFreshPath`).
- Reroute attempts overlap once the ten minutes of the first are over. Then a second link can be created
  (`SlowAttemptSharesTwice`), exactly by an attempt whose look is older than another one's link
  (`LinkedOnceExactlyUnlessSharedAgain`), and an older attempt can write its phase over the completed row
  (`CompletedRowIsOverwrittenExactly`). File and artifacts stand (`TheFileSurvivesOverlap`,
  `ArtifactsAreSwappedOnce`, `SwapIsFinalInOverlap`).
- The swap of a reroute writes the version its attempt loaded plus one. That raises the version by one exactly
  when nobody raised it meanwhile and lowers it exactly when it was raised by more than one (`SwapVersion`,
  `VersionFallsUnderLateSwap`), and nothing else beside reroute attempts lowers it
  (`VersionFallsExactlyByLateSwap`).
- A reroute that outlives its ten minutes clears somebody else's lease (`SlowRerouteLetsTwoResumesIn`), and only
  then can two callers work at once (`SecondClaimSucceedsExactlyAfterDisorder`).
- The second transaction of the non-interview route holds no lease. It can complete a recording without a path
  (`LateRouteCompletesWithoutPath`), exactly when between its two commits a failed transfer was started over
  and not uploaded again (`CompletesWithoutPathExactlyAfterReset`). It can lower a version or leave manual
  review at the same version (`LateRouteLeavesManualReview`), exactly by an upload that meets manual review or
  a completion over a newer row (`OrderBreaksExactlyByDisorderlyCommits`,
  `RunsAreInOrderExactlyWithoutDisorder`). What that does to completed recordings and to questions that are
  waiting is `RunsAreSettledExactlyUntilUnsettled`.
- A reassignment onto the same card loses the link (`SameCardLosesTheLink`); an undisturbed one keeps it
  exactly for two cards (`UndisturbedKeepsLinkExactlyForTwoCards`). For two cards it is lost exactly
  by an edit that takes it, or by clearing the source after somebody took it from the target
  (`LinkIsKeptExactly`), and the second never happens while people leave the cards alone during a confirmation
  (`LinkIsNeverLost`).
- A reassignment that was cut off anywhere can be made up for exactly as long as the proposal is current and the
  cards are as it was left: both as their snapshots say, or, once the write of the target is recorded, the
  source as proposed and the link at the target (`RestCompletesExactlyWhileCardsFit`,
  `CutShortRunsCompleteExactlyWhileCardsFit`). So it is stuck when the target was written and that was not
  recorded, unless the target held exactly that link from the beginning (`UnrecordedWriteIsStuck`), and when the
  source was cleared and the completion was not recorded (`ClearedInVainIsStuck`).
- A recording that no resume is working on can still be completed exactly unless it stands in one of four dead
  ends while no route without a lease is about to write it (`CanCompleteExactlyOutsideDeadEnds`): it is ignored;
  its source was marked or deleted; an interview failed before filename, candidate and card were settled
  (`EarlyFailureIsFinal`); or it was matched by an answer without a candidate or a card
  (`UnnamedAnswerIsFinal`). Every recording can end between marking its source and completing
  (`MarkedSourceIsReached`).
- Overlapping confirmations of a reassignment complete twice (`OverlappingConfirmationsCompleteTwice`): a
  second one completes exactly when it still finds the source as proposed
  (`OverlapCompletesTwiceExactlyBeforeClearing`), and there is one completion exactly when no last commit
  meets a completed proposal (`CompletedOnceExactlyWithoutOverlappingCommits`).
- A cleanup can ask the Disk twice for a recording that two previews list (`TwoPreviewsRace`): two open rows
  arise exactly when one confirmation commits its row after another's, having looked before
  (`OneRowExactlyWithoutRaces`); without that it never asks again (`NoSecondMoveWithoutRaces`). It moves the
  source at most once in any case (`MovedAtMostOnceInOverlap`).
- A transfer sent to a second target leaves its first file behind (`ChangedTargetLeavesTwoFiles`); with one
  target there is one file and one link (`OneFileAndOneLink`), and in general there is one file exactly when no
  call creates one while another stands elsewhere (`OneFileExactlyWithoutSecondCreation`).
- An open routing job of an outdated version blocks its recording for good, and any recording can get one
  (`OutdatedJobBlocksForGood`, `JobsBecomeOutdated`): a job can still be closed exactly as long as its
  recording is at its version (`OpenJobCanCloseExactlyAtItsVersion`) and matched
  (`OpenJobCanCloseExactlyWhileUnchanged`).
- Closing a routing job writes the version it read plus one. That raises the version by one exactly when
  nobody raised it since the checks, and lowers it exactly when it was raised by more than one (`ClosingCommit`,
  `VersionFallsUnderLateCommit`).
- Drains of the outbox can take up an item that another drain settled: the claim does not ask again for the
  status, and a delivery asks nothing. Then one question can be delivered any number of times
  (`QuestionIsDeliveredAnyNumberOfTimes`). Settled items stay settled exactly on runs where no claim and no
  delivery meets a settled item (`ItemsStaySettledExactlyInOrder`); there the bounds hold for any number of drains
  (`DigestsAreBoundedInOrder`), and drains that claim what they saw and deliver within their leases stay there
  (`PromptRunIsAtomic`).
- A rejected e-mail choice with an unreadable date still stores its message
  (`UnreadableDateLeavesTheMessage`), and that is all a rejected answer can leave
  (`RejectedAnswerLeavesOnlyTheMessage`).
- The SQL filter for allowed folders lets siblings through when a root contains `_` or `%`
  (`WildcardRootLeaks`). It agrees with the root search exactly for a root without wildcards
  (`FilterAgreesExactlyWithoutWildcards`), and for several roots exactly when each is covered by one without
  (`FilterAgreesExactlyWhenCovered`).

## Model

| member | source | states |
|---|---|---|
| SynologyUpload.ReturningCallsAreJustified | app/tools/synology.py:327-397 | In every interleaving of any number of upload calls to one target, a call that returns finds its own owner record in the marker and a file written under that record; if it did not write the file itself, the stored size is its expected size |
| SynologyUpload.DifferentOwnersNeverBothReturn | app/tools/synology.py:479-486 | Calls with different owner records never both succeed |
| SynologyUpload.NothingIsOverwritten | app/tools/synology.py:374-397 | A marker or file that is stored is never replaced by any later step |
| SynologyUpload.ForeignFileIsNeverTaken | app/tools/synology.py:342-352 | A path that already holds a file without a marker is left as it is, and no call returns it |
| SynologyUpload.OwnMarkerIsReusedExactlyWhenComplete | app/tools/synology.py:343-371 | A retry, or a writer whose answer was lost, that meets its own marker succeeds exactly when the stored length is its announced size |
| SynologyUpload.RunKeepsInv | app/tools/synology.py:327-397 | The protocol invariant over whole runs: what each program point of each call may rely on |
| SynologyUpload.UndisturbedCallReturnsExactlyWhenUsable | app/tools/synology.py:327-372 | A call that nothing disturbs returns exactly when the path is free, or its own marker stands there alone, or beside a file of the announced size; then its marker stands beside that file or beside one it wrote itself, and otherwise it fails and changes nothing |
| SynologyUpload.UnansweredClaimIsReadBack | app/tools/synology.py:374-385 | A claim that lost its answer, or came too late, goes on exactly when the marker that is read back is the caller's own |
| SynologyUpload.UnansweredWriteIsReadBack | app/tools/synology.py:363-371 | A write that lost its answer, or met a file, returns exactly when the file read back has the announced size |
| SynologyUpload.UnansweredLookFails | app/tools/synology.py:342-361 | A look without an answer ends the call for good, with nothing changed |
| SynologyUpload.UploadCall.Advance | app/tools/synology.py:327-397 | One request of a call changes the marker, the file and the call's next step exactly as the protocol step says |
| SynologyPaths.CanonicalKeepsComponentsAndIsIdempotent | app/tools/synology.py:539-545 | A normal form has exactly the non-empty components of its input, and normalising it again changes nothing |
| SynologyPaths.CanonicalIsDeterminedByComponents | app/tools/synology.py:539-545 | Two acceptable paths have the same normal form exactly when they have the same components |
| SynologyPaths.CleanNamesAreCanonical | app/tools/synology.py:539-545 | Every list of clean names, written out with slashes, is a normal form with exactly those components |
| SynologyPaths.UnderRootIsComponentPrefix | app/tools/synology.py:529-537 | A path is accepted under a root exactly when both are acceptable and the root's components are a prefix of the path's; what is returned is the path's normal form |
| SynologyPaths.UnderRootIsTransitive | app/tools/synology.py:529-537 | A path accepted under a root that is itself under an outer root is accepted there, in the same form |
| SynologyPaths.AllowedRootIsTheFirst | app/services/destinations.py:209-216 | The search answers the earliest root that contains the path, and fails exactly when none does |
| SynologyPaths.SearchesAgree | app/services/transfer.py:205-211 | The search of the transfer finds a root exactly when the one of the services does, the same one, with the normal form |
| Destinations.TextPrefixIsComponentPrefix | app/services/destinations.py:219-231 | For normal forms below a real root, "equal or continuing after a slash" is the component prefix |
| Destinations.LikeLiteralPrefix | app/services/destinations.py:219-231 | A pattern without wildcards before its final percent sign matches exactly the texts that start with it |
| Destinations.EscapedIsLiteral | app/services/destinations.py:219-231 | A backslash in a pattern takes away the meaning of the next character |
| Destinations.SqlFilterIsTheRootSearch | app/services/destinations.py:219-231 | For canonical wildcard-free roots the SQL filter selects exactly the paths that the root search accepts |
| Destinations.FilterAgreesExactlyWithoutWildcards | app/services/destinations.py:219-231 | For one canonical root other than "/" the filter and the root search agree on every canonical path exactly when the root holds neither `_` nor `%` |
| Destinations.FilterAgreesExactlyWhenCovered | app/services/destinations.py:219-231 | For several roots they agree exactly when every root with a wildcard lies under one without |
| Destinations.WildcardRootLeaks | app/services/destinations.py:219-231 | For every canonical root with a wildcard, at any depth, there is a canonical path that the filter lets through and the search refuses |
| Destinations.SlashRootIsLost | app/services/destinations.py:219-231 | With "/" as a root the search accepts every path and the filter only "/" itself |
| Destinations.RejectDuplicatePaths | app/services/destinations.py:193-198 | The check passes exactly when no two folders share a path |
| FolderDiscovery.DiscoverFolders | app/tools/synology.py:177-248 | Within the bounds: at most the allowed pages and results, only real folders under the root, always a prefix of the breadth-first listing, and all of it when the scan stops below both bounds, whatever the page size; out-of-range bounds are refused, and a path error has a cause among the directories reached |
| FolderDiscovery.Explore | app/tools/synology.py:197-240 | The outer loop over the queue yields a prefix of the breadth-first listing, and the whole listing below both bounds |
| FolderDiscovery.ReadDirectory | app/tools/synology.py:201-247 | The page loop appends exactly the real folders of one directory and queues them one level deeper, unless a bound stops it |
| FolderDiscovery.TakePage | app/tools/synology.py:221-240 | One page appends its real folders in order, queues them below the depth bound, and stops at the result bound |
| FolderDiscovery.ListedExactlyWhenReached | app/tools/synology.py:177-248 | The breadth-first listing holds exactly the folders that a chain of real folders of at most that depth leads to |
| FolderDiscovery.ListedAreGenuine | app/tools/synology.py:224-235 | Every listed folder is a normal form under the root and no symlink |
| FolderDiscovery.EntryIsReadExactly | app/tools/synology.py:218-235 | An entry raises exactly when it leaves the root or a path of it is unacceptable, and is otherwise kept exactly when its share-relative names end its real path |
| ObjectStorage.Rechunk | app/services/storage.py:108-132 | However a stream is chunked, the parts are numbered from one and their bodies are the one well-formed cut of its bytes |
| ObjectStorage.TakeChunk | app/services/storage.py:111-125 | One chunk moves into the buffer, and full buffers out as parts, with no byte lost or doubled |
| ObjectStorage.PartsAreWellCut | app/services/storage.py:13 | The cut joins to the stream, every part but the last is exactly 5 MiB, the last is not empty, and there is none exactly for the empty stream |
| ObjectStorage.WellCutIsUnique | app/services/storage.py:108-132 | There is only one list of parts with those sizes that joins to a stream |
| ObjectStorage.ChunkingDoesNotMatter | app/services/storage.py:108-132 | Two chunkings of the same bytes give the same parts |
| ObjectStorage.StoredObjectIsOneStream | app/services/storage.py:82-175 | Any interleaving of uploads to a key leaves the object that was there, or byte for byte the stream of one of the calls under its metadata; every returning call finds its own metadata and, unless it wrote the object or was told no length, the size it knows |
| ObjectStorage.DifferentOwnersNeverBothReturn | app/services/storage.py:188-204 | Calls with different recording or content identity never both succeed |
| ObjectStorage.ObjectsStay | app/services/storage.py:151-157 | A stored object is never replaced |
| ObjectStorage.UndisturbedCallReturnsExactlyWhenFreeOrOwn | app/services/storage.py:98-175 | A call that nothing disturbs writes its stream under a free key and returns; under a taken one it writes nothing, and returns exactly when metadata and known sizes agree |
| ObjectStorage.UnansweredCreationIsReadBack | app/services/storage.py:134-167 | A creation without an answer, or at a key taken meanwhile, returns exactly when the object found then agrees |
| ObjectStorage.UnansweredRequestFails | app/services/storage.py:100-110 | Any other request without an answer ends the call for good, with nothing stored |
| ObjectStorage.UploadCall.Advance | app/services/storage.py:82-175 | One request of an upload changes the object and the call as the protocol step says, sending the cut of its own stream |
| Pipeline.StepKeepsInv | app/db/models/recording.py:63-122 | Every commit of every writer keeps the status and field invariant, also from a stale session |
| Pipeline.CommittedStatesAreComplete | app/scheduler/cron.py:1081-1102 | In every reachable state from transfer_started on, filename, identity and a destination or key are set, an interview also has candidate, card and event start; an upload has its path, a shared file its path and link |
| Pipeline.RecoveryBranchesAreDead | app/scheduler/cron.py:1091-1217 | The recovery branches for incomplete state, missing path, missing link and missing date are never taken, neither on loading a row nor between the commits of a run |
| Pipeline.MatchingRunNeverUploadsToSynology | app/scheduler/cron.py:738-779 | With a Synology store the run that matches the candidate never reaches its own upload code |
| Pipeline.CurrentQuestionsFindManualReview | app/services/reviews.py:129-199 | A question of the current version that offers a choice, or is about an interview, finds the recording in manual review |
| Pipeline.NextStatusIsLegal | app/db/models/recording.py:240-253 | Every status a resumed run commits is one the transition table allows from the status it holds |
| Pipeline.MatchedIsEnteredWithNewVersion | app/scheduler/cron.py:712-778 | A recording becomes matched only together with a new version |
| Pipeline.DrivenIsARun | app/scheduler/cron.py:1071-1283 | Resuming stage by stage is the run of the session's commits when nobody else writes |
| PipelineOutcomes.ResumedStageEndsAs | app/scheduler/cron.py:1104-1283 | A committed transfer that is taken up again ends its stage by how the outside calls went: which status follows from which status and reply, with which column, and whether the session goes on |
| PipelineOutcomes.BrokenCallFailsExactly | app/scheduler/cron.py:1109-1127 | It is failed exactly by a broken call where the stage makes one, and sent to the recruiter exactly by a colliding upload |
| PipelineOutcomes.NextStageEndsAs | app/scheduler/cron.py:738-1283 | The same for the later commits of a session over whatever the row has become; a matched candidate without a destination gets a routing job or a question |
| PipelineOutcomes.MatchingEndsAs | app/scheduler/cron.py:514-778 | What the look for the candidate leaves, by status and reply |
| PipelineOutcomes.OthersAreNotResumed | app/scheduler/cron.py:384-402 | Nobody resumes a recording that is being resumed or at rest |
| PipelineOutcomes.CalendarEndsAs | app/scheduler/cron.py:1424-1550 | What the calendar match leaves |
| PipelineOutcomes.ChoiceEndsAs | app/services/reviews.py:469-547 | An answer counts exactly at the version of its question in manual review, and takes the recording to the status and columns of the kind of choice |
| PipelineOutcomes.QuestionIsAskedExactly | app/services/reviews.py:129-199 | A question is asked exactly in manual review, of the row as it is then |
| PipelineOutcomes.InterviewIsRoutedExactly | app/routers/tools.py:500-531 | An interview is routed exactly at its version, matched, in review or failed, with filename, candidate and card; the status, version and columns it then has |
| PipelineOutcomes.OtherIsRoutedExactly | app/services/non_interview.py:38-76 | The same for the route elsewhere, from review or after a failure there |
| PipelineOutcomes.UnleasedRouteEndsAs | app/services/non_interview.py:78-95 | The second transaction of that route uploads exactly from a started transfer, and then completes under the version it loaded plus one |
| PipelineOutcomes.JobIsClosedExactly | app/services/routing_jobs.py:203-256 | A routing job is closed exactly while the recording is matched at its version, into a transfer or a question |
| Pipeline.Recording.TransitionTo | app/db/models/recording.py:240-253 | The status changes exactly when the table allows it |
| Pipeline.Recording.Advance | app/services/status.py:9-28 | A legal advance assigns the status and its columns, an illegal one nothing |
| Pipeline.Recording.TakeInterviewRoute | app/routers/tools.py:500-548 | The route is taken exactly under its guards; it resets a failed attempt, sets destination and identity, drops the key, and raises the version |
| Pipeline.Recording.TakeOtherRoute | app/services/non_interview.py:38-76 | The first transaction of the non-interview route, exactly under its guards |
| Pipeline.Recording.ResumeCommittedSteps | app/scheduler/cron.py:1071-1283 | The chain of stages leaves the row as the commits for the given replies do, and fails an incomplete one |
| DeadEnds.CanCompleteExactlyOutsideDeadEnds | app/scheduler/cron.py:1071-1294 | A recording without a resume at work can be completed by some run of all the writers exactly when a route is about to write it, or it is neither ignored nor cut off behind its source, nor a failed interview without filename, candidate or card, nor matched without candidate or card |
| DeadEnds.EarlyFailureIsFinal | app/scheduler/cron.py:1427-1437 | An interview that fails in its first run, before its candidate is matched, is never completed |
| DeadEnds.PromisedCanStrand | app/scheduler/cron.py:1245-1294 | Every interview whose transfer was promised has a run that cuts it off between marking its source and completing, after which no run completes it |
| DeadEnds.MarkedSourceIsReached | app/scheduler/cron.py:1285-1294 | From every initial state, on either store, a run leads there |
| DeadEnds.UnnamedAnswerIsFinal | app/services/reviews.py:468-547 | An answer that picks a card without a name or a page leads to a match that no run completes |
| UnleasedRoute.OrderBreaksExactlyByDisorderlyCommits | app/services/non_interview.py:78-95 | Of all commits of all writers, a version falls or manual review is left without a new version exactly by the route's upload over manual review, or by its completion over a row newer than its own new version or sent to manual review at it |
| UnleasedRoute.RunsAreInOrderExactlyWithoutDisorder | app/services/non_interview.py:78-95 | Between any two moments of a run versions do not fall and manual review is left only with a new version, exactly when no commit of the run is such a one |
| UnleasedRoute.CompletionIsStoredExactlyWithPath | app/services/non_interview.py:87-94 | A commit completes a recording without path or link exactly when it is the route's last one over a row whose path was reset |
| UnleasedRoute.CompletesWithoutPathExactlyAfterReset | app/services/non_interview.py:78-95 | Whatever happens between the two commits of a session, the last one completes with the link, and without a path exactly when in between a failed transfer was started over and nothing was uploaded since |
| UnleasedRoute.RunsAreSettledExactlyUntilUnsettled | app/services/non_interview.py:78-95 | At every moment of a run a completed recording has path and link and every question of the current version finds manual review, exactly when no commit of the route takes the row from under a question or completes it without a path |
| UnleasedRoute.OnlyDisorderUnsettles | app/services/non_interview.py:78-95 | Such a commit is always a disorderly one or a completion without a path |
| UnleasedRoute.LateRouteCompletesWithoutPath | app/services/non_interview.py:78-95 | A run from the initial state in which a second route resets the row between the two commits of the first, which then completes it without a path |
| TransferTarget.DestinationStaysUnderItsRoot | app/services/transfer.py:64-85 | A chosen destination is uploaded to exactly when it is usable, named and under an allowed root, and then in its normal form under the generated name |
| TransferTarget.KeyIsFolderAndName | app/services/transfer.py:86-89 | An object store accepts a persisted key exactly when it is a folder, a slash and the generated name, and the target is the key again |
| TransferTarget.KeyStaysUnderTheBase | app/services/transfer.py:90-97 | On a Synology store a key leads to a normal form below the base folder |
| TransferTarget.SplitAtLastSlash | app/services/transfer.py:87 | The split of a key separates exactly at the last slash |
| TransferTarget.OtherwiseTheCalendarDecides | app/services/transfer.py:98-106 | Without a destination on the NAS, and without a key and a name for it, the file goes below the base folder, without its final slashes, by date and candidate under its own name, and nowhere without an event |
| TransferTarget.PromisedTransfersHaveAPlace | app/services/transfer.py:98-106 | After transfer_started the calendar folder is used exactly by an object store without a key, never with a Synology store |
| TransferRecovery.StoredFileAndLinkAreOwn | app/scheduler/cron.py:1104-1171 | However often a transfer is cut off and resumed, an uploaded recording has its file at its target under its own marker, a stored link leads to that file, and no target gets a second link |
| TransferRecovery.OwnFilesStandAtTargets | app/services/transfer.py:56-139 | Files of the recording stand only at targets it was sent to |
| TransferRecovery.OneFileAndOneLink | app/services/transfer.py:56-152 | As long as the target stays the same, the NAS ends with at most one file and one link of the recording |
| TransferRecovery.UndisturbedUploadEndsAs | app/services/transfer.py:56-139 | An attempt that nothing disturbs uploads exactly to a target that is free or its own and not spoilt, and leaves its marker and the file there; otherwise it changes nothing and stops the transfer |
| TransferRecovery.UndisturbedSharingEndsAs | app/services/transfer.py:141-152 | An uploaded file is linked by the link that is found, or else by one new link |
| TransferRecovery.FailedSharingEndsAs | app/scheduler/cron.py:1141-1171 | A link request that fails stops the transfer, a lost one leaves its link, and a failed commit or a cut-off leaves the row as it is |
| TransferRecovery.AttemptIsTakenUpExactly | app/scheduler/cron.py:1104-1137 | Only a stopped transfer starts anew, an uploaded one goes on with its link, and nothing else is taken up |
| TransferRecovery.OthersUploadExactly | app/services/transfer.py:110-139 | Other recordings upload anywhere, and calls that outlived their attempt go on; only the awaited call moves with its attempt |
| TransferRecovery.OneFileExactlyWithoutSecondCreation | app/services/transfer.py:56-139 | Through any retries to any targets the NAS ends with at most one file of the recording exactly when none of its calls creates one while another stands at another target |
| TransferRecovery.ChangedTargetLeavesTwoFiles | app/services/transfer.py:56-139 | Once a file stands somewhere, completing at another target leaves two |
| TransferRecovery.StepKeepsInv | app/scheduler/cron.py:1104-1171 | Every request, commit, crash, retry and foreign upload keeps the invariant that ties row, NAS and links together |
| TransferRecovery.FindPublicShareLink | app/tools/synology.py:590-616 | The paginated scan finds the first link of the path, or its absence, whatever the page boundaries, and gives up exactly when the bound of a thousand hides the answer |
| RerouteInvariant.StepKeepsInv | app/services/reroute.py:126-196 | Every step of an attempt, every crash, late move and foreign action keeps the saga's invariant |
| RerouteInvariant.InspectionEntitles | app/tools/synology.py:637-675 | A check of the verified move that finds all well entitles the saga to its next step |
| RerouteInvariant.SwapLeavesOneActive | app/services/reroute.py:209-214 | Deactivating the active artifact and adding a new one leaves exactly the new one active |
| RerouteSafety.PhasesAreProven | app/services/reroute.py:143-178 | Along attempts that do not overlap, a phase beyond the move means proven size and owner at the target; a stored link leads there, and there is at most one |
| RerouteSafety.StatusGoesOnePhaseOn | app/services/reroute.py:126-220 | Each step goes at most one phase on, or into failure; only completion leads out of failure, and artifacts change with completion alone |
| RerouteSafety.PhasesAreOrderedWithoutFailure | app/services/reroute.py:166-196 | Without a failure the status passes the phases in order, and completion means the card was read back |
| RerouteSafety.CompletesWithCardReadExactlyUnlessFailed | app/services/reroute.py:126-224 | An attempt that completes does so with the card read back exactly when the operation had not failed when it began, or the card had been read back before |
| RerouteSafety.CompletingLeavesOneArtifact | app/services/reroute.py:197-223 | The completing step leaves one active artifact that agrees with recording and operation in path and link, at a path that no recording ever used, and the expected version plus one |
| RerouteSafety.UsedPathNeverCompletes | app/db/models/recording_storage_artifact.py:34 | An operation towards a path that any recording ever used never completes, over any run |
| RerouteSafety.CompletedIsFinal | app/services/reroute.py:69-72 | After completion any further attempts with the key change neither rows nor files |
| RerouteSafety.RetryProbesTarget | app/services/reroute.py:126-140 | A retry of a pending operation first looks for the file at its target |
| RerouteSafety.RetryAsksAgainExactlyWhenNotMoved | app/tools/synology.py:639-656 | The move is asked for again exactly when the target is free and the source still carries file and marker |
| RerouteSafety.InterruptedMoveIsRecoveredExactlyWhenComplete | app/tools/synology.py:677-694 | An interrupted move is recognised exactly when the source is gone and the target has full size and marker |
| RerouteSafety.CrashBetweenTheMovesIsFinal | app/services/reroute.py:139-152 | A file moved without its marker is never taken beyond the move, whatever happens later |
| RerouteSafety.CrashAfterFileMoveStrands | app/tools/synology.py:656-668 | A crash right after the first move, at a target without a marker, is such a case |
| RerouteSafety.RetryAfterFailureSkipsCard | app/services/reroute.py:182-230 | A card that lost the link fails the operation, and the same key then completes it without reading the card again |
| RerouteOutcomes.CardShowsOnlyTheNewLink | app/services/reroute.py:180-196 | Along every run in which nobody else edits the card and nothing fails, an operation that has updated the card, or is completed, leaves the new link and nothing else on it |
| RerouteOutcomes.UndisturbedAttemptLeaves | app/services/reroute.py:119-224 | An attempt that nothing disturbs completes in twenty requests and commits: file and marker moved and nothing else touched, one link more, which is all that the card shows, the artifacts swapped, path, link and a new version in the recording, and the lease free |
| RerouteOutcomes.AttemptBeginsExactly | app/services/reroute.py:56-118 | An attempt begins exactly for its own uncompleted operation, under a free lease, at the expected version, for a recording that may be rerouted, and takes the lease for ten minutes |
| RerouteOutcomes.LookFailsExactly | app/tools/synology.py:618-694 | A look fails the operation exactly when it does not find what it wants, or what it finds cannot be read; nothing else changes |
| RerouteOutcomes.CardFailsExactly | app/services/reroute.py:189-194 | A card without the link fails the operation, and one with it is remembered as read |
| RerouteOutcomes.ChoiceFailsExactly | app/services/reroute.py:119-142 | A refused root or property map, or a row that does not fit its phase, such as a failure without a link, fails the operation; otherwise each phase goes on where it stands |
| RerouteOutcomes.SwapFailsExactly | app/services/reroute.py:177-178 | A row without target or link fails the operation before the swap |
| RerouteOutcomes.UnansweredLookReleases | app/services/reroute.py:231-235 | A look that raises another error keeps the phase, frees the lease and changes nothing |
| RerouteOutcomes.LastCommitFails | app/services/reroute.py:224-235 | A last commit that fails leaves everything to the lease, which runs out by itself |
| RerouteOutcomes.LateMoveHappensOnce | app/tools/synology.py:696-711 | A move that was asked for long ago happens once, if it still can |
| RerouteOutcomes.OtherArtifactTakesPath | app/db/models/recording_storage_artifact.py:34 | A path at which another recording gets an artifact is taken |
| RerouteOutcomes.UnansweredMoveReleases | app/services/reroute.py:231-235 | A move without an answer keeps the phase and frees the lease; a lost one has happened and a late one may still happen |
| RerouteOutcomes.UnansweredShareReleases | app/services/reroute.py:231-235 | So does a request to share or to write the card, or a commit that fails; what was lost has happened |
| RerouteCompletion.CanFinishExactlyWhenFinishable | app/services/reroute.py:64-235 | An operation at rest, not completed, can be completed under its key by some run exactly when the recording has not left its version, may be rerouted and no recording ever used the path, and: a pending file has its size, with the source path free and the marker there or bound to come, or not yet moved to a free target with a marker that can follow or that waits for a move under way; a failed operation has its link; a later phase needs no more |
| RerouteOverlap.TheFileSurvivesOverlap | app/tools/synology.py:618-694 | However many attempts of an operation overlap, with crashes, lost answers and late moves: exactly one copy exists, unchanged, at the source or the target; it is moved at most once, and whatever else was stored stays |
| RerouteOverlap.PhasesAreProvenInOverlap | app/services/reroute.py:126-196 | A phase beyond the move, in the row or in the copy of any attempt, means proven size and owner at the target, and a stored link leads there |
| RerouteOverlap.ArtifactsAreSwappedOnce | app/services/reroute.py:197-223 | There is always exactly one active artifact: the first one, or after the one swap that can happen the one at the target, with path and link as the recording shows them |
| RerouteOverlap.SwapIsFinalInOverlap | app/services/reroute.py:197-223 | After the swap no attempt, however old, changes artifacts, path or link again |
| RerouteOverlap.LinkedOnceExactlyUnlessSharedAgain | app/services/reroute.py:170-178 | The file gets at most one public link exactly when no attempt creates one that another has created since it looked |
| RerouteOverlap.SlowAttemptSharesTwice | app/services/reroute.py:170-178 | An attempt that outlives its lease between looking and creating leaves two links together with the next one |
| RerouteOverlap.SwapVersion | app/services/reroute.py:215-220 | The swap sets the expected version plus one, which raises the version by one exactly when nobody raised it during the attempt, and lowers it exactly when it was raised by more than one |
| RerouteOverlap.VersionFallsExactlyByLateSwap | app/services/reroute.py:215-220 | Of everything that happens beside and in any number of attempts, exactly a swap that goes through over a version raised by more than one lowers the version |
| RerouteOverlap.CompletedRowIsOverwrittenExactly | app/services/reroute.py:126-230 | A completed row stops being one exactly by a phase commit or rejection of an attempt with an older copy |
| RerouteOverlap.AdvanceIsSound | app/services/reroute.py:119-234 | A step of an attempt on its own copies of the rows is justified by what it sees, and takes nothing from what other attempts rely on |
| RerouteOverlap.UndisturbedAttemptIsTheSaga | app/services/reroute.py:119-234 | An attempt whose copies are up to date takes the very step of the saga |
| RerouteOverlap.AroundIsTheSaga | app/services/reroute.py:56-118 | Attempts start, stop and are surrounded as those of the saga |
| Reroute.Saga.BeginAttempt | app/services/reroute.py:56-118 | Replay, refusal or start exactly under the guards, and what the first commit writes |
| Reroute.Saga.AdvanceAttempt | app/services/reroute.py:119-234 | One request or commit changes world and program point exactly as the saga step says |
| Reroute.Saga.Perform | app/tools/synology.py:696-711 | A move without overwrite happens exactly when the source exists and the destination is free |
| NotionReassignment.LinkIsNeverLost | app/services/notion_reassignment.py:119-191 | For two different cards, through any number of overlapping confirmations, crashes and failures, and with people editing the cards between confirmations: at every moment the source card is as proposed or the target card holds the link, exactly when no edit takes it |
| NotionReassignment.LinkIsKeptExactly | app/services/notion_reassignment.py:119-191 | With edits at any time the same holds exactly when no edit takes the link and the source is never cleared after the link was taken from the target |
| NotionReassignment.SourceIsClearedOnlyBehindTheTarget | app/services/notion_reassignment.py:157-181 | A confirmation empties the source only from its snapshot and while the target holds the link, and writes to no other card |
| NotionReassignment.CompletionPointsAtTarget | app/services/notion_reassignment.py:182-190 | Completion points the recording at the target, one version above the proposal's, with the link in place; that raises the version by one exactly when nobody raised it meanwhile |
| NotionReassignment.CompletedOnceExactlyWithoutOverlappingCommits | app/services/notion_reassignment.py:112-190 | However confirmations overlap, the proposal is completed at most once exactly when no last commit meets a proposal that is completed already |
| NotionReassignment.OverlapCompletesTwiceExactlyBeforeClearing | app/services/notion_reassignment.py:176-190 | While one confirmation has let go of the lock and not committed, a further one completes as well exactly when it still finds the source as proposed |
| NotionReassignment.OverlappingConfirmationsCompleteTwice | app/services/notion_reassignment.py:178-190 | The lock is released before the source is cleared, so a second confirmation can complete as well |
| NotionReassignment.UndisturbedKeepsLinkExactlyForTwoCards | app/services/notion_reassignment.py:72-191 | A confirmation that nothing disturbs completes, and the recording's card then holds the link exactly when the two cards differ |
| NotionReassignment.SameCardLosesTheLink | app/services/notion_reassignment.py:72-89 | With one and the same card an undisturbed confirmation completes and leaves the field empty |
| NotionReassignment.ResumesExactlyFromTheSnapshot | app/services/notion_reassignment.py:147-155 | A half-done proposal goes on exactly when the source equals its snapshot and the target holds the link |
| NotionReassignment.ConfirmationIsAnsweredExactly | app/services/notion_reassignment.py:112-135 | A confirmation starts exactly for a pending, unexpired proposal at its version; a completed one is replayed to the key that completed it and to no other, and a late one is marked as expired |
| NotionReassignment.UndisturbedConfirmationLeaves | app/services/notion_reassignment.py:136-191 | A confirmation that nothing disturbs leaves the link alone on the target card and nothing on the source card, the recording there with a new version, and a proposal that is replayed to its key only |
| NotionReassignment.UnansweredStepEnds | app/services/notion_reassignment.py:136-191 | A request or commit without an answer, or a cut-off, ends the confirmation and frees the lock; at most a card was written |
| NotionReassignment.ChangedCardsEnd | app/services/notion_reassignment.py:140-155 | Cards that are not as the proposal left them end the confirmation before it writes anything |
| NotionReassignment.UnverifiedTargetEnds | app/services/notion_reassignment.py:165-174 | A target that does not show the link after the write ends the confirmation |
| NotionReassignment.LockKeepsOthersWaiting | app/services/notion_reassignment.py:102-134 | Another confirmation and other writers of the recording wait for the lock |
| NotionReassignment.RestCompletesExactlyWhileCardsFit | app/services/notion_reassignment.py:105-191 | A proposal that nobody works on and that is not completed can still be completed, nobody editing the cards, exactly when it is pending, unexpired and at its version, and both cards equal their snapshots or, after the recorded write, the source equals its snapshot and the target holds the link |
| NotionReassignment.CutShortRunsCompleteExactlyWhileCardsFit | app/services/notion_reassignment.py:105-191 | The same for every state at rest that a run from the proposal leads to, with overlapping confirmations, crashes and edits before |
| NotionReassignment.UnrecordedWriteIsStuck | app/services/notion_reassignment.py:140-176 | Cut off between the write of the target and the commit that records it, a proposal can be completed exactly when the target held nothing but that link from the beginning |
| NotionReassignment.Confirmation.Begin | app/services/notion_reassignment.py:105-135 | The checks under the lock, and what they leave behind |
| NotionReassignment.Confirmation.Advance | app/services/notion_reassignment.py:136-191 | One request or commit of a confirmation, exactly as the step says |
| Cleanup.NoSecondMove | app/services/cleanup.py:183-198 | With one confirmation at work at a time: once a recording has an open or successful row that nobody works on, the Disk is never asked for it again by any preview |
| CleanupOverlap.MovedAtMostOnceInOverlap | app/services/cleanup.py:183-245 | However many confirmations are at work, over any previews a recording has at most one successful move, is then marked deleted, and its source is gone |
| CleanupOverlap.UndisturbedWalkerIsTheService | app/services/cleanup.py:160-246 | A confirmation that no other one disturbs does what the service does alone |
| CleanupOverlap.EnteringIsTheService | app/services/cleanup.py:94-158 | A confirmation that enters is answered as one alone, and goes to work exactly when that one would |
| CleanupOverlap.OneRowExactlyWithoutRaces | app/services/cleanup.py:177-235 | A recording has at most one open or successful row at every moment exactly when no confirmation commits its row after another one has, having looked before |
| CleanupOverlap.NoSecondMoveWithoutRaces | app/services/cleanup.py:177-246 | Without such a race the Disk is never asked again for a recording with an open or successful row that nobody works on |
| CleanupOverlap.TwoPreviewsRace | app/services/cleanup.py:177-235 | Two confirmations of previews that list the same recording can race |
| Cleanup.OnlyMatchingItemsAreMoved | app/services/cleanup.py:199-236 | A move is prepared only for a recording that still matches the snapshot in version, path and link and has no open or successful row |
| Cleanup.RequestIsRecordedFirst | app/services/cleanup.py:227-236 | The Disk is asked only for a row committed as processing, for the item in turn |
| Cleanup.MovedMeansGone | app/services/cleanup.py:233-245 | Over all runs a row that says "moved" belongs to a recording that is marked deleted and whose source is gone |
| Cleanup.MoveIsRecordedAsItWent | app/services/cleanup.py:233-246 | A move that was asked for ends as moved, with the recording marked, exactly when the Disk took it and answered, and otherwise as failed with the mark unchanged |
| Cleanup.PreviewIsTakenExactly | app/services/cleanup.py:46-92 | A preview is taken exactly of different completed, linked, durable recordings that are not deleted, with what they are at that time |
| Cleanup.ConfirmationBeginsExactly | app/services/cleanup.py:104-158 | A confirmation starts work exactly when valid and pending and unexpired, or begun by the same confirmation before; a valid one that is late expires the preview |
| Cleanup.ItemIsReportedExactlyWhenKnown | app/services/cleanup.py:183-204 | An item is reported without a new row exactly when this preview has one for it or any preview an open or successful one |
| Cleanup.UnansweredStepStops | app/services/cleanup.py:183-246 | A commit that fails stops the confirmation with nothing else changed |
| Cleanup.UndisturbedConfirmationFinishes | app/services/cleanup.py:160-169 | A confirmation that nothing disturbs comes to its end, and reports what it collected |
| Cleanup.FinishedReportsAreTrue | app/services/cleanup.py:153-163 | A finished confirmation reports one entry per snapshot item, in order, each with the state a row of that recording still has |
| Cleanup.ResultIsFinal | app/services/cleanup.py:122-128 | A result never changes; the same confirmation is answered with it, another with nothing, and neither starts work |
| Cleanup.CleanupService.BeginConfirm | app/services/cleanup.py:94-151 | Replay, refusal, expiry or start exactly under the guards |
| Cleanup.CleanupService.ProcessItem | app/services/cleanup.py:165-236 | One item: an earlier state is reported, drift is recorded, or a move is prepared |
| Cleanup.CleanupService.RecordOutcome | app/services/cleanup.py:237-246 | The outcome of a move goes into its row, and a success marks the recording deleted |
| Cleanup.CleanupService.WorkThrough | app/services/cleanup.py:153-163 | The loop over the snapshot is the run of its steps for as long as answers come |
| RoutingJobs.OneOpenAndOneClosedPerVersion | app/db/models/routing_job.py:34-40 | A recording never has two open jobs, and of the jobs made for one version at most one is ever closed |
| RoutingJobs.ClosedOnceAndForAll | app/services/routing_jobs.py:181-259 | A resolved or deferred job stays exactly as it was closed |
| RoutingJobs.WorkerNeedsCurrentLease | app/services/routing_jobs.py:261-299 | A worker changes something only with the nonce of the latest dispatch, within its lease, on an unchanged recording |
| RoutingJobs.OldNonceIsPowerless | app/services/routing_jobs.py:261-287 | After another dispatch an older nonce can never change anything again |
| RoutingJobs.DispatchIsFreshAndOldestFirst | app/services/routing_jobs.py:103-132 | Dispatch leases the oldest due job that is not locked, with a nonce no job carries, and nothing exactly when none is due |
| RoutingJobs.OpenJobCanCloseExactlyAtItsVersion | app/services/routing_jobs.py:80-91 | An open job can still be closed by some run exactly when its recording is at the version it was made for |
| RoutingJobs.OpenJobCanCloseExactlyWhileUnchanged | app/services/routing_jobs.py:80-91 | When other writers make a recording matched only with a new version, as the pipeline does, it can exactly while the recording is also matched |
| RoutingJobs.JobsBecomeOutdated | app/services/routing_jobs.py:80-91 | Any recording gets an open job that no run can close: create one, then raise the version |
| RoutingOverlap.OneOpenAndOneClosedInOverlap | app/db/models/routing_job.py:34-40 | The same two bounds when others write the recording between the checks of a closing and its commit |
| RoutingOverlap.ClosedForAllInOverlap | app/services/routing_jobs.py:181-259 | A resolved or deferred job stays exactly as it was closed, also then |
| RoutingOverlap.ClosingCommit | app/services/routing_jobs.py:208-259 | Closing leaves the recording one version above the job's, with a destination or candidates from its snapshot, and touches nothing else; that is one more than before exactly when nobody raised it since the checks, and less exactly when it was raised by more than one |
| RoutingOverlap.UndisturbedResolutionIsTheService | app/services/routing_jobs.py:170-218 | Checks and commit without anything in between are the one step of the service |
| RoutingOverlap.UndisturbedDeferralIsTheService | app/services/routing_jobs.py:220-259 | The same for a deferral |
| RoutingOverlap.AroundIsTheService | app/services/routing_jobs.py:52-168 | Everything else is as in the service; others wait for a job that is being closed, and the dispatcher passes it by |
| RoutingJobs.RoutingJobService.CreateOrReuse | app/services/routing_jobs.py:52-101 | A job is created exactly when none is open, with at most a hundred destinations |
| RoutingJobs.RoutingJobService.DispatchNext | app/services/routing_jobs.py:103-132 | The lease handed out is the one the row names |
| RoutingJobs.RoutingJobService.ActivateJob | app/services/routing_jobs.py:134-168 | Activation with the undo of a rejected write |
| RoutingJobs.RoutingJobService.ResolveJob | app/services/routing_jobs.py:170-218 | Resolution, replay of a resolved job, or rejection without a trace |
| RoutingJobs.RoutingJobService.DeferJob | app/services/routing_jobs.py:220-259 | Deferral with each candidate once, at most ten, all from the snapshot |
| RoutingJobs.DistinctIsOnceEach | app/services/routing_jobs.py:243 | Dropping repetitions keeps every candidate, once |
| RoutingJobs.JobIsCreatedExactly | app/services/routing_jobs.py:52-101 | A job is created exactly for a known recording without an open one, not ahead of its version, with destinations, of which it shows the first hundred |
| RoutingJobs.DispatchLeasesForFiveMinutes | app/services/routing_jobs.py:103-132 | A dispatch leases one waiting or lapsed job, for five minutes to the second, exactly when there is an unlocked one |
| RoutingJobs.ActivationIsAcceptedExactly | app/services/routing_jobs.py:134-168 | An activation is accepted exactly from the worker with the lease on an unchanged recording |
| RoutingJobs.ResolutionIsAcceptedExactly | app/services/routing_jobs.py:170-218 | A resolution is accepted exactly from that worker for an active job with its snapshot and a usable destination of it; that destination goes into the recording, and nothing else is touched |
| RoutingJobs.DeferralIsAcceptedExactly | app/services/routing_jobs.py:220-259 | A deferral is accepted exactly with at most ten different destinations of the snapshot; exactly those become the choices, each once |
| RoutingJobs.ResolvedJobIsReplayed | app/services/routing_jobs.py:184-185 | Until its lease runs out the worker that resolved a job is told so again |
| IntentReplay.OneCompletionOneAnswer | app/services/intents.py:37-116 | Over any interleaving at most one request of a key completes, and all that are answered get the same response for the same fingerprint |
| IntentReplay.CompletedIsFinal | app/services/intents.py:91-116 | A completed key stays completed, word for word |
| IntentReplay.LaterRequestsGetTheAnswer | app/services/intents.py:64-79 | Every later request gets exactly the stored response for the stored fingerprint and is refused for another |
| IntentReplay.UndisturbedRequestWorksExactlyWhenFreeOrExpired | app/services/intents.py:36-116 | A request that nobody disturbs works exactly for a free key or an expired claim with its fingerprint, and its response is then stored and returned; otherwise nothing changes, and it is answered from the row or refused |
| IntentReplay.ClaimLastsItsTime | app/services/intents.py:80-88 | A claim keeps every request away that arrives before it has run out, and the first later one for the same work takes it over |
| IntentReplay.ReleasedKeyIsFree | app/routers/tools.py:1467-1477 | A released key is free again |
| IntentReplay.VanishedClaimRefuses | app/services/intents.py:66-75 | A claim that disappears between the two halves leaves the request refused |
| IntentReplay.LostClaimIsPowerless | app/services/intents.py:96-116 | A request that lost its claim can never complete or release anything again |
| IntentReplay.TakeOverWaitsForExpiry | app/services/intents.py:80-88 | A pending claim changes hands only after it has run out |
| IntentReplay.IntentStore.InsertClaim | app/services/intents.py:46-63 | The insert claims a free key and leaves a taken one alone |
| IntentReplay.IntentStore.ReplayOrTakeOver | app/services/intents.py:64-88 | The locked half: replay, refusal or take-over |
| IntentReplay.IntentStore.CompleteIntent | app/services/intents.py:91-116 | The conditional update succeeds exactly for the current owner |
| IntentReplay.IntentStore.ReleaseIntent | app/routers/tools.py:1467-1477 | The conditional delete removes exactly the requester's own pending claim |
| ProcessingLease.ResumesExcludeEachOther | app/scheduler/cron.py:384-431 | Two resume callers are never at work within their leases at the same time |
| ProcessingLease.AtMostOneHolder | app/services/reroute.py:79-84 | The same with reroutes, as long as none clears another caller's lease |
| ProcessingLease.LateReleaseKeepsNewHolder | app/scheduler/cron.py:1391-1403 | A resume that lost its lease, after any further events, releases nobody's lease |
| ProcessingLease.SecondClaimSucceedsExactlyAfterDisorder | app/services/reroute.py:221-235 | A second caller gets in beside a holder exactly after a release that clears a lease it does not own |
| ProcessingLease.SlowRerouteLetsTwoResumesIn | app/services/reroute.py:116-118 | A reroute that outlives its lease lets two resumes work at once |
| ProcessingLease.Recording.ClaimForResume | app/scheduler/cron.py:386-402 | The conditional claim succeeds exactly for a resumable status and a free lease |
| ProcessingLease.Recording.ReleaseLease | app/scheduler/cron.py:420-431 | A resume releases only its own lease, a reroute any |
| Reviews.AcceptedOnce | app/services/reviews.py:671-706 | No review is accepted twice, and of two reviews issued for one version of a recording at most one is |
| Reviews.AnswersFindManualReview | app/services/reviews.py:468-547 | An answer to a pipeline question that passes its checks finds manual review, so its transition is legal; only an unreadable calendar date still raises |
| Reviews.PipelineAnswerLeadsTo | app/services/reviews.py:490-547 | On a pipeline question a card matches the recording, an event finds it its event, a usable folder starts the transfer where one is asked for, and every other option changes nothing |
| Reviews.SummaryAnswerLeadsTo | app/services/reviews.py:486-489 | On a summary question the status stays; an approval counts exactly when it can be delivered, a rejection always, an e-mail exactly with a message and a readable date |
| Reviews.OutsideChoiceIsRejected | app/services/reviews.py:474-481 | A choice outside the list of options is rejected without a trace |
| Reviews.IgnoringLeadsTo | app/services/reviews.py:469-472 | Ignoring takes a recording out of the pipeline, except where the question is about its summary |
| Reviews.StaleAnswerIsTurnedDown | app/services/reviews.py:671-706 | An answer to a question that is not current is turned down without a trace, except that an expired question is suppressed |
| Reviews.ReplayAnswersAlike | app/services/reviews.py:657-669 | After an accepted answer the same request gets the same result and changes nothing, another one under its key is turned down |
| Reviews.PipelineIsAllowed | app/services/non_interview.py:78-95 | A pipeline commit, from any state of its invariant, is one the reviews can rely on exactly when it is not a disorderly one of the unleased route |
| Reviews.BatchPartitionsItsAnswers | app/services/question_queue.py:236-270 | Accepted and rejected answers make up the batch, none in both lists and none missing |
| Reviews.BatchSplits | app/services/question_queue.py:236-270 | A batch is its answers one after the other, each on what the earlier ones left |
| Reviews.SingleAnswerIsItself | app/services/question_queue.py:236-270 | A batch of one answer is that answer, or nothing when it raises |
| Reviews.BatchIsTakenExactly | app/services/question_queue.py:219-245 | A batch is refused as a whole exactly when it is empty, too long, asks twice or raises |
| Reviews.QuestionIsIssuedExactly | app/services/question_queue.py:340-384 | Questions are issued at the version of their recording and, unless about its summary, in manual review; a new digest renews token, time and set of a pending one |
| Reviews.VersionsCountAcceptances | app/services/question_queue.py:236-270 | A batch raises a recording's version by exactly the number of newly accepted answers on it; without any, status and version stay |
| Reviews.RejectedAnswerLeavesOnlyTheMessage | app/services/reviews.py:628-640 | A rejected answer never touches status or version, and changes the recording only by an e-mail choice with an unreadable date |
| Reviews.UnreadableDateLeavesTheMessage | app/services/reviews.py:628-640 | Such a choice is rejected and stored all the same |
| Reviews.ReviewService.ValidateBinding | app/services/reviews.py:671-706 | The binding passes exactly for a pending, unconsumed, unexpired question with matching user, DM, version and token; an expired one is suppressed |
| Reviews.ReviewService.MutateReview | app/services/reviews.py:417-573 | One answer changes recording, review and replay exactly as the model says |
| Reviews.ReviewService.ApplyPartial | app/services/question_queue.py:219-280 | The loop over a batch, refused for a wrong shape and undone as a whole when an answer raises |
| QuestionQueue.DigestsAreBounded | app/services/question_queue.py:294-368 | With claims and deliveries that are one step each, over all runs no question is delivered more than twice, each day of a DM has at most one summary, tried at most five times, and at most one summary of a DM is pending or being sent |
| QuestionQueueOverlap.ItemsStaySettledExactlyInOrder | app/services/question_queue.py:681-782 | With any number of drains at work, between any two moments of a run an item that was sent or given up stays as it is and is not delivered again, exactly when no claim takes an item settled since its look and no delivery meets one settled since its claim |
| QuestionQueueOverlap.DigestsAreBoundedInOrder | app/services/question_queue.py:681-782 | On such runs the bounds of the digests hold for any number of drains |
| QuestionQueueOverlap.PromptRunIsAtomic | app/services/question_queue.py:713-730 | Drains that find their items as they saw them when they claim, and deliver before their claims run out, do as drains whose claim and delivery are one step each, and never take up a settled item |
| QuestionQueueOverlap.DigestCountsAnyNumberOfTimes | app/services/question_queue.py:707-724 | From every state with a waiting summary, drains that look before the first of them claims count it any number of times for a question in it |
| QuestionQueueOverlap.QuestionIsDeliveredAnyNumberOfTimes | app/services/question_queue.py:707-724 | For every number there is a run from the start that delivers a question that often |
| QuestionQueue.CountRisesOnlyByDelivery | app/services/question_queue.py:766-782 | A question's counter moves by one, and only when the digest it waits in is delivered |
| QuestionQueue.SettledItemStays | app/services/question_queue.py:732-765 | A sent or given-up item is never touched again |
| QuestionQueue.BuiltDigestCoversTheDm | app/services/question_queue.py:340-403 | A built digest retires what was delivered twice and takes in everything that still may be delivered, unless it is full |
| QuestionQueue.SummaryGoesOutExactly | app/services/question_queue.py:294-403 | A summary goes into the outbox exactly when sending is wanted, the DM has no other one outstanding, its day is not over, and there is a pending unsettled question delivered less than twice |
| QuestionQueue.BuilderSettlesExactly | app/services/question_queue.py:323-350 | The builder closes exactly the settled questions of the DM and suppresses exactly those delivered twice; with nothing to send it closes the day |
| QuestionQueue.ClaimTakesExactly | app/services/question_queue.py:681-730 | A claim takes exactly the wanted items that are due and unclaimed or lapsed, for fifteen minutes |
| QuestionQueue.FailedDeliveryIsRepeatedExactly | app/services/question_queue.py:751-764 | Up to the fourth failure an item can be claimed again exactly when its pause of 2, 4, 8 or 16 seconds is over; the fifth failure is the last |
| QuestionQueue.DeliveryCountsExactly | app/services/question_queue.py:765-785 | A delivery sends the item for good, closes its digest, and counts exactly for the questions that wait in it |
| QuestionQueue.OnlyTheClaimerDelivers | app/services/question_queue.py:735-736 | Nobody delivers an item that somebody else holds |
| QuestionQueue.DayIsClaimedExactly | app/scheduler/cron.py:1886-1929 | A day is claimed exactly when its digest was neither delivered nor claimed within fifteen minutes; a failure frees it at once |
| QuestionQueue.SelectionIsComplete | app/services/question_queue.py:352-368 | A selection below its limit holds every selectable question |
| QuestionQueue.DayIsClaimedOncePerTtl | app/scheduler/cron.py:1886-1929 | A claimed day is not claimed again within fifteen minutes unless it is marked as failed |
| QuestionQueue.QuestionQueueService.BuildSummary | app/services/question_queue.py:282-403 | Building changes questions, digests and items exactly as the model says |
| QuestionQueue.QuestionQueueService.DeliverClaimed | app/services/question_queue.py:732-782 | Delivery by the claiming worker only, with retries up to five failures |
| QuestionQueue.QuestionQueueService.Drain | app/scheduler/cron.py:1846-1866 | One drain is one claim followed by the deliveries of what it holds, in order |
| QuestionQueue.QuestionQueueService.ClaimDailyDigest | app/scheduler/cron.py:1886-1929 | The day is claimed exactly when it is free |
| Matching.AcceptedExactlyWhenAlone | app/services/matching.py:214-242 | When keys identify events, the matcher accepts an event exactly when it is the only compatible one, monitored, and reaches the threshold |
| Matching.OrderAndRepetitionDoNotMatter | app/services/matching.py:194-242 | When keys identify events, the matcher's event, reason and confidence are unchanged by any permutation or repetition of the calendar |
| Matching.IncompatibleEventsDoNotMatter | app/services/matching.py:196-211 | Adding an incompatible event anywhere, whatever its key, does not change the matcher's answer |
| Matching.SecondCompatibleEventForcesReview | app/services/matching.py:222-227 | When keys identify events, a new compatible event anywhere turns an accepted match into a review, with the reason told by whether it is monitored |
| Matching.DroppingRepetitionsDoesNotMatter | app/services/matching.py:212-213 | When keys identify events, keeping the first of each key changes no decision |
| Matching.DefaultThresholdMeans | app/services/matching.py:150-174 | A compatible event scores between 35 and 100 hundredths and reaches 70 exactly with a booking marker and one more signal, or with all three of name, link and keyword |
| Matching.CompatibleMeans | app/services/matching.py:196-211 | An event is compatible exactly when it is shorter than twenty hours, the recording starts within it or a quarter of an hour around it, and the titles agree or it has a booking marker |
| Matching.ReasonMeans | app/services/matching.py:214-242 | What each verdict says: whether there is a compatible event, and how many of them are monitored |
| Matching.UnmatchableMeans | app/services/matching.py:184-193 | A file name that does not parse, or a time more than six hours from the one of the Disk, keeps a recording from being matched at all |
| Matching.InterviewMatcher.MatchRecording | app/services/matching.py:176-242 | The matcher's answer is the decision on the first compatible event of each key |
| Matching.InterviewMatcher.CollectCompatible | app/services/matching.py:194-213 | The loop over the calendar keeps the first compatible event of each key, in order |
| Matching.InterviewMatcher.ScoreEvent | app/services/matching.py:150-174 | The running score is the capped sum of the signals |
| Matching.BoundedCandidates | app/services/matching.py:245-254 | The candidates are the longest run of at most five first events whose payload fits at every length |

## Left out

- RerouteSafety.PhasesAreProven: this lemma and the others of RerouteSafety speak of attempts of one operation that do not overlap, with other writers of the recording outside the attempts; RerouteOverlap has what holds without either restriction.
- RerouteOverlap.TheFileSurvivesOverlap: attempts of one operation overlap here, not two operations with different keys on one recording.
- TransferRecovery.OneFileAndOneLink: speaks of runs under the lease with one target; files left at an earlier target are the subject of ChangedTargetLeavesTwoFiles.
- Pipeline.CommittedStatesAreComplete: one resumed run at a time is taken for granted (its lease is six hours, and ProcessingLease shows when it is exclusive); columns are modelled by whether they hold a value, and storage is taken to answer with a path and a link that are not empty.
- Pipeline.StepKeepsInv: closing a routing job is one atomic step here; RoutingOverlap shows exactly when a closing that read the recording earlier lowers its version.
- Reviews.AcceptedOnce: relies on versions that never fall and on manual review being left only with a new version. Versions fall by the unleased route, by a late closing of a routing job, by the completion of a reassignment and by the swap of a reroute; UnleasedRoute.RunsAreInOrderExactlyWithoutDisorder, RoutingOverlap.ClosingCommit, NotionReassignment.CompletionPointsAtTarget and RerouteOverlap.VersionFallsExactlyByLateSwap say exactly when each of them does.
- RoutingJobs.OneOpenAndOneClosedPerVersion: writers other than routing workers are taken never to lower a version, here and in RoutingOverlap; the unleased route, a reassignment and a reroute can, exactly in the cases just named.
- QuestionQueue.DigestsAreBounded: the claim of outbox items and each delivery are one atomic step here; QuestionQueueOverlap has what holds of several drains otherwise. Building a digest is one atomic step in both.
- Cleanup.NoSecondMove: confirmations run one at a time in this module; CleanupOverlap has what holds when they overlap. Identity, capability and snapshot-hash checks are one flag.
- SynologyUpload.ReturningCallsAreJustified: the marker is written and read as a whole; a malformed or half-written marker file, which the code refuses, is not part of the model, and overwrite=false is taken to fail on an existing path. An upload whose answer was lost takes effect at once or never; effects that arrive later are modelled only for the moves of a reroute.
- TransferRecovery.StoredFileAndLinkAreOwn: here too an upload or a link whose answer was lost takes effect at once or never.
- FolderDiscovery.DiscoverFolders: listing items that are not JSON objects, which the code drops before counting a page, are not part of the model.
- The reuse of a pending question when another one is enqueued, and the closing of processed questions (mark_terminal, reconcile_processing): the models enqueue and close questions at any time, which covers more runs.
- The first active artifact that the pipeline records for an upload: the reroute starts from one that exists.
- Network calls, retries, authentication and response parsing of Synology, S3, Notion, Mattermost, Disk, CalDAV and IMAP: each request is one event whose outcome is a parameter.
- Hashes, tokens and random identifiers: compared as values, or drawn from counters that never repeat.
- Title normalisation, filename parsing and sanitising, and the regular expressions of the matcher: their results are fields of the events and of the recording.
- Message texts, observer mirroring, terminal notifications, scope allowlists, recruiter onboarding, configuration and migrations: no deep invariant.
- The search for a summary e-mail: only its outcome appears, as the reply that finishes or prolongs the wait.
- The temporary-file path of an upload, and the creation of folders: the same protocol steps with other error texts.
- The SQL isolation level and the refreshing of loaded rows: transactions, row locks, conditional updates and the unique constraints are modelled as atomic steps, stale sessions only where the code holds one across commits.
