# Boreal client protocols, verified

Dafny models of the parts of Boreal that decide what is sent, what is kept and
what can be undone, with proofs that hold for every input, every answer of the
service and every interleaving. `dafny verify dfyconfig.toml` checks all of it.

| modules | what they model |
|---|---|
| `ServiceCall`, `OperationIds`, `Coordinator`, `Controller`, `Dashboard` | The project dashboard as an event loop. The controller is a class with one method for each stretch of code between two awaits; each method equals a function of the old fields. `Dashboard` composes these functions: any enabled continuation may come next, answers are arbitrary |
| `DashboardSafety`, `DashboardFences`, `DashboardExclusion`, `DashboardAuthority` | What every run of that loop keeps: revisions, conservation of operations, the fence of an unresolved operation, where finished receipts come from, one request per action, and when exactly a request may go out |
| `DashboardProgress`, `DashboardRefresh`, `DashboardReceipts` | What its steps lead to: actions are freed, reads, pages and readbacks have their effect, notifications are served as the coordinator says, a picked receipt is the one that is finished with |
| `FullScreen`, `FullScreenProgress` | Dialogs, the work queue and `stop` of the full-screen mode, on top of `Dashboard` |
| `Overlay`, `OverlayRecovery`, `OverlayMerge`, `OverlayAmbiguity` | The three-way source overlay, as the sequence of durable disk states it goes through; what undoes it, what it leaves, and what can be told without its report |
| `Planning`, `Choices`, `GlobalRefresh`, `GlobalWrites` | The Global manager: hierarchy rows, paged choices, shared refreshes, writes and their freeze |
| `LineShell`, `Tokenizer`, `Framing` | The line shell, the command tokenizer, and length-delimited frames over chunks |
| `Capture`, `Lineage` | Capture provenance over JSON snapshots, and the repairable lineage projection |

Hashes, white space, JSON decoding, the archive's contents and the catalog's
own refusals are function parameters; clocks, answers, faults and socket
events are inputs. Revisions, fences and offsets are unbounded integers;
lengths on the wire are taken modulo 2^32 and file modes are masked as the
code masks them.

## What the proofs found

* `fresh ==> revision >= floor` is not an invariant of the dashboard. It is
  lost by exactly two moves (`DashboardSafety.AtFloorLostIff`) and a run from
  the initial state loses it.
* A readback whose transport fails comes back as outcome `failed` and counts
  as terminal, so it frees the operation it was to resolve: `MoveFrees` in
  `DashboardFences` includes this case, and `LostReadbackUnfences` is a run in
  which the same work is then released with the claim's fate unknown.
* An empty work id is recorded as no work id, and a doubt about it fences
  nothing but its own action.
* Receipt histories are kept under work id, attempt id and fence joined by
  colons. Those of one work never meet, but two works whose ids hold colons can
  share one (`DashboardReceipts.HistoriesCollide`); only the identities in each
  row keep them apart.
* The overlay writes its journal and, at the end of an applied run, the two
  files of its report into the backup directory, under names that backed-up
  files may also have: `OVERLAY_JOURNAL.json`, `OVERLAY_REPORT.json` and
  `OVERLAY_REPORT.md`. A completed branch can be undone at all its durable
  states exactly when no backup is needed under any of the three
  (`OverlayMerge.BranchSafetyIff`).
* Without the report, target, backup and journal tell the original tree
  except where the first unapplied path is in the target and not in the
  backup (`OverlayAmbiguity.DeterminedIff`): it may have been added or found.
  `main` writes the report only after `apply_report`, so recovery from a crash
  there needs the report of an earlier run without `--apply`.
* A file that the baseline has and the operator deleted is brought back, which
  a textbook three-way merge would not do. Modes above 0o777 are applied and
  then planned again by the next preflight.
* The loop in `planningRows` that adds ancestors has no memory, and runs for
  ever on mutual parents. It ends exactly when every match's ancestors end.
* `completeChoices` never compares its progress with the total: whatever the
  total, a service can keep it paging, and past the total it can no longer
  succeed (`Choices.WaitsIff`, `Choices.PastTheTotal`).
* Overlapping Global calls can forget an untrusted write, by exactly two kinds
  of step: another write ends untrusted, or the late lookup of another
  operation clears the field (`GlobalWrites.ForgottenByStep`).
* A Global response with bytes after its frame is accepted exactly when the
  socket happens to cut it at the end of the frame.
* A Global refresh call that comes between the loop's exit test and the
  clearing of its promise gets no new read. In the full-screen mode, a manual
  refresh asked for while another runs is forgotten if a dialog is open, the
  view is frozen, or a later page is shown when that one ends.
* The capture validator lets claims share a witness exactly when their items
  have the same id.
* The line shell's prompt shows a revision and an attempt, but does not pin
  them: `confirm` sends on the controller's state at that time
  (`LineShell.SentAsShownIff`).

## Model

| member | source | states |
|---|---|---|
| `ServiceCall.Call` | apps/tui/src/client.ts:1878-1956 | Whatever becomes of a mutation's bytes, the caller gets an envelope under the id it sent: the service's own if the answer correlates, is valid, and is of this project and database, an unknown outcome without a revision otherwise. A read looks terminal exactly if its transport failed or a trusted terminal answer came |
| `ServiceCall.VersionedServiceClient.AcceptScope` | apps/tui/src/client.ts:1926-1941 | A success is accepted exactly if its data is no object, or needs no scope and names none, or names the database known so far; the first one named becomes known |
| `ServiceCall.OneDatabase` | apps/tui/src/client.ts:1926-1941 | Of all successes a connection accepts, those that name a database name the same one |
| `ServiceCall.AcceptedIff` | apps/tui/src/client.ts:1926-1941 | Of a sequence of answers those are refused that are successes with a malformed scope, without one although a credential was given, or naming another database than the first success that named one |
| `OperationIds.OperationIdInjective` | apps/tui/src/client.ts:2275-2280 | Ids drawn with different sequence numbers differ, whatever the clock |
| `Coordinator.RevisionRefreshCoordinator.RefreshNow` | apps/tui/src/client.ts:2096-2104 | The new state and the way the request is served are those of the step function the run lemmas speak of |
| `Coordinator.RevisionRefreshCoordinator.Notify` | apps/tui/src/client.ts:2106-2115 | The new state and the way the request is served are those of the step function the run lemmas speak of |
| `Coordinator.RevisionRefreshCoordinator.Settle` | apps/tui/src/client.ts:2124-2135 | A resolved read installs its revision and model, a failed one only ends |
| `Coordinator.OwedUntilStarted` | apps/tui/src/client.ts:2096-2104 | A requested resnapshot stays owed through failed reads and plain refreshes; the first read that starts uses a null cursor |
| `Coordinator.ResnapshotNeverLost` | apps/tui/src/client.ts:2096-2115 | A request for a resnapshot, direct or by a notification that skips a revision, is never lost in any later sequence of calls and answers |
| `Coordinator.OneReadAtATime` | apps/tui/src/client.ts:2089-2136 | In every run reads started and reads answered differ by at most the one in flight |
| `Coordinator.NotificationServed` | apps/tui/src/client.ts:2106-2135 | In every run a notification is answered without a read exactly if it names the revision of the last answer a read brought back, and then with that answer; any other joins the read in flight or starts one, whose cursor is that revision unless a resnapshot is owed or a revision was skipped |
| `Coordinator.RefreshServed` | apps/tui/src/client.ts:2096-2104 | In every run a refresh joins the read in flight or starts one, with the last revision read as its cursor unless a resnapshot is owed or asked for |
| `Coordinator.OwedIffAskedSince` | apps/tui/src/client.ts:2096-2127 | After any run a resnapshot is owed exactly if one was asked for and no read has started since |
| `Controller.TuiWorkflowController.InstallSnapshot` | apps/tui/src/client.ts:2768-2782 | Another project's snapshot is refused, one older than the floor or the installed one is discarded and takes authority away, any other becomes the model with authority |
| `Controller.TuiWorkflowController.StartMutation` | apps/tui/src/client.ts:3105-3130 | From the action methods through the guards of mutate and mutateWorkspace: nothing changes and nothing is sent where an earlier check or a guard refuses; otherwise exactly the request that the snapshot gives goes out, with everything that was typed, and its action is busy |
| `DashboardAuthority.BeginIffPermitted` | apps/tui/src/client.ts:2211-2240 | A request is let out exactly if it is permitted, said of the state alone: mounted, a fresh snapshot, the service allows the action on the first readable item of that id or for the project, nothing busy or in doubt stands against it, and the attempt or receipt it needs is there; nothing else is refused |
| `DashboardAuthority.BeginAsks` | apps/tui/src/client.ts:2869-3039 | and it carries the id drawn, the revision shown, what was asked for and typed, the attempt shown and the payload or stored receipt; only busy marks and the sequence change |
| `DashboardAuthority.NothingSentOnOldAuthority` | apps/tui/src/client.ts:3105-3126 | Along every interleaving a step sends a request exactly if what was asked for is permitted at that moment, and its expected revision is at least every revision acknowledged before |
| `DashboardAuthority.EveryRequestWasAuthorized` | apps/tui/src/client.ts:3105-3126 | After any run every request ever sent was sent mounted, on fresh authority, with the action allowed by the service on that readable item or for the project; workspace requests with nothing in doubt |
| `Controller.TuiWorkflowController.MutationAnswered` | apps/tui/src/client.ts:3131-3177 | Every answer raises the floor; success takes authority, doubt makes the operation pending, success and staleness go on to a refresh |
| `Controller.TuiWorkflowController.MutationThrew` | apps/tui/src/client.ts:3178-3182 | An exception makes the operation pending under the id drawn for it |
| `Controller.TuiWorkflowController.ReadbackAnswered` | apps/tui/src/client.ts:2852-2860 | A terminal readback removes that operation from the pending ones, any other leaves it |
| `Controller.TuiWorkflowController.ReceiptsAnswered` | apps/tui/src/client.ts:2456-2477 | Foreign and late pages are refused, rows are merged in order, a changed row stops the merge |
| `Controller.TuiWorkflowController.SelectReceiptForAttempt` | apps/tui/src/client.ts:2480-2498 | A receipt is stored exactly if the record of the current attempt and its own payload name the same receipt, work, attempt and fence |
| `Controller.TuiWorkflowController.KeepEvidence` | apps/tui/src/client.ts:2979-2986 | Acknowledged evidence becomes the stored receipt of the attempt it was sent for, and that attempt's history is dropped |
| `DashboardSafety.RevisionsMove` | apps/tui/src/client.ts:2768-2782 | One move of any kind keeps the floor at or above the installed revision and never lowers either |
| `DashboardSafety.RevisionsAlways` | apps/tui/src/client.ts:2768-2832 | Over every interleaving the floor and the installed revision never decrease, and authority rests on a snapshot at least as new as every revision that mutate heard as changed or unchanged |
| `DashboardSafety.AtFloorLostIff` | apps/tui/src/client.ts:3131 | A fresh snapshot falls behind the floor exactly by a definite refusal or a readback that reports a newer revision |
| `DashboardSafety.FloorPassesFreshSnapshot` | apps/tui/src/client.ts:3131 | A run from the initial state in which that happens |
| `DashboardSafety.LedgerMove` | apps/tui/src/client.ts:3126-3185 | Every move keeps the books: ids drawn once, each request in flight or judged, doubts pending or resolved |
| `DashboardSafety.OperationsConserved` | apps/tui/src/client.ts:3126-3185 | After any run every issued operation id is distinct and is exactly one of in flight, acknowledged, refused, pending under its own request, or resolved by readback |
| `DashboardSafety.DoubtIsPending` | apps/tui/src/client.ts:3144-3147 | Of the answers to a mutation exactly those make it pending that are not trusted or are the service's own word of doubt |
| `DashboardSafety.BecomesPendingIff` | apps/tui/src/client.ts:3144-3181 | Of all moves exactly those answers, and the exceptions raised in their place, make an operation pending |
| `DashboardFences.MoveFrees` | apps/tui/src/client.ts:2845-2860 | The steps that free an operation are the terminal readbacks of that very id, and those whose transport failed |
| `DashboardFences.PendingUntilFreed` | apps/tui/src/client.ts:2845-2860 | A pending operation leaves in exactly those steps and its entry is never rewritten |
| `DashboardFences.BeginFence` | apps/tui/src/client.ts:3105-3125 | While anything is pending no workspace request starts, and no lifecycle request for the pending work |
| `DashboardFences.FencedUntilReadback` | apps/tui/src/client.ts:3068-3125 | From the step that leaves an operation pending to the step that frees it no interleaving sends a lifecycle request for its work or any workspace request |
| `DashboardFences.LostAnswerLeavesPending` | apps/tui/src/client.ts:3144-3147 | A run from the initial state that leaves an operation pending |
| `DashboardFences.CommitWaitsForRefresh` | apps/tui/src/client.ts:3132-3143 | A commit takes authority away and waits for a refresh that is in flight; until that is delivered its action stays busy |
| `DashboardFences.DoubtFencesItsWork` | apps/tui/src/client.ts:3122-3147 | A request that ends untrusted is recorded under its id and mutation, with its work id exactly if it is a lifecycle request for a work whose id is not empty |
| `DashboardFences.EmptyWorkIdIsNotFenced` | apps/tui/src/client.ts:3122-3147 | A run from the initial state in which a claim on the empty work id is pending and a release of it is sent |
| `DashboardFences.LostReadbackUnfences` | apps/tui/src/client.ts:2851-2860 | A run in which a claim's answer is lost, the transport of its readback fails, and a release of the same work is sent with nothing pending |
| `DashboardFences.BeginBasis` | apps/tui/src/client.ts:2994-3021 | A request carries the revision, attempt and fence of the snapshot it was started on, a finish the receipt stored for that attempt |
| `DashboardFences.TracedMove` | apps/tui/src/client.ts:2963-3021 | Every move keeps all stored receipts and all finishes traceable |
| `DashboardFences.FinishSendsTracedReceipts` | apps/tui/src/client.ts:2994-3021 | After any run every finish carried a receipt that was acknowledged for that work, attempt and fence, or selected from that attempt's history with matching embedded identities |
| `DashboardExclusion.ExclusiveStep` | apps/tui/src/client.ts:3121-3126 | Every step keeps unanswered and settling requests free of clashes and their actions busy |
| `DashboardExclusion.OneOutstandingPerAction` | apps/tui/src/client.ts:2662-2667 | In every run two unanswered requests are never for the same action and never both for the workspace |
| `DashboardProgress.BusyIffOutstanding` | apps/tui/src/client.ts:3121-3185 | After any run an action, or the workspace, is busy exactly while a request of it is unanswered or settling |
| `DashboardProgress.AnswerLeadsTo` | apps/tui/src/client.ts:3131-3177 | Every answer settles its request; a commit and a definite stale refusal, and nothing else, wait for the read then in flight; only a definite refusal leaves authority standing |
| `DashboardProgress.ThrowLeadsTo` | apps/tui/src/client.ts:3178-3185 | An exception takes authority, makes the operation pending as its request calls for, and lets the action be released without a refresh |
| `DashboardProgress.ReadConcludes` | apps/tui/src/client.ts:2768-2796 | When the read a mutation waits for ends, whichever way, the mutation can conclude: its action is free, and authority and the model come from that read exactly if it brought a snapshot of this project not older than the floor |
| `DashboardProgress.ReadbackLeadsTo` | apps/tui/src/client.ts:2845-2866 | A readback removes its operation exactly if it resolves it, leaves authority alone, and then has a status read in flight |
| `DashboardProgress.PageLeadsTo` | apps/tui/src/client.ts:2813-2833 | A page of the revision shown replaces it if acceptable; a page of another is not shown and a read is in flight instead; a rejected page read takes authority |
| `DashboardProgress.AnsweredOnce` | apps/tui/src/client.ts:2813-2866 | A page, readback or receipt read is answered once; a second answer moves nothing |
| `DashboardProgress.UnmountIsQuiet` | apps/tui/src/client.ts:2354-2359 | After an unmount, whatever arrives, nothing is installed, no authority returns and nothing is sent until the next mount |
| `DashboardRefresh.RunIsCoordinatorRun` | apps/tui/src/client.ts:2790-2810 | Every run of the dashboard is a run of the coordinator, up to the numbering of reads |
| `DashboardRefresh.NotificationInRun` | apps/tui/src/client.ts:2798-2802 | In every run of the dashboard a notification of the last revision read has that snapshot delivered at once; any other waits for a read, chained exactly if it skips a revision while one is in flight |
| `DashboardRefresh.ChainedAsksAgain` | apps/tui/src/client.ts:2098-2101 | A resnapshot asked for while a read ran is not served by it: its continuation asks again and waits for a null-cursor read |
| `DashboardReceipts.HistoryKeyIff` | apps/tui/src/client.ts:2451 | Histories of one work are kept apart by attempt and fence |
| `DashboardReceipts.HistoriesCollide` | apps/tui/src/client.ts:2451 | Two different works can share a history key |
| `DashboardReceipts.MergeIff` | apps/tui/src/client.ts:2469-2476 | Rows merge exactly if no receipt appears in two forms; the result is the union of the old rows and the new |
| `DashboardReceipts.PageIsMerged` | apps/tui/src/client.ts:2456-2477 | A page that fits the attempt shown is merged whole where nothing contradicts, otherwise its rows before the first contradiction stay if that history existed; an unfit page and other histories change nothing |
| `DashboardReceipts.SelectIff` | apps/tui/src/client.ts:2480-2498 | A receipt is selected exactly if the history of the attempt shown holds it for this project, work and attempt with a payload that names itself; it then becomes the receipt of that work alone |
| `DashboardReceipts.PickedRowIsSent` | apps/tui/src/client.ts:2447-3012 | Asked for, merged, picked, finished: the finish carries the payload of the picked row, and goes out exactly if nothing else hinders it |
| `DashboardReceipts.EvidenceReachesFinish` | apps/tui/src/client.ts:2979-3012 | Evidence stored for the attempt shown is what the next finish sends |
| `DashboardReceipts.AcknowledgedIsKept` | apps/tui/src/client.ts:2979-3017 | After an acknowledged mutation evidence becomes the receipt of its work, a finish uses the receipt up, and nothing else changes |
| `FullScreen.Screen.EnqueueTask` | apps/tui/src/full-screen.ts:141-143 | A task joins the queue only while the screen accepts |
| `FullScreen.Screen.EnterKey` | apps/tui/src/full-screen.ts:983-999 | Enter pages a dialog to its end first, and then queues it unless a mutation is already queued |
| `FullScreen.Screen.AskRefresh` | apps/tui/src/full-screen.ts:163-173 | At most one refresh is queued, a further one is remembered |
| `FullScreen.Screen.StartNext` | apps/tui/src/full-screen.ts:144-148 | A queued task starts only if nothing runs and the screen still accepts, and is dropped otherwise |
| `FullScreen.Screen.EndActive` | apps/tui/src/full-screen.ts:157-186 | The end of a task clears its flag, and a remembered refresh is asked for again |
| `FullScreen.Screen.StopAccepting` | apps/tui/src/full-screen.ts:786-790 | Stopping closes the dialog and accepts nothing more |
| `FullScreen.IdentityInjective` | apps/tui/src/full-screen.ts:78-81 | The attempt text a dialog shows names one attempt id and fence only |
| `FullScreen.OneMutationKept` | apps/tui/src/full-screen.ts:995-999 | At most one mutation waits or runs |
| `FullScreen.ConfirmedAtTheEnd` | apps/tui/src/full-screen.ts:983-999 | Enter closes and queues a dialog exactly if there is room, its last page is shown and no mutation is queued |
| `FullScreen.ConfirmedSends` | apps/tui/src/full-screen.ts:725-767 | In every run the requests issued are in order those of distinct confirmed dialogs, each with the action, everything typed and the revision its dialog recorded and, for a work-bound one, the attempt the dialog showed |
| `FullScreen.NothingSentAfterStop` | apps/tui/src/full-screen.ts:141-148 | After stop no sequence of inputs and answers issues a request |
| `FullScreen.RefreshForgottenIff` | apps/tui/src/full-screen.ts:179-185 | A refresh remembered during another is queued again unless the view is frozen, on a later page or a dialog is open; then it is forgotten |
| `FullScreen.RefreshForgotten` | apps/tui/src/full-screen.ts:163-185 | A run from the launch in which a remembered refresh is forgotten under a dialog |
| `FullScreenProgress.FlagsAreExact` | apps/tui/src/full-screen.ts:141-186 | In every run, until the operator leaves, a mutation counts as queued exactly if one waits or runs, and so does a refresh |
| `FullScreenProgress.NextMutationConfirms` | apps/tui/src/full-screen.ts:983-999 | In every run, once no mutation waits or runs, Enter at the end of a roomy dialog closes it and queues its mutation |
| `FullScreenProgress.ManualRefreshIsServed` | apps/tui/src/full-screen.ts:163-173 | In every run a manual refresh is queued, or remembered where one already waits or runs |
| `FullScreenProgress.HeadOfQueueStarts` | apps/tui/src/full-screen.ts:725-767 | In every run, when nothing runs, the head of the queue starts; a confirmed mutation is sent exactly if revision and attempt are those its dialog opened on, its rule is enabled and the controller permits it |
| `FullScreenProgress.EnterPages` | apps/tui/src/full-screen.ts:983-994 | Enter moves a dialog on by at most what fits on the screen, and brings it to its end unconfirmed |
| `FullScreenProgress.DismissedIsNeverSent` | apps/tui/src/full-screen.ts:977-981 | In every run a dialog dismissed or replaced is never sent |
| `Overlay.BuildReport` | scripts/apply_overlay.py:377-453 | One classified item per entry; blocking exactly if an unlisted member, a deletion or a blocking classification exists |
| `Overlay.ApplyPlannedItem` | scripts/apply_overlay.py:541-578 | One turn of the loop goes through the durable states of the step function: backup, journal, temporary file, rename, hash check, journal |
| `Overlay.ApplyReport` | scripts/apply_overlay.py:525-584 | A used backup directory stops it untouched; otherwise the disk, the outcome and every durable state on the way are those of the run function |
| `Overlay.WriteReport` | scripts/apply_overlay.py:490-497 | The report is written to two files under its reserved names, each in two durable steps |
| `OverlayRecovery.PlannedOfReport` | scripts/apply_overlay.py:527 | The planned items of a report are distinct and agree with the target they were classified on |
| `OverlayRecovery.CrashSafety` | scripts/apply_overlay.py:525-584 | Stopped after any durable write or by its own error, one recovery function rebuilds the exact original tree, added files removed, from target, backup, journal and classifications |
| `OverlayMerge.RunOutcome` | scripts/apply_overlay.py:541-581 | A run succeeds exactly if every planned member still has its preflight digest and no planned path became a link; then the planned paths hold the archive and no other path changed |
| `OverlayMerge.OutcomeIsDiff3Iff` | scripts/apply_overlay.py:394-417 | The classification is the textbook three-way merge at every ordinary path except a file of the baseline that was deleted locally, which is brought back |
| `OverlayMerge.PreflightIff` | scripts/apply_overlay.py:394-417 | Said of target, baseline and entry alone, without the classification: which paths a preflight plans, and which entries stop the run |
| `OverlayMerge.MergeTheorem` | scripts/apply_overlay.py:377-453 | After a completed run over a report that does not block each listed path holds the three-way merge - replaced only where local was the baseline or missing, local edits kept, the incoming content with the incoming mode - and every other path is as it was |
| `OverlayMerge.SecondPreflight` | scripts/apply_overlay.py:403-408 | A second preflight never blocks, and plans nothing exactly if every applied mode fits in 0o777 |
| `OverlayMerge.StickyFileIsPlannedAgain` | scripts/apply_overlay.py:403-408 | One file added with mode 0o1644: the run completes, and the second preflight plans it again |
| `OverlayMerge.CrashSafetyIff` | scripts/apply_overlay.py:538-552 | A completed run can be undone at all its crash points exactly if no existing planned path is named like the journal |
| `OverlayMerge.BranchSafety` | scripts/apply_overlay.py:628-637 | With the reserved names free the branch can be undone at every durable state, the report's two files included |
| `OverlayMerge.BranchSafetyIff` | scripts/apply_overlay.py:637 | A completed branch can be undone at all its durable states exactly if no existing planned path is named like the journal or either form of the report |
| `OverlayMerge.ReservedNameLosesBackup` | scripts/apply_overlay.py:490-497 | One file under any of the three names, safely replaced, is enough: the completed branch cannot be undone |
| `OverlayMerge.JournalAloneIsAmbiguous` | scripts/apply_overlay.py:541-578 | Without the classifications one durable state is reached from two different originals |
| `OverlayAmbiguity.UnambiguousIsGuessed` | scripts/apply_overlay.py:541-581 | Without the classifications, a durable state whose first unapplied path is absent from the target or mentioned in the backup gives the original tree away |
| `OverlayAmbiguity.DeterminedIff` | scripts/apply_overlay.py:541-581 | Target, backup and journal of a durable state determine the original tree exactly if the first unapplied path is not both in the target and absent from the backup |
| `OverlayMerge.ApplyOverlay` | scripts/apply_overlay.py:628-637 | A blocking report writes nothing; otherwise the durable states are those of the whole branch, the two report files included; an applied one merges; all of them can be undone if, and for a completed branch only if, the three reserved names are free |
| `Planning.SortItemsOrdered` | apps/global-tui/src/model.ts:378 | The sorted items are ordered by position, then creation |
| `Planning.SortPermutes` | apps/global-tui/src/model.ts:378 | Sorting keeps all items, with their multiplicities |
| `Planning.SortIsStable` | apps/global-tui/src/model.ts:378 | Items that tie stay in the order of the snapshot |
| `Planning.ClimbEndsIff` | apps/global-tui/src/model.ts:380 | The climb to the ancestors, which remembers nothing, ends exactly if it ends within as many turns as there are items |
| `Planning.MutualParentsNeverEnd` | apps/global-tui/src/model.ts:380 | Two items that are each other's parent keep it running for ever |
| `Planning.Planner.Include` | apps/global-tui/src/model.ts:379-380 | The included ids are exactly those of the matches and their in-scope ancestors |
| `Planning.Planner.Visit` | apps/global-tui/src/model.ts:381 | A visit appends the item's block of the walk and records it as seen |
| `Planning.Planner.Hidden` | apps/global-tui/src/model.ts:383 | An item is hidden exactly if, without a query, it or an ancestor names a collapsed parent |
| `Planning.PlanningRows` | apps/global-tui/src/model.ts:377-385 | The rows are the walk over the sorted items; the closing loop adds nothing |
| `Planning.RowsAre` | apps/global-tui/src/model.ts:377-385 | The walk lists exactly the items with no collapsed in-scope proper ancestor - under a query the matches and their ancestors regardless - in lexicographic order of their paths |
| `Planning.ParentsFirst` | apps/global-tui/src/model.ts:381-382 | In that order no row repeats and no item precedes its in-scope parent |
| `Planning.ParentListed` | apps/global-tui/src/model.ts:377-385 | The in-scope parent of a listed item is listed |
| `Planning.ParentComesBefore` | apps/global-tui/src/model.ts:381-382 | and comes before it |
| `Planning.SiblingsInOrder` | apps/global-tui/src/model.ts:381-382 | In that order siblings follow position and creation |
| `Choices.FillPages` | apps/global-tui/src/model.ts:123-139 | The paging loop gives the result and makes the requests of the specification |
| `Choices.ChoiceLoader.CompleteChoices` | apps/global-tui/src/model.ts:110-143 | The result, the requests and both flags, on the fast path and on every failure |
| `Choices.LoadedIffComplete` | apps/global-tui/src/model.ts:123-140 | Rows are loaded exactly if the answers begin with one complete reading: contiguous pages of one revision and one total, `total` rows in all; then they are that reading's rows |
| `Choices.ChoicesArePicked` | apps/global-tui/src/model.ts:110-140 | Choices load exactly if the summary shows all rows or the answers begin with a complete reading; they are then, in order and as often as they occur, exactly the rows of the requested project, where one was requested and rows have one, that are not archived |
| `Choices.ReportsTheFault` | apps/global-tui/src/model.ts:124-142 | A failed load reports what is wrong with the answer that ended it, the answers before it being consistent |
| `Choices.AskedInSequence` | apps/global-tui/src/model.ts:124-139 | Whatever is answered, requests are contiguous, pinned to the snapshot's revision, and never repeat an offset |
| `Choices.SlicesLoad` | apps/global-tui/src/model.ts:123-140 | Against a service that cuts one sequence into any pages as many answers as rows remain are enough |
| `Choices.SlicesAreOffered` | apps/global-tui/src/model.ts:110-143 | A capped summary is then filled with exactly the rows of that sequence that may be offered |
| `Choices.EndlessKeepsWaiting` | apps/global-tui/src/model.ts:124-139 | For every total and every number of pages some service keeps the loop asking |
| `Choices.WaitsIff` | apps/global-tui/src/model.ts:124-139 | The loop still waits exactly if all answers so far are pages of this revision with one natural number as total, contiguous, none empty, each naming the next |
| `Choices.PastTheTotal` | apps/global-tui/src/model.ts:133-137 | Once it has taken more rows than the total, no answers make it succeed |
| `GlobalWrites.JudgeMeans` | apps/global-tui/src/client.ts:77-117 | A mutation is done exactly on a correlated success with data, plainly refused exactly on a correlated conflict, busy or rejected answer with details, and untrusted on every other answer |
| `GlobalWrites.TrafficMeans` | apps/global-tui/src/client.ts:147-178 | A mutation's connection fails plainly only before its request was written, afterwards always as untrusted under its id |
| `GlobalWrites.WholeFrame` | apps/global-tui/src/client.ts:161-173 | A response that ends with its frame is read whatever its chunks |
| `GlobalWrites.TrailingBytes` | apps/global-tui/src/client.ts:161-173 | A frame with any bytes after it, cut in any way, is read exactly if some chunk ends where the frame ends, and fails otherwise |
| `GlobalWrites.TakesOneFrame` | apps/global-tui/src/client.ts:161-173 | Whatever happens on its connection, a response is taken only where the bytes arrived so far are one whole frame within the limit, and it carries the id asked under |
| `GlobalWrites.FrozenIff` | apps/global-tui/src/model.ts:252-258 | A settled write freezes the very id it carried exactly if it was written and no correlated definite answer came |
| `GlobalWrites.ResolvedIff` | apps/global-tui/src/model.ts:262-270 | A lookup releases the freeze exactly on a correlated success or a correlated refusal whose code says not found |
| `GlobalWrites.GlobalController.StartMutation` | apps/global-tui/src/model.ts:252-256 | A write begins exactly if no operation is unresolved |
| `GlobalWrites.GlobalController.EndMutation` | apps/global-tui/src/model.ts:256-260 | What the answer freezes replaces the unresolved operation, anything else leaves it; a failed refresh only sets its flag |
| `GlobalWrites.GlobalController.AskOperation` | apps/global-tui/src/model.ts:262-265 | A lookup asks for the operation unresolved when it starts |
| `GlobalWrites.GlobalController.HearOperation` | apps/global-tui/src/model.ts:265-271 | A resolving answer clears the unresolved operation, whichever it is by then; any other leaves it |
| `GlobalWrites.NothingForgotten` | apps/global-tui/src/model.ts:252-271 | One call at a time, every untrusted write stays unresolved until a lookup of its own releases it |
| `GlobalWrites.ForgottenByStep` | apps/global-tui/src/model.ts:252-271 | A step forgets an untrusted write exactly if, while that is unresolved, another write ends untrusted or the lookup of another operation resolves |
| `GlobalWrites.RemembersIff` | apps/global-tui/src/model.ts:252-271 | A run of overlapping calls remembers every untrusted write throughout exactly if it takes no such step |
| `GlobalWrites.ReleasedIsLookedUpIff` | apps/global-tui/src/model.ts:262-270 | A lookup that clears the field releases the operation it looked up exactly if the field still holds it |
| `GlobalWrites.LateLookupForgets` | apps/global-tui/src/model.ts:262-270 | A run in which the second of two overlapping lookups releases a write that was never looked up |
| `GlobalWrites.FrozenSendsNothing` | apps/global-tui/src/model.ts:253 | While an operation is unresolved no steps send a write |
| `GlobalWrites.OverlappingWritesForget` | apps/global-tui/src/model.ts:253-257 | A run of two overlapping writes that both end untrusted and leave the first neither unresolved nor looked up |
| `GlobalRefresh.Refresher.Refresh` | apps/global-tui/src/model.ts:67-71 | A call starts the loop or has it read once more |
| `GlobalRefresh.Refresher.OnRead` | apps/global-tui/src/model.ts:93-94 | The loop reads again exactly after a successful read with a call queued |
| `GlobalRefresh.CallIsServedIff` | apps/global-tui/src/model.ts:67-96 | A call whose promise resolves had a read started at it or later, exactly unless it came between the exit test and the clearing of the promise |
| `GlobalRefresh.LateCallIsForgotten` | apps/global-tui/src/model.ts:93-94 | What such a call queued starts no read |
| `GlobalRefresh.LoopEnds` | apps/global-tui/src/model.ts:72-94 | A call made during a read has one more read start when that one succeeds, after which the loop ends; a failed read ends it at once |
| `GlobalRefresh.ReadsAreAskedFor` | apps/global-tui/src/model.ts:67-96 | In every run no more reads start, or are owed, than calls were made |
| `LineShell.RunLineShell` | apps/tui/src/line-shell.ts:234-349 | For every sequence of lines the mutations sent are exactly those whose prompt a confirm answers, in order, once each, as staged, and none after a cancel, a quit or the end of input |
| `LineShell.SentAsShownIff` | apps/tui/src/line-shell.ts:193-221 | A confirmed mutation goes out on the revision its prompt showed exactly if that is still the revision when it is confirmed, and for the attempt shown exactly if that is still the work's attempt |
| `LineShell.PromptIsNotPinned` | apps/tui/src/line-shell.ts:193-221 | Two lines between which a read lands: shown for one revision and fence, sent for the next |
| `LineShell.SendsIff` | apps/tui/src/line-shell.ts:244-276 | A confirm sends what a line showed exactly if that is the prompt it answers: no confirm or cancel between, every earlier prompt answered before, and nothing quit |
| `LineShell.PromptIff` | apps/tui/src/line-shell.ts:321-339 | With nothing to decide, a line puts up a prompt exactly if it is a creation or a mutation of the work that is both selected and routed to |
| `LineShell.SentIsWhatWasTyped` | apps/tui/src/line-shell.ts:211-268 | A confirmed mutation goes out exactly if the controller permits it when it is confirmed, and then with the action, text and evidence that were typed, for the work selected then |
| `LineShell.OnePrompt` | apps/tui/src/line-shell.ts:245-249 | Two prompts are never open at once |
| `LineShell.ParseOptions` | apps/tui/src/line-shell.ts:61-82 | The index loop gives the result of the specification |
| `LineShell.ParsesIffSpelled` | apps/tui/src/line-shell.ts:61-82 | Arguments are accepted exactly if they are positional texts and distinct allowed options with proper values, in any order |
| `LineShell.SpelledParses` | apps/tui/src/line-shell.ts:61-82 | and then each text and value lands where it was written |
| `Capture.OriginRoundTrip` | crates/application/src/global_capture.rs:22-44 | An origin is read back from both of its JSON forms |
| `Capture.OriginReadIff` | crates/application/src/global_capture.rs:149-163 | An object is read as an origin exactly if its digest is the prefix and 64 lower-case hexadecimal digits and its reference, null and missing alike, is well formed |
| `Capture.ListsIff` | crates/application/src/global_capture.rs:49-57 | The items must be an array; the witnesses may be missing and then are none |
| `Capture.NamesIff` | crates/application/src/global_capture.rs:66-120 | A witness names an item by an id that is not blank; a null origin is no claim |
| `Capture.CheckWitness` | crates/application/src/global_capture.rs:65-104 | A witness passes the checks exactly if it names an existing item, carries that item's creation time and a fitting revision, and its digest is the hash of its exact text |
| `Capture.ReadWitnesses` | crates/application/src/global_capture.rs:59-111 | The first pass ends with the origins by item, or on a fault of the whole snapshot |
| `Capture.CheckClaim` | crates/application/src/global_capture.rs:121-136 | A claim passes exactly if its item's witness has the same origin |
| `Capture.ClaimNext` | crates/application/src/global_capture.rs:114-137 | One turn of the second pass extends the origins claimed so far, or ends on a fault of the whole snapshot |
| `Capture.MatchAll` | crates/application/src/global_capture.rs:139-146 | The third pass succeeds exactly if every witness's item is among them |
| `Capture.ValidateSnapshotProvenance` | crates/application/src/global_capture.rs:48-147 | It accepts exactly the snapshots with provenance: all witnesses hold, one per item, every claimed origin has its witness and every witness its claim |
| `Capture.CheckOrigins` | crates/application/src/global_capture.rs:113-147 | The second and third passes accept exactly the consistent snapshots |
| `Capture.PairingIsOneToOne` | crates/application/src/global_capture.rs:105-146 | With unique item ids claims and witnesses pair one to one |
| `Capture.SharedIffSameId` | crates/application/src/global_capture.rs:105-146 | Where every claim has its witness, two claims share one exactly if their items have the same id |
| `Capture.OwnWitnessesIff` | crates/application/src/global_capture.rs:48-147 | An accepted snapshot gives each claim a witness of its own exactly if no two claiming items have the same id |
| `Capture.ClaimIsBacked` | crates/application/src/global_capture.rs:98-146 | and each claimed digest is the hash of the exact text its witness keeps, taken at the item's creation |
| `Capture.SharedWitnessAccepted` | crates/application/src/global_capture.rs:113-137 | Two items under one id may share a witness |
| `Capture.CaptureKeepsProvenance` | crates/application/src/global_capture.rs:10-44 | A capture of any text under a fresh item id keeps a valid snapshot valid, at a revision not behind the one the snapshot names |
| `Lineage.WriteResultLineage` | crates/application/src/artifact_acceptance.rs:335-392 | The catalog and the readback are those of the projection, for every pattern of failures |
| `Lineage.RecordedIffThere` | crates/application/src/artifact_acceptance.rs:335-392 | Every output lands in exactly one of recorded and pending, in order, whatever fails or contends: in recorded exactly if the call succeeded and the catalog in the end holds its link for this result |
| `Lineage.ProjectMeans` | crates/application/src/artifact_acceptance.rs:335-392 | With distinct operation ids each goes where the catalog before the run decides, and the catalog after it is known entry by entry |
| `Lineage.RepairIsComplete` | crates/application/src/artifact_acceptance.rs:260-274 | After any runs that failed anyhow one clean run gives the catalog and the answer of a single clean run, if no two outputs contend for one operation id |
| `Lineage.RepairIsCompleteIff` | crates/application/src/artifact_acceptance.rs:260-274 | Every pattern of failures is repaired exactly if no two different outputs contend for one operation id |
| `Lineage.DistinctIsRepaired` | crates/application/src/artifact_acceptance.rs:260-274 | With distinct operation ids every pattern of failures is repaired, whatever the catalog held |
| `Lineage.RepairIsIdempotent` | crates/application/src/artifact_acceptance.rs:257-259 | Repeating a clean run changes nothing |
| `Lineage.CollisionDefeatsRepair` | crates/application/src/artifact_acceptance.rs:433-445 | Two different outputs that contend for an operation id the catalog lacks leave it, after some failure, where no clean run repairs it; relationship ids are distinct, so this takes equal truncated digests |
| `Lineage.InspectionAndUnavailability` | crates/application/src/artifact_acceptance.rs:457-556 | Where inspection gives verdicts the unavailable form gives the same criteria in the same order, all failed; inspection alone fails exactly where a byte criterion has no value |
| `Lineage.PassesIffSatisfied` | crates/application/src/artifact_acceptance.rs:457-520 | Each criterion passes exactly if the artifact satisfies it: long enough, short enough, a JSON document, or UTF-8 with the text somewhere in it |
| `Lineage.JudgedIffWellFormed` | crates/application/src/artifact_acceptance.rs:457-520 | The criteria are judged exactly if all are of a known kind with what that kind compares |
| `Lineage.VerdictReports` | crates/application/src/artifact_acceptance.rs:470-516 | Each verdict names its criterion and reports the length compared, or why the content did not match |
| `Framing.HeaderRoundTrip` | apps/tui/src/client.ts:969 | Reading a big-endian length back gives it modulo 2^32 |
| `Framing.DecodeInvertsEncode` | apps/tui/src/client.ts:960-989 | Decoding inverts encoding exactly for payloads whose length fits four bytes; a longer one is refused |
| `Framing.EncodeInvertsDecode` | apps/tui/src/client.ts:975-989 | Every frame that decodes is the encoding of what it decodes to |
| `Framing.ChunkingIsIrrelevant` | apps/tui/src/node-transport.ts:118-138 | What a stream of bytes settles does not depend on how it was cut into chunks |
| `Framing.FrameSettles` | apps/tui/src/node-transport.ts:118-138 | Every cut of one frame, with or without bytes after it, settles with that frame's payload |
| `Framing.PrefixNeverSettles` | apps/tui/src/node-transport.ts:118-143 | No strict prefix settles, and a failure after one fails the round trip for that reason |
| `Framing.SettlesOnce` | apps/tui/src/node-transport.ts:102-115 | What has settled stays, whatever arrives later |
| `Framing.SettlesAs` | apps/tui/src/node-transport.ts:102-143 | Any events settle what the bytes before the first failure settle, and that failure otherwise |
| `Framing.TripAnswersItsRequest` | apps/tui/src/node-transport.ts:102-143 | Whatever arrives, a round trip succeeds with a frame exactly if, before any failure, the first whole frame received was a response under its own request id with that frame as payload |
| `Framing.UnixSocketFramedTransport.RoundTrip` | apps/tui/src/node-transport.ts:78-117 | A closed transport, and a request that is no frame of an object with an operation id or grows past the limit, are refused; otherwise a new unsettled round trip begins under that id |
| `Framing.UnixSocketFramedTransport.OnEvent` | apps/tui/src/node-transport.ts:102-143 | An event moves one round trip, which reads responses under its own request id, and keeps the set of active ones exact |
| `Framing.UnixSocketFramedTransport.Close` | apps/tui/src/node-transport.ts:147-153 | Closing fails every unsettled round trip and no settled one |
| `Tokenizer.TokenizeLine` | apps/global-tui/src/interaction.ts:679-697 | The index loop reads what the specification reads |
| `Tokenizer.WrittenIsRead` | apps/global-tui/src/interaction.ts:679-697 | However a list of tokens is written - bare, escaped, quoted, pieced together, backslashes that escape nothing included, with any white space - it is read back as that list |
| `Tokenizer.ReadsIffWritten` | apps/global-tui/src/interaction.ts:679-697 | A line is read without error exactly if it is a list of tokens so written, and then as that list |
| `Tokenizer.QuotingRoundTrip` | apps/global-tui/src/interaction.ts:679-697 | Every list of tokens, empty ones included, survives quoting |
| `Tokenizer.EitherMarkQuotes` | apps/global-tui/src/interaction.ts:679-697 | What stands between two marks of either kind, the other mark and white space included, is one token as it stands |
| `Tokenizer.ErrorIffLeftOpen` | apps/global-tui/src/interaction.ts:694 | Reading fails exactly if a quotation is left open |

## Left out

- The Rust store, source and domain crates. The source catalog is modelled by its idempotence by operation id alone, `CaptureOrigin` by its validation rules.
- Field-by-field checks of service responses, notices, routes and the triggers of receipt hydration; a receipt page may be asked for at any time. Whether a response's database scope is accepted is an input of the event loop; the rule itself is `ServiceCall.ScopeCheck`.
- Text validation of operator input (claim configuration, summaries), which only refuses, attempt ids drawn by the client, and lease times.
- Rendering, layout, key decoding, forms and palettes; a dialog's length and the terminal's size are inputs of Enter.
- UTF-8, JSON parsing and printing, SHA-256, sockets, timers, Git and the zip library. A byte order mark that a text decoder strips is not modelled.
- Release and validation scripts, subprocess plumbing.
- DashboardSafety.RevisionsAlways: a committed answer whose data does not fit its request, as a bound result's may not, raises an exception before it is heard; its revision does not raise the floor, and the model files it as an exception.
- Coordinator.OneReadAtATime: assumes that a failing status read rejects its promise; a reader that throws before returning one would leave the settled promise in place.
- OverlayMerge.ApplyOverlay: the last copy of the report goes where the operator says, which is taken to be outside the target and the backup.
- Overlay.ApplyReport: paths are well-formed, distinct, and none is a directory prefix of another, nor below one of the reserved names (the report write would raise there); the archive's file list comes sorted. The tree holds files only: the directories made for an added file stay when it is removed, so an original tree is restored up to new empty directories. A backup copy is a durable state although the program does not flush it, and a temporary file left by a hard stop is recorded but not removed.
- Overlay.BuildReport: the counts, the texts of the report and the legacy manifest are not modelled.
- OverlayMerge.BranchSafetyIff: stated, like CrashSafetyIff, for modes that fit in 0o777, where the copied file can be told from the original.
- Planning.PlanningRows: takes the items in scope as input, without the filters on archived items and projects, and the matches of the query as a set of ids. Item ids are distinct and not empty.
- GlobalWrites.GlobalController.StartMutation: ids drawn at random are assumed distinct. Letter case of error codes is folded for ASCII only.
- GlobalRefresh.Refresher.Refresh: a refresh is one read; the history, search and selection reads that follow it are not told apart.
- Choices.ChoiceLoader.CompleteChoices: a client without detail pages is not modelled; a snapshot or a refresh that changes during the call is seen only through the answers and the flags given as inputs.
- LineShell.RunLineShell: commands arrive parsed, and automatic refreshes only change the view of each line. The request logged is the one the controller's guards let out; checks on typed text may still refuse it. Of the parser, `parseOptions` is modelled.
- Capture.ValidateSnapshotProvenance: errors are told apart by kind, not by text.
- Lineage.WriteResultLineage: pending entries carry the source version without the reason's text, and the operation id is any function of the relationship id.
- FullScreen.ConfirmedSends: the screen's rule check is an input that may refuse; work actions on an empty work id are sent without the attempt check, as the code does.
- Framing.UnixSocketFramedTransport.RoundTrip: reading JSON is a function from bytes to the fields looked at; the texts of errors are abbreviated.
- Every method that changes fields in place equals a function of the old fields; aliasing between controllers is not modelled, the program has one of each.
