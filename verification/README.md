# Verification of the control hub's protocols and log folds

Dafny 4.11 models of nine cores of the Sinet agentic control hub, and proofs about them. Check everything with
`dafny verify dfyconfig.toml`.

- **Accepting a deliverable** (`AcceptWorld`, `AcceptSafety`, `AcceptLookahead`, `AcceptCatchUp`, `AcceptGuards`,
  `AcceptCoherence`, `AcceptTwins`, `AcceptLimits`, `AcceptCrash`, `AcceptSolo`, `AcceptBoot`, `AcceptAnswers`,
  `AcceptAttribution`, `Accepter`). The effect journal, each project's protected remote ref and local branch, the
  deliverables' review states and the volatile look-ahead are one state; a call is a program counter between two
  atomic actions, and a run interleaves the actions of any number of calls with crashes, reconciliations, re-drives
  and inbox answers. Commits are values, so a content-addressed squash is a function and ancestry is structural.
  `Accepter` holds the same protocol as objects and methods, proved against the atomic steps.
- **Log-derived inbox lists** (`DriftFold`, `Watchdog`). One-pass folds over maps and shared card objects, against a
  reading of the log.
- **Co-approval** (`CoApproval`, `CoApprovalSteps`, `ApprovalServer`). Signatures recomputed from the decision log,
  the journal's returns to proposed in between, batches.
- **The event stream** (`EventTail`, `Broadcast`). A cursor over a growing log, reconnects, and the edge trigger.
- **Credentials** (`PinLockout`, `Sessions`, `PhcString`, `Base64`, `Decimal`). Lockout, a lazily swept table, and a
  printer with its parser.
- **The re-nag notifier** (`Notifier`). Two-sided timing of a stateless due check over whole runs.

Clock readings, fresh identifiers, merge results, the signing posture, the argon2 function, PIN checks and the failures of
the disk, the network and the broker are inputs of the steps; a SHA-256 digest is an injective constructor. Each write
transaction is one atomic step. Times are integers in nanoseconds; event sequence numbers are naturals.

Where the code does not do what a comment or a plain reading of it says, the models follow the code:

- internal/api/approvals.go:828-829 says a drift reversion changes the hash on the row. The journal
  (internal/gates/effects.go:274-281) does not rewrite it (`CoApproval.HashStays`); what keeps a drifted effect from being
  approved is the journal's own check.
- internal/api/approvals.go:824-832 says signatures age out exactly when an approval expires. The row of the completing
  answer is stamped after the approval, so it can outlive it: `CoApproval.ExpirySurvivors` says exactly when and
  `CoApproval.LateSignatureCarries` gives the run.
- internal/accept/accept.go:446-455 re-drives approved effects only, so a crash after succeed and before the review state or
  the local branch has followed is not made good: `AcceptCrash.CrashTransparency` says exactly which crashes are.
- internal/project/accept.go:177-179 swaps the local head after a separate read, so an advance can fail although the branch
  has not diverged: `AcceptLimits.RaceLeavesLocalBehind`, and `AcceptGuards.CaughtUpExactly` for when the branch is
  caught up.
- internal/accept/accept.go:188-192 calls the look-ahead the head plus the first in flight. Two effects with one commit
  break that: `AcceptLimits.EchoBreaksCoherence`, with `AcceptTwins.CoherenceWithoutTwins` and `AcceptCoherence.CoherenceExactly`
  for when it holds.
- internal/api/approvals.go:1208 and 1279 scan and act apart, and the act does not scan again:
  `CoApprovalSteps.ApprovedOnlyWhenConjoined` bounds the signatures by the scan's clock, `CoApprovalSteps.ActWindow` says
  exactly when they are inside the window at the act, and `CoApprovalSteps.StaleScanApproves` gives a run in which not.
- internal/review/store.go:219-346 mints a revision in any review state and on either arm, so an acceptance on the content arm
  can be followed by a snapshot: `AcceptSafety.MintAfterContentAccept`, and `AcceptSafety.SnapshotAcceptsAreJournalled` for
  exactly when an accepted snapshot has no effect.
- internal/accept/accept.go:507-512 fails the effect so that no executing row is left behind, and 684-686 drops the error of
  that write. A lost one leaves the row executing, under a merge card and a boot that reports no error:
  `AcceptSolo.ExecuteAnswersTruly`, `AcceptSolo.RedriveSettles`, `AcceptLimits.LostFailGoesUnseen`, and
  `AcceptSolo.NextBootPicksUp` for the boot after.
- internal/api/sse.go:349-363 resumes a reconnect from the head when the client has received no frame and named no cursor:
  `EventTail.ReconnectExactly` says what that loses.

## Model

| member | source | states |
|---|---|---|
| AcceptSafety.StepKeeps | internal/accept/accept.go:487-584 | the invariant every atomic step of every call keeps: one chain of landings per official branch, effects pinned below the head, succeeded commits in the branch, accepted deliverables backed by a succeeded effect or the content arm, and what each call in progress knows |
| AcceptSafety.ReachableInv | internal/accept/accept.go:266-366 | that invariant in every interleaving of accepts, re-drives, crashes, reconciliations and inbox answers from a fresh installation |
| AcceptSafety.LandingsFormOneChain | internal/accept/accept.go:515-518 | the history of each official branch is one linear chain: every landing goes from its effect's pinned expect-sha to a child of it, and everything landed is an ancestor of the head |
| AcceptSafety.AtMostOnceLanding | internal/accept/accept.go:415-421 | no effect ever moves an official branch twice, over all interleavings with crashes, reconciles and re-drives |
| AcceptSafety.NothingLandedIsDropped | internal/accept/accept.go:433-444 | whatever follows, branches only move forward, the journal keeps every row and a success is final |
| AcceptSafety.WriteAhead | internal/accept/accept.go:487-490 | a step leaves every official branch alone, or moves exactly one of them, off the expect-sha its begun effect pinned and onto the landed child commit, and leaves every other one alone |
| AcceptSafety.JournalTruth | internal/accept/accept.go:565-574 | a succeeded effect's recorded commit is in its branch, and every accepted deliverable has a succeeded effect naming it or was decided on the content arm |
| AcceptSafety.SnapshotAcceptsAreJournalled | internal/accept/accept.go:344-351 | a deliverable accepted with a snapshot lacks a succeeded effect naming it iff it was accepted on the content arm, no effect naming it succeeded, and its last mint gave it a snapshot after the content arm had read that it has none |
| AcceptSafety.MintAfterContentAccept | internal/review/store.go:219-346 | a mint after a content acceptance, which nothing refuses, leaves an accepted deliverable with a snapshot and no effect |
| AcceptSafety.ContentArmTouchesReviewOnly | internal/accept/accept.go:377-389 | an accept of a revision that pins content changes the deliverable and nothing else: no effect, no branch |
| AcceptSafety.ReviewMovesOn | internal/review/accept.go:41-57 | in every run a superseded deliverable is never accepted again and an accepted one never goes back to review |
| AcceptSafety.AdvanceNeverDiverges | internal/accept/accept.go:575-577 | on the push arm the local advance never meets a diverged branch, in whatever order stacked accepts call it |
| AcceptSafety.RedriveRebuildsSpec | internal/accept/accept.go:437-443 | a re-drive rebuilds from the journal row exactly the execute inputs the accept used |
| AcceptLookahead.StepExclusive | internal/gates/effects.go:255-257 | at most one execute phase per effect is under way, as long as nothing is reconciled |
| AcceptGuards.LandedAnswersExactly | internal/accept/accept.go:569-583 | an accept whose push went through answers an error after the landing iff one of its later steps met a late fault, a deliverable that cannot be accepted, or at its swap a local head other than the one it read; an error although it went through iff none of that, and the swap's report or the routing of the sibling runs failed; otherwise it answers accepted with the commit it landed |
| AcceptGuards.CaughtUpExactly | internal/project/accept.go:147-180 | from a synchronised start, once every call has returned: the local branch is the remote branch iff the remote never moved or some call that carried the head met no late fault, no refused review and no lost swap |
| AcceptGuards.NothingInTheWay | internal/project/accept.go:147-180 | a run whose steps on the project meet none of these guards, and lose no push, leaves the local branch at the remote head, in whatever order stacked accepts finish |
| AcceptGuards.LocalEqualsRemoteAtRest | internal/project/accept.go:147-180 | the same read off the answers: once every call has returned and none failed after its landing |
| AcceptCatchUp.LocalCaughtUpExactly | internal/accept/accept.go:575-583 | in every run without a crash, with faults and reconciles, at every point: the local branch is at the remote head iff the remote never moved or some call got through with the commit that is now the head, having answered accepted or, with everything stored, an error of the swap's report or of the sibling routing |
| AcceptCoherence.CoherenceExactly | internal/accept/accept.go:193-215 | in a run without a crash or a reconcile whose steps on the project meet no late fault, refused review, lost swap or lost push, so none that errors after a landing there: the applies-cleanly base is the remote head at every point where no accept is between push and mark iff every mark that ended such a stretch marked the remote head, although marks overwrite blindly and clears remove only their own entry |
| AcceptCoherence.LookaheadCoherence | internal/accept/accept.go:560-564 | in those same runs, errors after a landing excluded: coherence throughout, as long as no push found the branch already at its commit |
| AcceptTwins.NoTwinsNoEcho | internal/accept/accept.go:352-353 | in every crash-free run from a synchronised start, with any faults: a push on the project finds the ref already at its commit only if another effect there has the same base, merged tree, user, author and message and an approval in the same second |
| AcceptTwins.CoherenceWithoutTwins | internal/accept/accept.go:193-215 | coherence throughout from what was proposed and when it was approved: in runs clear on the project, errors after a landing excluded, without two such effects |
| AcceptLimits.EchoBreaksCoherence | internal/accept/accept.go:203-207 | for every setting: one deliverable accepted twice in one second and a third accept stacked in between take the look-ahead behind the remote head, with no fault |
| AcceptLimits.RaceLeavesLocalBehind | internal/project/accept.go:177-179 | for every setting: two stacked accepts that advance at once leave the local branch behind for good and the second answers an error, although it landed, succeeded and was accepted |
| AcceptLimits.SettingExists | internal/accept/accept.go:266-366 | the settings of these runs and of the lost fail write can be met |
| AcceptCrash.CrashTransparency | internal/accept/accept.go:415-421 | a crash after any step of a lone accept, a reconcile and a re-drive end in the branches, journal, look-ahead and review state of the crash-free run iff the crash fell between approve and succeed with the approval still fresh at the re-drive, or after the last write; both arms |
| AcceptCrash.RedriveRefused | internal/accept/accept.go:430-432 | a re-drive of an effect that is not approved, or whose approval lapsed, lands nothing |
| AcceptSolo.SoloIsRun | internal/accept/accept.go:487-584 | a call run alone is one of the system's runs, so what holds of every run holds of the methods |
| AcceptSolo.ExecuteAnswersTruly | internal/accept/accept.go:498-583 | whatever fails on the way the execute phase answers, and truly: accepted means recorded, reviewed and on both branches; a merge card means nothing moved, and the effect failed iff its fail write went through, else it is executing still; a plain error means nothing moved |
| AcceptAnswers.AcceptAnswersTruly | internal/accept/accept.go:266-366 | the answer of a whole accept is true, whatever fails on the way: accepted on the content arm only for a deliverable in review without a snapshot, and nothing else changed; accepted with a commit only for a snapshot in review, under a fresh effect pinned to the base, with the commit its merge and input determine; a merge card only when the base and the snapshot conflict, and nothing is stored, or the branch is elsewhere; what is not in review or incomplete is refused with nothing stored; rows, branches and deliverables of others stay |
| AcceptAnswers.AcceptAnswersExactly | internal/accept/accept.go:266-366 | which answer a whole accept gives when nothing fails: refused, accepted on the content arm, a collision card exactly when the snapshot does not merge onto the base, refused if its approval lapsed, else what the branches say |
| AcceptAnswers.AcceptedMetNoFault | internal/accept/accept.go:266-366 | an accept that answers accepted met no fault at any of its actions |
| AcceptAnswers.ExecuteAnswersExactly | internal/accept/accept.go:487-584 | which answer an execute phase gives when nothing fails, from the approval, the merge and the branches it finds |
| AcceptSolo.RedriveOne | internal/accept/accept.go:422-444 | one re-drive without an error settles its own row iff it did not lose its fail write, and otherwise leaves it executing, with what the next re-drive needs; it touches no other row |
| AcceptSolo.RedriveSettles | internal/accept/accept.go:456-476 | a boot re-drive that reports no error has counted each accept it was given once, skipped every row that is none, touched no other row, and settled exactly the accepts whose fail write, if they had one, went through |
| AcceptSolo.NextBootPicksUp | internal/gates/effects.go:421-444 | the rows a boot left over are re-drivable after the next reconcile, and when neither boot reports an error every row is settled but those whose fail write was lost twice |
| AcceptLimits.LostFailGoesUnseen | internal/accept/accept.go:552-557 | for every setting: the boot re-drive of an accept whose branch moved on counts it and reports no error, and leaves it failed if its fail write went through and executing if not |
| AcceptBoot.BootRedrivesAlone | internal/accept/accept.go:456-476 | an effect re-driven among others, on other projects and deliverables and with any faults, fares as its re-drive alone if no re-drive before it reported an error, and is untouched at this boot otherwise |
| AcceptBoot.BootTransparency | internal/accept/accept.go:446-455 | after a crash of an accept between approve and succeed such a boot leaves its row, branches, look-ahead and review state as the crash-free run does iff no re-drive before it reported an error and its approval was fresh |
| AcceptAttribution.LandedCommitsAreAttributed | internal/accept/accept.go:293-306 | over every run: each landed commit closes with its effect's pinned trailers, and those name an engine, a model and a vendor address, none of them empty |
| AcceptAttribution.MessageParts | internal/accept/accept.go:690-699 | the message is the subject or the stock one, the provenance if there is any, and the trailers, with a blank line between |
| Accepter.Journal.Propose | internal/gates/effects.go:166-190 | a new proposed row with its pinned payload |
| Accepter.Journal.Approve | internal/gates/effects.go:196-228 | proposed to approved with the approval time, or nothing; the payload-hash check, which no accept payload can fail, is left out |
| Accepter.Journal.BeginExecute | internal/gates/effects.go:237-302 | approved to executing with one more attempt; a lapsed approval goes back to proposed and the call fails; the return on payload drift, which no accept payload can meet, is left out |
| Accepter.Journal.Succeed | internal/gates/effects.go:305-307 | executing to succeeded with its result, or nothing |
| Accepter.Journal.Fail | internal/gates/effects.go:310-312 | executing to failed with its reason, or nothing |
| Accepter.ProjectStore.AdvanceDefaultBranch | internal/project/accept.go:147-180 | fast-forwards, is a no-op on an incorporated commit, refuses a diverged one; a failed ref update can have moved the ref |
| Accepter.ProjectStore.Push | internal/accept/accept.go:541-558 | moves the ref only from the expected commit; a ref already at the source is a success; anything else is a rejection |
| Accepter.ReviewStore.Accept | internal/review/accept.go:41-57 | accepting again changes nothing, a superseded deliverable is refused; supersession of others by subject is left out |
| Accepter.Accepter.constructor | internal/accept/accept.go:178-186 | nothing in flight |
| Accepter.Accepter.ProjectOnto | internal/accept/accept.go:193-201 | the in-flight commit if there is one, else the head |
| Accepter.Accepter.MarkInflight | internal/accept/accept.go:203-207 | overwrites the project's entry |
| Accepter.Accepter.ClearInflight | internal/accept/accept.go:209-215 | removes the entry only if it is this effect's |
| Accepter.Accepter.FailEffect | internal/accept/accept.go:684-686 | fails the row if the write goes through; its error is dropped |
| Accepter.Accepter.Accept | internal/accept/accept.go:266-366 | the whole accept ends in the state and the answer of its run through the atomic steps |
| Accepter.Accepter.AcceptPinned | internal/accept/accept.go:377-389 | the content arm, likewise, with the sibling routing of a deliverable that has a project |
| Accepter.Accepter.ExecuteAccept | internal/accept/accept.go:487-490 | the execute phase from its begin, likewise |
| Accepter.Accepter.Land | internal/accept/accept.go:491-540 | merge, posture and squash failures fail the effect; then the arm the registry records |
| Accepter.Accepter.LandPush | internal/accept/accept.go:541-583 | the push arm, its refusals, the sibling routing and the deferred clear |
| Accepter.Accepter.FinishPush | internal/accept/accept.go:569-577 | succeed, then accept, then advance; each failure stops there and still clears |
| Accepter.Accepter.LandLocal | internal/accept/accept.go:621-647 | the local arm: the advance is the landing and comes before succeed |
| Accepter.Accepter.AdvanceLocal | internal/accept/accept.go:621-632 | the local arm's advance, as the read that decides and the swap |
| Accepter.Accepter.ReDrive | internal/accept/accept.go:422-444 | from an approved row alone; any other row is refused |
| Accepter.Accepter.ReDriveApproved | internal/accept/accept.go:456-476 | the re-drives of the listed rows in order, stopping at the first error, with their count |
| DriftFold.HitsRead | internal/api/projection.go:920-960 | a finding is folded iff its row decodes, is no older than the horizon, is not of class none, and is the member's own when a member reads |
| DriftFold.MemberSeesOwn | internal/api/projection.go:924-927 | a member is listed what the operator would be if the log held the member's rows alone, and nothing when none is the member's |
| DriftFold.HitsOrdered | internal/api/projection.go:927-927 | in log order, each once |
| DriftFold.FoldPartitions | internal/api/projection.go:935-992 | every folded finding is in exactly one card; a card's findings share a fingerprint and lie less than 24h after its first; cards of one fingerprint do not interleave and start at least 24h apart even if timestamps go backwards |
| DriftFold.CardsBounded | internal/api/projection.go:497-518 | findings that span T make at most 1 + floor(T/24h) cards of one fingerprint |
| DriftFold.HorizonBound | internal/api/projection.go:914-919 | at most 31 cards of one fingerprint in the 30-day horizon |
| DriftFold.FoldAppend | internal/api/projection.go:967-976 | appended findings extend cards and open new ones behind them, and change no opening |
| DriftFold.SubjectInjective | internal/api/oversight.go:264-269 | one dismissal subject is one incident, whatever the fingerprint contains |
| DriftFold.DismissalSticks | internal/api/projection.go:993-1009 | for a fixed horizon appended rows leave every card's identity and dismissal where they were, and no dismissal reaches another incident |
| DriftFold.LatestDistinct | internal/api/projection.go:967-976 | no two cards have the same latest finding |
| DriftFold.CardTells | internal/api/projection.go:966-991 | what a card says, read off the findings: it counts those of its fingerprint from its opening to its latest, keeps the identity of the first and the wording of the last, and is triggered iff one of them is |
| DriftFold.HiddenExactly | internal/api/oversight.go:377-406 | a card is hidden iff a drift-card dismissal inside the horizon names its fingerprint and its opening seq |
| DriftFold.OpenCardsExactly | internal/api/projection.go:1000-1019 | the list is the min(100, n) undismissed cards with the newest findings, strictly newest first |
| DriftFold.DriftCard.Join | internal/api/projection.go:967-975 | one more finding of the storm: the identity stays, the wording and the hit count move |
| DriftFold.FoldHit | internal/api/projection.go:966-991 | one finding through the shared card objects is one step of the fold |
| DriftFold.FoldRows | internal/api/projection.go:935-992 | the one-pass fold over aliased card objects is the fold on values |
| DriftFold.Compact | internal/api/projection.go:1000-1009 | the in-place filter keeps exactly the undismissed cards, in order |
| DriftFold.DecisionSubjects | internal/api/oversight.go:377-406 | the subjects dismissed by the decision rows inside the horizon |
| DriftFold.HorizonLosesNoDismissal | internal/api/projection.go:914-922 | reading the dismissals inside the horizon only gives the list all dismissals ever given would, when none is stamped before the finding it concerns |
| DriftFold.DriftCards | internal/api/projection.go:908-1020 | the whole derivation, dismissals included, returns the open cards |
| Watchdog.KeysExact | internal/api/projection.go:1141 | a map key names one run and one class when run ids hold no NUL |
| Watchdog.KeysCollide | internal/api/projection.go:1141 | with a NUL in a run id two runs can share a key |
| Watchdog.OpenExactly | internal/api/projection.go:1174-1190 | the list is ascending and holds exactly the latest flag per map key with no later suppress of that key and no later resume of that run, each as its own query finds the log |
| Watchdog.ReadingsBetween | internal/api/projection.go:1090-1191 | while the log grows between the three queries: every flag listed was open when the flags were read, and every flag by then on the log that is open at the last read is listed |
| Watchdog.OpenFlagsByClass | internal/api/projection.go:1084-1089 | when run ids hold no NUL, on the rows' own fields: exactly the latest flag per run and class, no dead-man canary's and a member's own, with no later suppression of that class for that run and no later resume of that run, in log order, with its members shown |
| Watchdog.NulHidesFlag | internal/api/projection.go:1141 | that hypothesis is needed: with a NUL in a run id the derived list of some log is not that list |
| Watchdog.MemberView | internal/api/projection.go:1151-1158 | when a key's rows carry one owner (suppressions: or the platform) a member sees exactly the operator's list restricted to the member |
| Watchdog.MaxSeqByKey | internal/api/projection.go:1199-1231 | the highest seq per key, whatever order the rows come in; the empty key is skipped |
| Watchdog.LatestFlags | internal/api/projection.go:1113-1142 | the latest non-canary flag in scope per key |
| Watchdog.Standing | internal/api/projection.go:1174-1188 | the uncleared flags, whatever order the map is walked in |
| Watchdog.WatchdogFlags | internal/api/projection.go:1090-1191 | the map-based derivation returns exactly the declarative list |
| CoApproval.ScanIsWhole | internal/api/approvals.go:838-872 | the time-bounded scan derives exactly the signatures the whole log holds |
| CoApproval.ApprovesExactly | internal/api/approvals.go:1150-1291 | an answer approves iff it is authorised, individually given, confirmed and pinned to the hash on the row, completes the conjunction, and the payload still has that hash |
| CoApproval.CountsExactly | internal/api/approvals.go:838-872 | a row counts as a signature iff it approves this card for this hash, which is not empty, no longer ago than the window |
| CoApproval.RecordsExactly | internal/api/approvals.go:1246-1273 | an approval is recorded and nothing more iff it is valid and does not complete the conjunction, and its reply tells who has signed by then |
| CoApproval.ApprovalWrites | internal/api/approvals.go:1276-1291 | what an approving answer writes: the approver and the time on its own row, and the decision row unless an own signature is on record or the append fails |
| CoApproval.DenialWrites | internal/api/approvals.go:1230-1245 | what a denying answer writes, and that an answer that decides nothing leaves the journal alone |
| CoApproval.RefusedKeeps | internal/api/approvals.go:1150-1291 | a refused answer has changed nothing, unless the journal acted and only its row could not be written; an unknown card is not found, and a card that is not the caller's to answer is forbidden |
| CoApproval.AnswersAskExactly | internal/api/approvals.go:1080-1146 | an open ask is answered iff by its owner, quoting its hash, alone unless its tier is low, confirmed by PIN if high, with an answer that decodes and that the intake accepts; it then holds that answer and nothing else changed, and any other request changes nothing |
| CoApproval.RoutesByKind | internal/api/approvals.go:1056-1075 | a route of either kind reaches that kind's answer, any other is refused with nothing changed |
| CoApproval.BeginsExactly | internal/gates/effects.go:237-302 | the journal begins an approved effect iff its approval is inside the window and its payload undrifted, and returns it to proposed otherwise |
| CoApproval.RowsAreSignatures | internal/api/approvals.go:1500-1521 | over every run each decision row about an effect card was written by a valid answer of that actor to that card |
| CoApproval.ApprovedOnlyWhenSigned | internal/api/approvals.go:818-836 | over every run with drift, expiry, reconciles and any answers, each answer one step: an effect becomes approved only when its owner, and at platform level also an operator, has validly signed the hash on the row within the window or does so by the acting answer |
| CoApprovalSteps.ApprovedOnlyWhenConjoined | internal/api/approvals.go:1208-1290 | the same with reversions, drift and other answers falling between the scan, the journal act and the row of any answer; the window is the scan's |
| CoApprovalSteps.ActWindow | internal/api/approvals.go:1208-1279 | each needed signature is at the act no older than the window and what passed since the scan; the conjunction holds at the act itself iff each needed signature is no older than the window by then, and so whenever the act comes no later than its scan |
| CoApprovalSteps.OneActPerCycleInterleaved | internal/gates/effects.go:196-228 | one approve or deny per proposal cycle, however the steps of answers interleave |
| CoApprovalSteps.AskedHasPassed | internal/api/approvals.go:1150-1205 | every request on record passed the guards of the open card at some step |
| CoApprovalSteps.StraightIsAnswer | internal/api/approvals.go:1150-1291 | an answer whose steps nothing falls between is the answer taken as one step |
| CoApprovalSteps.ActsOnItsScan | internal/api/approvals.go:1279-1282 | a request that has scanned approves iff the effect is proposed and undrifted at the act, however long ago it scanned |
| CoApprovalSteps.StaleScanApproves | internal/api/approvals.go:1208-1279 | the bound is reached: a run from an empty store in which an operator's second request approves past an expiry, on its scan of the cycle before, when the owner's signature is as old as the window and all that passed since the scan, and the conjunction no longer holds |
| CoApproval.OneActPerCycle | internal/api/approvals.go:1181-1187 | the journal sees at most one approve or deny per proposal cycle: acts less returns is one when decided and none when proposed, at every point of every run |
| CoApproval.HashStays | internal/gates/effects.go:274-281 | the recorded hash is the proposal's for good; a drift reversion does not change it |
| CoApproval.ExpirySurvivors | internal/api/approvals.go:824-836 | a signature outlives an expired approval iff the answer that completed the conjunction stamped its own row inside the window that reaches past the expiry |
| CoApproval.LateSignatureCarries | internal/api/approvals.go:1281-1290 | a run in which such a row lets the owner alone complete the next cycle of a platform-level effect |
| CoApproval.SettledStays | internal/api/approvals.go:1385-1407 | a settled effect never changes: the same decision is read back, another one is refused, a denial never becomes an approval |
| CoApproval.SettledAskStays | internal/api/approvals.go:1362-1375 | an answered ask never changes; the same answer in canonical form is read back |
| CoApproval.RepeatChangesNothing | internal/api/approvals.go:1211-1218 | an answer that took effect, given again while its row is in the window, adds no row and changes no state |
| CoApproval.RepeatOnOlderSignature | internal/api/approvals.go:1211-1218 | an answer that only found an older signature of its own, given again, changes nothing iff that signature is still inside the window |
| CoApproval.BatchKeepsAboveLow | internal/api/approvals.go:1324-1331 | a batch never touches an effect, the journal or the log, nor an ask above the low tier |
| CoApproval.BatchedIsDirect | internal/api/approvals.go:1053-1056 | a low-tier ask fares in a batch as it would alone |
| CoApproval.FoldConcat | internal/api/approvals.go:1034-1044 | one batch or two is the same: a batch is the left fold of single applications |
| CoApproval.CutRoute | internal/api/approvals.go:1057-1061 | a card's route gives its kind and id back |
| ApprovalServer.EffectJournal.Approve | internal/gates/effects.go:196-228 | approves a proposed row whose payload has not drifted, refuses every other |
| ApprovalServer.EffectJournal.Deny | internal/gates/effects.go:329-360 | a denial of a proposed row is a failed row with its marker; any other row is refused |
| ApprovalServer.Server.DeriveApprovals | internal/api/approvals.go:838-872 | the scan loop computes the co-approval state |
| ApprovalServer.Server.Approve | internal/api/approvals.go:1248-1291 | the two orders of signature and journal act |
| ApprovalServer.Server.Deny | internal/api/approvals.go:1230-1245 | the journal act first, its row after it |
| ApprovalServer.Server.AnswerEffect | internal/api/approvals.go:1150-1291 | every guard in the code's order |
| ApprovalServer.Server.AnswerAsk | internal/api/approvals.go:1080-1146 | the owner answers once, pinned, batchable only when low |
| ApprovalServer.Server.ApplyAnswer | internal/api/approvals.go:1056-1075 | the one path by kind |
| ApprovalServer.Server.AnswerBatch | internal/api/approvals.go:1006-1051 | the batch loop is the fold of single applications; an empty or oversized batch is refused outright |
| EventTail.VisibleExactly | internal/api/sse.go:58-75 | the owner scope always, and with topics a subscribed tag, the run tag for the subscribed run only |
| EventTail.RunTopicIsTheTrace | internal/api/topics.go:51-82 | the run topic is the whole trace of the subscribed run and nothing else |
| EventTail.TagsExactly | internal/api/topics.go:51-82 | which tags an event carries: its family's, the fleet's for four platform kinds, the run's if it has a run |
| EventTail.BetweenExactly | internal/api/sse.go:366-370 | the rows due between two cursors: each visible one once, ascending, no other |
| EventTail.HeadIsLast | internal/api/sse.go:349-363 | the head is the highest seq on the log |
| EventTail.Stream.WriteBatch | internal/api/sse.go:378-388 | the cursor passes every row, the client gets the visible ones; the batch breaks iff the frame of a visible row it came to breaks, and ends before that frame |
| EventTail.Stream.WriteBatches | internal/api/sse.go:371-393 | for any batch size over a growing log: exactly the visible rows between the old cursor and the new, broken iff one of their frames breaks, and the last snapshot read is drained |
| EventTail.Stream.Serve | internal/api/sse.go:162-200 | exactly-once tail of a whole connection: the frames are the visible rows up to the final cursor, or up to the row whose frame could not be written; it breaks iff the frame of a visible row it passed breaks, and else drains the last snapshot read |
| EventTail.IdRoundTrip | internal/api/sse.go:349-363 | a frame's id is read back as its seq |
| EventTail.ParsesExactly | internal/api/sse.go:349-363 | what is read as a cursor: digits after an optional sign, naming a 63-bit number that is not negative |
| EventTail.StartsAt | internal/api/sse.go:349-363 | the cursor is the Last-Event-ID's, else the after_seq's, else the head |
| EventTail.ReconnectExactly | internal/api/sse.go:343-363 | after a reconnect the two streams together are the unbroken one iff the client had received a frame, or its request named a cursor, or nothing visible was appended in between |
| Broadcast.Channel.Close | internal/api/api.go:849-854 | closed once, never twice |
| Broadcast.Trigger.Fire | internal/api/api.go:849-854 | closes the channel handed out and replaces it by a fresh open one |
| Broadcast.Trigger.Wait | internal/api/api.go:856-860 | hands out the current channel, which is open |
| Broadcast.Trigger.FireIn | internal/api/api.go:849-854 | a fire of the object is a fire of the protocol: the channels handed out before are the closed ones, each closed once |
| Broadcast.ReadIsTailRead | internal/api/sse.go:371-393 | a read of the protocol is one read of the tail: the rows passed, and whether the stream blocks |
| Broadcast.AppendKeepsPosition | internal/api/sse.go:366-370 | an append leaves the count of rows passed where it is |
| Broadcast.NoLostWakeUp | internal/api/sse.go:162-199 | in every interleaving the current channel is open, no channel is closed twice, and a stream blocked before an announced row holds a closed channel |
| Broadcast.WakesExactly | internal/api/sse.go:186-199 | a blocked stream goes on iff a fire has come since it took its channel; a poll moves it on either way |
| Broadcast.BlockedIsServed | internal/api/sse.go:162-199 | in every interleaving a stream blocked behind an announced row wakes, takes the current channel and drains past every row |
| Broadcast.OwnSteps | internal/api/sse.go:162-199 | a stream moves by its own steps alone, its cursor by its reads alone and only forward |
| Broadcast.DrainsAnnounced | internal/api/sse.go:371-393 | a drain passes every row there was when it started, in a bounded number of reads |
| Broadcast.LateWaitLosesWakeUp | internal/api/sse.go:163-164 | with the drain before the wait a wake-up can be lost |
| PinLockout.WrongPinIsLogged | internal/auth/auth.go:377-382 | a wrong PIN is checked iff its failure event is appended |
| PinLockout.OkExactly | internal/auth/auth.go:288-341 | an attempt succeeds iff the user is known, no lock is held, a PIN is set and it verifies; then the counter and the lock are gone and the proof is the one event |
| PinLockout.HeldLockLocks | internal/auth/auth.go:303-311 | under a held lock every attempt, the right PIN included, answers locked, leaves the row and adds the one event |
| PinLockout.OtherwiseFails | internal/auth/auth.go:290-391 | every other attempt fails with its own answer, event and row: unknown user, no PIN, unreadable hash, wrong PIN, the fifth locking for a quarter of an hour |
| PinLockout.SetExactly | internal/auth/auth.go:418-453 | a PIN is set iff by its owner or an operator, on a known user, with 4 to 128 characters and no control character; then that user's lockout is over and nobody else's row changes |
| PinLockout.LockoutRate | internal/auth/auth.go:42-46 | whatever went before, serialised calls within T with no success and no new PIN have at most 5 * (floor(T / 15min) + 1) wrong PINs checked, login and step-up together |
| PinLockout.RateAttained | internal/auth/auth.go:369-374 | the bound is reached for every number of lockout periods |
| PinLockout.LockSetAtCeiling | internal/auth/auth.go:364-376 | a lock is set exactly by the wrong PIN that brings the counter to the ceiling |
| PinLockout.CredentialStore.AuthenticatePIN | internal/auth/auth.go:288-341 | unknown user, held lock, expired lock, no PIN, unreadable hash, wrong and right PIN, each with its event |
| PinLockout.CredentialStore.RecordPINFailure | internal/auth/auth.go:357-391 | count, lock at the ceiling, event |
| PinLockout.CredentialStore.VerifyPIN | internal/auth/auth.go:398-409 | a proof resets the counter and the lock |
| PinLockout.CredentialStore.SetPIN | internal/auth/auth.go:418-453 | own PIN or operator reset; clears the lockout |
| Sessions.SweepingIsInvisible | internal/auth/session.go:127-160 | whatever sweeps and on-sight deletions happened, a token resolves to a user iff it was minted for that user less than 30 days ago and neither logged out nor revoked by a PIN change that did not keep it |
| Sessions.ValidatingLeavesNoTrace | internal/auth/session.go:143-158 | no later answer depends on a validation |
| Sessions.CallLeaves | internal/auth/session.go:91-175 | what each call leaves in the table, row by row |
| Sessions.ResolvesExactly | internal/auth/session.go:127-160 | a token is its row's user's while the row is there and not expired |
| Sessions.SessionStore.SweepExpired | internal/auth/session.go:181-213 | collecting, then deleting, removes exactly the expired rows |
| Sessions.SessionStore.MintSession | internal/auth/session.go:91-122 | a sweep and one new row |
| Sessions.SessionStore.ValidateToken | internal/auth/session.go:127-160 | an expired row is deleted on sight |
| Sessions.SessionStore.LogoutToken | internal/auth/session.go:163-175 | only a live session is logged out |
| Sessions.SessionStore.RevokeOnPinSet | internal/auth/auth.go:444-447 | every session of the target but the kept one |
| Decimal.ValueDec | internal/auth/pin.go:57-62 | printing a number then reading it gives it back |
| Base64.RoundTrip | internal/auth/pin.go:42 | decoding an encoding gives the bytes back, for every length |
| Base64.DecodesExactly | internal/auth/pin.go:87-93 | a text decodes iff it holds nothing but symbols and line breaks and leaves no lone symbol over |
| Base64.DecodeReencodes | internal/auth/pin.go:87-93 | what a text decodes to encodes to that text, line breaks aside and with the spare bits of its last symbol cleared |
| Base64.SymbolTable | internal/auth/pin.go:42 | the alphabet is the standard one |
| PhcString.EncodeSplits | internal/auth/pin.go:69-72 | no field of a printed credential can contain the separator |
| PhcString.ParamsScan | internal/auth/pin.go:76-86 | the parameters are recovered iff they are inside the decode ceilings |
| PhcString.ParseEncode | internal/auth/pin.go:57-93 | for every PIN, salt and parameters: parsing recovers exactly what was printed iff the parameters are inside the ceilings, else the credential is malformed |
| PhcString.ParsesExactly | internal/auth/pin.go:68-96 | what is accepted as a credential, for any text: six fields, the algorithm's name, version 19, parameters inside their ceilings, a salt and a non-empty key that decode |
| PhcString.VerifiesExactly | internal/auth/pin.go:97-98 | a PIN verifies against any accepted text iff it derives the stored key at the stored parameters and length |
| PhcString.VerifyEncode | internal/auth/pin.go:68-96 | a stored credential verifies its own PIN iff its parameters are inside the ceilings, and another PIN iff the derived keys agree |
| Notifier.LookbackChangesNothing | internal/api/notifier.go:63-67 | cutting the history at four of the longer cadence never changes a due decision |
| Notifier.EachAlone | internal/api/notifier.go:110-117 | what a pass logs for an identity is what it would log for it alone, whoever else's evaluation fails |
| Notifier.AddsAttemptsOnly | internal/api/notifier.go:110-176 | every row a pass adds is an attempt of an identity whose evaluation does not fail, at one of its devices, for a listed card it can answer and that has not expired |
| Notifier.PassExactly | internal/api/notifier.go:166-197 | a pass attempts a listed card iff it is answerable, not expired and its re-nag rule says so, and then once at each device |
| Notifier.GoneIsQuiet | internal/api/notifier.go:166-176 | a card that is off the list, not to be answered or expired from some pass on is never pushed again |
| Notifier.PushesAreLogged | internal/api/notifier.go:146-152 | a pass that pushes a card adds exactly one row per device |
| Notifier.PushesExactly | internal/api/notifier.go:166-197 | a pass pushes the card iff it is due since the latest pushing pass's last attempt |
| Notifier.RenagGuarantee | internal/api/notifier.go:199-223 | at every pass of every steady run: first push within d (safety) or from pushAfter and by pushAfter + d (approval); after a push stamped t, again exactly from t + cadence and by t + cadence + d |
| Notifier.NeverCloser | internal/api/notifier.go:212-223 | two pushing passes are never closer than the cadence |
| Notifier.RepeatedPassIsQuiet | internal/api/notifier.go:85-91 | two passes back to back push once |
| Notifier.Server.LastPushed | internal/push/send.go:452-481 | the newest attempt per card since the bound, in log order |
| Notifier.Server.NotifyOwner | internal/api/notifier.go:120-153 | every due card to every device, judged on the history at the start |
| Notifier.Server.EvaluatePush | internal/api/notifier.go:92-118 | identity after identity; one failure silences nobody and is reported |

## Left out

- AcceptCoherence.LookaheadCoherence: one direction; twins need not break coherence, because the second one's mark can still come in time. The exact condition is CoherenceExactly.
- AcceptGuards.LocalEqualsRemoteAtRest: one direction, for runs with no error after a landing; the exact condition, on the guards, is CaughtUpExactly.
- Accepter.Journal.Approve: without the payload-hash check, because no step of the accept protocol rewrites a payload; CoApproval models it.
- Accepter.Journal.BeginExecute: without the return on payload drift, for the same reason.
- Accepter.ReviewStore.Accept: without the supersession of other deliverables of the same subject, which is an environment step of the accept runs.
- CoApproval.ApprovedOnlyWhenSigned: with each answer one step; CoApprovalSteps.ApprovedOnlyWhenConjoined takes answers apart.
- PinLockout.LockoutRate: serialised calls only, because parallel guesses read the credential outside the write transaction.
- DriftFold.DismissalSticks: for a fixed horizon, because a window's opening finding can slide out of the horizon and change the card's identity.
- The journal holds accept effects only: effects of other classes and payloads that are not accepts are skipped by the re-drive and not modelled. A project stays registered, has a default-branch head, and keeps its remote during a run.
- What the sibling routing does to the project's active runs: only its failure is modelled, which makes an accept that went through answer an error. The merge card's option list, the signing internals and git's trimming of commit messages do not touch the protocol's state.
- A write transaction that commits and then reports an error: a failed write of the journal or the review store has written nothing. A push and a ref update can have moved the ref.
- One commit per deliverable is not claimed: the in-review check is not atomic with the landing, so landings are counted per effect.
- Interleaved answers to asks: the pipeline that stores an answer decides there, and is an input.
- The tier, actions and staleness read out of an ask's snapshot: the tier is given. The pipeline that stores an accepted ask answer is an input.
- Benchmark alarms, conformance and benchmark verdict cards: folds in the style of the watchdog's.
- Rows are read in log order; text comparison of timestamps in SQL is modelled on integers, and the notifier's bound is rounded down to the second.
- Snapshots at the start of a topic subscription: its tail starts at the captured head, as in the unfiltered case.
- Keepalive frames, redaction and the JSON of frames and cards.
- The credential parser does not skip blanks before a number, which the source's scanner does; a PIN's length is counted in characters.
- Sorting is a library call in the source and a function here.
- Session grants by device, user creation and role changes.
