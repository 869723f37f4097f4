# Verified model of the storage ledger emulator

The standalone examples of the storage SDK run real replicators against an emulated ledger, the
`TestEnvironment` of `examples/standalone-tests/TestEnvironment.h`. That emulator is a protocol of its
own: a queue of modifications per drive, approval by more than two thirds of a drive's members,
cumulative upload accounting, cancellation, a single verification slot, changing membership, and replay
of the ledger to replicators that start or join. This project models it, the environments derived from
it, the older single-drive ledger it replaced, and the part of a replicator that computes the opinions
the ledger checks, and proves what they promise over all runs.

Three forms of each ledger stand beside each other. The classes (`Ledger`, `OfflineLedger`,
`WithholdingLedger`, `OneIgnoredLedger`, `SingleDriveLedger`, `ModifyOpinionController`) update their
fields in place, in the loops the C++ code has. Every handler is proved to make exactly one step of a
state machine and to return whether all the assertions inside it held; an assertion that fails returns
from the handler with the earlier writes done, and the steps say so. Lemmas about runs of those state
machines, by induction on the run, are the main results.

Each call on a running replicator is a message appended to its log. `Replica` folds a log to the view
of one drive in the way `FlatDrive` handles the calls: the deferred queue with the modification being
worked on, the last approval, the expected download, the verification slot and the lists.

| file | contents |
|---|---|
| `Basics.dfy`, `Protocol.dfy` | sequences and sets; requests, opinions, messages, the record of a drive |
| `Chain.dfy` | the ledger as a state machine: events, steps, messages, runs |
| `Ledger.dfy` | the ledger object; every handler is one step |
| `Replica.dfy` | what a replicator makes of its messages |
| `Convergence.dfy`, `Membership.dfy` | replay convergence; membership lists, shards and completed modifications as members know them |
| `Effects.dfy` | what each handler leaves in the fields it writes, and who is told what |
| `Notices.dfy` | over runs: who is told of a new drive, root hashes, answers to reports, verification results |
| `History.dfy`, `Verification.dfy` | conservation, at-most-once approval, final cancellation; the verification machine |
| `Quorum.dfy`, `Tolerance.dfy` | quorum overlap and fault tolerance; the environment that drops an opinion |
| `Uploads.dfy`, `MonotoneTotals.dfy` | counters and totals that never fall; one total per modification |
| `Opinions.dfy`, `ControllerRuns.dfy`, `HonestRuns.dfy`, `Rejoin.dfy` | how opinions are computed, why they pass the ledger's checks, and when a joining replicator's do |
| `Isolation.dfy` | drives do not interfere |
| `SingleDrive.dfy`, `SingleDriveRuns.dfy`, `Simulation.dfy` | the older ledger, its own runs, and its simulation by every drive of the new one |
| `Offline.dfy`, `OfflineRuns.dfy`, `OfflineNotices.dfy` | one replicator kept behind by a queue |
| `Withheld.dfy`, `WithheldNotices.dfy` | approvals recorded first and published later |
| `Witnesses.dfy` | runs on which less holds than one might expect |

## Where the code promises less than expected

The model follows the code; each of these has its exact condition as a theorem, and those marked with a
member of `Witnesses` are reached from a freshly constructed ledger.

* A failed upload check leaves the front popped and its size added, with nothing broadcast: agreement
  survives an approval that takes the front if and only if the check passes (`FaultBreaksAgreement`,
  `Witnesses.FaultIsReached`), and the older ledger can follow such a step in two corner cases only
  (`FaultFollowedIff`).
* The upload check skips keys that vanish from a layout: it protects all counters if and only if no key
  with a positive counter vanishes (`CheckedCountersHoldIff`, `Witnesses.CounterVanishes`).
* The quorum counts opinions, not authors (`RepeatedOpinionsPass`); what needs distinct authors says so.
* What is recorded for a replicator stays when it leaves, while it deletes its own counters. Its reports
  after joining again are bound to pass, as long as others may join and leave and no assertion has failed,
  if and only if nothing positive is recorded for it (`JoinIsSafeIff`; for the first report and the shard
  told, `FirstReportPassesIff`; `Witnesses.RejoinFails`). An opinion from before it left that is approved
  afterwards undoes this unless its total is zero (`OldOpinionIsSafeIff`, `CountingFromNothingCanFail`).
* The ledger accepts modifications of size zero, but a controller's assertion holds if and only if
  something of positive size was approved or is about to be (`CalculationsAreDefined`,
  `ZeroSizeStopsCalculation`).
* Replicators drop a verification when any approval is published (`FlatDrive.cpp` line 611), and one that
  joins is not told of it, while the ledger keeps its slot: members agree on a pending verification if
  and only if both or neither are in `Listening` (`MembersAgree`, `Witnesses.VerificationsDiffer`).
* A cancellation is listed as completed even if nothing with its hash was pending, and an approval is
  never listed (`CompletedAreCancellations`). The ledger of the offline environments lists nothing and
  expects no download (`LedgerListsNothing`): on the cumulative size its members agree with it if and
  only if nothing of positive size was popped (`OnlineSizeAgreesIff`, `DrainedSizeAgreesIff`). Its
  inherited verification handlers do not use the queue: they keep the order of all broadcasts if and only
  if nothing about the drive is queued (`OrderKeptIff`).
* A member is told of the completed modifications when it is told of the drive and never again
  (`CompletedAsTold`). The older ledger answers a single report before its assertions, so also one that fails
  them (`SingleReportsAreAnswered`), and the offline ledgers count anybody's, member or not (`SinglePosted`).
* A withheld approval is lost if another one is popped while it is held (`LosslessIff`,
  `Witnesses.ApprovalIsLost`), and a member that starts meanwhile is told of it (`StartRevealsHeld`).
* Leaving and rejoining restores a drive's lists if and only if the replicator was the last
  (`LeaveThenJoinRestoresIff`).
* A replicator erases only the first entry with a cancelled hash, the ledger all of them: the same if and
  only if at most one entry has it (`EraseFirstIsEraseAllIff`).

## What runs are assumed to satisfy

Each theorem names its own assumptions. `DefinedRun` holds what the code takes for granted of its
callers: lists without repetitions, joining only by non-members, all members running when a pending
verification is cancelled, a first opinion and a last approval behind a single report, a running
reporter. `FreshModifications`, `FreshVerifications` and `FreshDrives` say that transaction hashes and
drive keys are not reused. `CleanRun` says that no assertion fails, `NoUploadFaults` only that no upload
check of an approval fails, `DisciplinedRun` that layouts have distinct keys and keep every key with a
positive counter in their author's previous layout. For reports made of the controllers' opinions,
`HonestRuns` proves when no assertion fails and layouts are disciplined instead of assuming it: its
`AllPass` says that no report has failed so far, `SafeJoins` that no replicator joins with a positive
counter recorded. An update may take any shard where a report is shown to pass; where one is shown to
fail it takes the donator shard its replicator was told (`IsTold`, which `MembersKnow` shows to be what
the replicator knows).

## Model

| member | source | states |
|---|---|---|
| `Convergence.ReplayConvergence` | examples/standalone-tests/TestEnvironment.h:183-197 | For every orderly run, every drive and every running replicator: the fold of the replicator's message log since its last start is the ledger's queue, last approval, cumulative size and lists if it is a member, whether it was there from the start, joined or restarted, and nothing if it is not; the verification slot too, exactly if it is in `Listening` |
| `Convergence.MembersAgree` | examples/standalone-tests/TestEnvironment.h:299-308 | Two running members agree on queue, last approval, cumulative size and list; on the verification exactly when none is pending or both or neither are listening |
| `Convergence.FaultBreaksAgreement` | examples/standalone-tests/TestEnvironment.h:722-744 | An approval that takes the front keeps a running member in agreement if and only if its upload check passes, since the pop is not undone and nothing is broadcast after a failed check |
| `Witnesses.FaultIsReached` | examples/standalone-tests/TestEnvironment.h:739 | A run from a fresh ledger after which an approval of the front fails the upload check, after the pop |
| `Witnesses.VerificationsDiffer` | examples/standalone-tests/TestEnvironment.h:264-270 | An orderly run from a fresh ledger after which two members differ on the pending verification |
| `Convergence.StartMirrored` | examples/standalone-tests/TestEnvironment.h:183-197 | Whatever the well-formed ledger state, a replicator that starts gets a log whose fold is the recorded state of each of its drives, the pending verification included |
| `Convergence.ReceiveReplayDrives` | examples/standalone-tests/TestEnvironment.h:183-197 | Of the replay over all drives only the drive's own part changes the view of that drive |
| `Convergence.ReceiveReplay` | examples/standalone-tests/TestEnvironment.h:264-270 | From nothing, the replay of one drive folds to the queue, last approval, cumulative size and lists it was made from, with the verification only if the replay includes it |
| `Convergence.MembershipMirrored` | examples/standalone-tests/TestEnvironment.h:232-297 | Joining and leaving keep every replicator's fold equal to the record, up to its own key in the shards |
| `Convergence.ModifyMirrored` | examples/standalone-tests/TestEnvironment.h:299-308 | A modification keeps every replicator's fold equal to the record |
| `Convergence.CancelMirrored` | examples/standalone-tests/TestEnvironment.h:572-586 | So does a cancellation, when queued hashes are distinct: erasing the first match then suffices for the ledger's erasing of all |
| `Convergence.ApprovalMirrored` | examples/standalone-tests/TestEnvironment.h:748-753 | So does the outcome of an approval report, rejected or not: catching up pops exactly the front and ends listening |
| `Convergence.VerificationMirrored` | examples/standalone-tests/TestEnvironment.h:588-614 | Start, cancel and result messages keep the fold's verification slot equal to the record's for listening members |
| `Notices.ApprovalReachesMembers` | examples/standalone-tests/TestEnvironment.h:745-753 | In every reachable state, after a report of the front with enough members' opinions whose counters do not fall: every running member's last approval has the reported root hash, which is the one recorded for the hash, and its i-th key is the i-th opinion's author |
| `Notices.ToldRootsAreRecorded` | examples/standalone-tests/TestEnvironment.h:745-753 | With fresh hashes, in every reachable state: every approval in any running replicator's log, broadcast or replayed, carries the root hash recorded for its hash, and so does every drive's last approval |
| `Notices.NoticesAreDue` | examples/standalone-tests/TestEnvironment.h:776-840 | In every reachable state the rejections, single-approval answers and verification results in a running replicator's log since its start are, in order, exactly the rejections of its own reports, its own single opinions that count, and every first awaited result |
| `Notices.ToldResultsAreRecorded` | examples/standalone-tests/TestEnvironment.h:648-654 | Every verification result a replicator was told of is, in all its fields, the one recorded for its transaction, and is told once |
| `Notices.NewDriveIsKnown` | examples/standalone-tests/TestEnvironment.h:217-230 | In every reachable state, after an addition without a list every running replicator of the environment, with a list exactly the listed ones, holds a view with the size, client and lists asked for, nothing queued, and nobody else any |
| `Notices.StartTellsInOrder` | examples/standalone-tests/TestEnvironment.h:183-186 | A replicator that starts is told of exactly the drives it is a member of, once each, in ascending key order |
| `Membership.CompletedAsTold` | examples/standalone-tests/TestEnvironment.h:572-576 | In every reachable state a running member holds of the completed modifications exactly those listed when it was told of the drive last, by its addition, by joining or by starting, and none listed later |
| `Convergence.OtherDriveUntouched` | examples/standalone-tests/TestEnvironment.h:299-308 | No message caused by another drive's event changes the view of this drive, nor does the event change its record |
| `Effects.AdditionRecorded` | examples/standalone-tests/TestEnvironment.h:217-230 | Without a list the members and both shards are the environment's replicators, with one exactly the listed ones; size, client and an otherwise empty record; each running member, and nobody else, is told the whole request once |
| `Effects.SameAddition` | examples/modifyDriveFlat5/TestEnvironment.h:183-191 | For an addition without a list the whole request, size, client and three lists, is the one the older ledger records |
| `Effects.PrematureReport` | examples/standalone-tests/TestEnvironment.h:693 | A report that is not about the front records nothing, tells nobody anything and fails no assertion |
| `Effects.RejectedReport` | examples/standalone-tests/TestEnvironment.h:695-710 | A report of the front with a stranger's opinion, or with at most two thirds as many opinions as members, changes no record, fails no assertion, and one rejection goes to the reporter alone, before any upload check |
| `Effects.AcceptedReport` | examples/standalone-tests/TestEnvironment.h:722-766 | With enough members' opinions whose counters do not fall: the front is popped and its size added, the last layouts, the approval, its root hash and the opinions' totals are recorded, each running member and nobody else is told once with the root hash and the authors, and an assertion fails exactly if the modification's totals are not one |
| `Effects.FailedReport` | examples/standalone-tests/TestEnvironment.h:722-744 | With a falling counter an assertion fails: the front is gone, its size and the layouts before the failure are recorded, but neither approval nor root hash nor total, and nobody is told |
| `Effects.IgnoredSingle` | examples/standalone-tests/TestEnvironment.h:774-781 | A single report whose first author is not a member, or that is not about the last approval, leaves records, totals, root hashes and all logs as they were and fails no assertion |
| `Effects.CountedSingle` | examples/standalone-tests/TestEnvironment.h:786-840 | A member's one admissible opinion about the last approval is recorded with its total; if that is the modification's only total the reporter alone is answered, once, else an assertion fails and nobody is |
| `Effects.FailedSingle` | examples/standalone-tests/TestEnvironment.h:787-806 | With a falling counter or with several opinions an assertion fails, after the layouts up to the failure are recorded: no total is recorded and nobody is answered |
| `Effects.ModificationRequested` | examples/standalone-tests/TestEnvironment.h:299-308 | Queued last, nothing else recorded; told to each running member once and to nobody else |
| `Effects.CancellationRequested` | examples/standalone-tests/TestEnvironment.h:572-586 | Exactly the entries with another hash stay queued, one entry is listed, nothing else is recorded; told to each running member once and to nobody else |
| `Effects.UnknownDriveIsEmpty` | examples/standalone-tests/TestEnvironment.h:301 | A drive that no handler has mentioned is created empty, with the modification queued |
| `Effects.ReplayMessages` | examples/standalone-tests/TestEnvironment.h:186-195 | The replay of a drive, message by message: the whole request, the last approval with its root hash and authors, the pending verification unless left out, the queue in order |
| `Effects.JoiningTold` | examples/standalone-tests/TestEnvironment.h:232-273 | Whoever joins is told of the drive with its own key left out of the shards and without a pending verification, the other running members of the lists, and nobody else of anything |
| `Effects.LeavingTold` | examples/standalone-tests/TestEnvironment.h:275-297 | Whoever leaves is told so, the remaining running members of the lists, and nobody else of anything |
| `Effects.MembershipKeepsTheRest` | examples/standalone-tests/TestEnvironment.h:232-297 | Joining and leaving change nothing of a record but its three lists |
| `Effects.StartedOrStopped` | examples/standalone-tests/TestEnvironment.h:149-207 | Starting and stopping record nothing and tell nobody else; a replicator that runs already is not told anything again |
| `Effects.VerificationRequested` | examples/standalone-tests/TestEnvironment.h:588-599 | An assertion fails, and nothing is changed or told, exactly if the slot is taken; else the request fills it and each running member is told once |
| `Effects.VerificationCancelled` | examples/standalone-tests/TestEnvironment.h:601-614 | Only the pending verification's own transaction empties the slot, and each member is then told once |
| `Effects.ResultReported` | examples/standalone-tests/TestEnvironment.h:640-655 | An awaited result empties the slot; a transaction's first is recorded with all its fields and told once to every running replicator, member or not; any other changes nothing more |
| `Convergence.CatchUpFront` | src/drive/FlatDrive.cpp:447-462 | When the approved modification is the first queued one, the replicator drops exactly it and adds exactly its size |
| `Replica.ApprovalsMayBeSkipped` | src/drive/FlatDrive.cpp:447-462 | Catching up on one approval and then on one queued behind it leaves what catching up on the later one alone leaves: queue, expected download and all |
| `Replica.CaughtUp` | src/drive/FlatDrive.cpp:447-462 | Wherever the approved modification stands in the queue, it leaves with all before it and none after, and exactly the sizes of those that leave are added; if it is not queued nothing leaves |
| `Replica.EraseFirstIsEraseAllIff` | src/drive/FlatDrive.cpp:688-697 | The replicator's erasing of the first match equals the ledger's erasing of all matches if and only if at most one entry has the hash |
| `Replica.IndexOfHash` | src/drive/FlatDrive.cpp:688-690 | The index is of the first queued modification with the hash, or the queue's length if there is none |
| `Replica.ReceiveAllForeign` | src/drive/FlatDrive.cpp:660-677 | Messages about other drives leave the view alone |
| `History.Conservation` | examples/standalone-tests/TestEnvironment.h:299-308 | With fresh hashes, in every reachable state of every drive: approved followed by pending is, as a sequence, what was submitted without what was cancelled while pending |
| `History.CumulativeAccounting` | examples/standalone-tests/TestEnvironment.h:722 | In every run whatsoever the drive's cumulative download size is the sum of the maximal sizes of exactly its approved modifications |
| `History.ApprovedAtMostOnce` | examples/standalone-tests/TestEnvironment.h:691-768 | For any interleaving and repetition of reports, no hash is popped twice from a drive and none is broadcast twice on any |
| `History.RootHashIsFinal` | examples/standalone-tests/TestEnvironment.h:747 | A recorded root hash keeps its value in every continuation |
| `History.RootsAreSettled` | examples/standalone-tests/TestEnvironment.h:746-753 | The hashes with a root hash are exactly the broadcast ones; each was submitted and is pending on no drive |
| `History.CancellationIsFinal` | examples/standalone-tests/TestEnvironment.h:572-586 | A hash cancelled while pending and not submitted again has no root hash, is never broadcast as approved, never popped and never pending, on any drive, in any continuation |
| `History.NotPendingNeverApproved` | examples/standalone-tests/TestEnvironment.h:693 | A hash pending nowhere and not submitted again is never approved, from any state |
| `History.PendingIsFresh` | examples/standalone-tests/TestEnvironment.h:301 | Queued hashes are distinct and each was submitted to that drive |
| `History.PendingOnce` | examples/standalone-tests/TestEnvironment.h:301 | No hash is pending on two drives |
| `History.CancelledWereSubmitted` | examples/standalone-tests/TestEnvironment.h:577-579 | Whatever was cancelled while pending had been submitted to that drive |
| `History.CompletedAreCancellations` | examples/standalone-tests/TestEnvironment.h:575 | The completed list is, in order, one CANCELLED entry for each cancellation since the drive was added, pending or not, and nothing else; an approved modification is never listed |
| `History.QueueStep` | examples/standalone-tests/TestEnvironment.h:299-308 | Which events change a drive's queue, and how: reset, push at the back, erase by hash, pop of the matching front; all others leave it |
| `Verification.ResultsAreFinal` | examples/standalone-tests/TestEnvironment.h:648-649 | A recorded verification result is never overwritten and never broadcast again, whatever follows |
| `Verification.ResultsBroadcastOnce` | examples/standalone-tests/TestEnvironment.h:648-654 | No result is broadcast twice, and the recorded results are exactly the broadcast ones |
| `Verification.PendingVerificationIsFresh` | examples/standalone-tests/TestEnvironment.h:588-599 | With fresh transactions a pending verification was started on that drive, has no result and is pending on no other drive |
| `Verification.CancelledVerificationIsFinal` | examples/standalone-tests/TestEnvironment.h:601-614 | A verification cancelled while pending and not started again is never recorded and never broadcast |
| `Verification.NotPendingNeverVerified` | examples/standalone-tests/TestEnvironment.h:644-646 | From any state: a transaction without a result that is pending nowhere and not started again gets no result |
| `Verification.SlotStep` | examples/standalone-tests/TestEnvironment.h:588-657 | Which events change a drive's one verification slot, and how |
| `Quorum.FaultTolerance` | examples/standalone-tests/TestEnvironment.h:705 | The integer test rejects exactly 3*size <= 2*n; the opinions of all but f of n members pass exactly when n > 3f |
| `Quorum.Needed` | examples/standalone-tests/TestEnvironment.h:705 | Exactly the numbers from this one on pass the test |
| `Quorum.QuorumsShareAThird` | examples/standalone-tests/TestEnvironment.h:695-710 | Two accepted sets over the same members share more than a third of them |
| `Quorum.QuorumsMeetIff` | examples/standalone-tests/TestEnvironment.h:695-710 | Under any change of non-empty member lists: all accepted sets before and after share a member if and only if the two least quorums together exceed the union of the lists |
| `Quorum.DisjointQuorums` | examples/standalone-tests/TestEnvironment.h:705 | When they do not, two accepted sets without a common member are constructed |
| `Quorum.QuorumsMeetAfterOneChange` | examples/standalone-tests/TestEnvironment.h:232-239 | After one replicator was added or removed, accepted sets before and after still share a member |
| `Quorum.ApprovalIsSupported` | examples/standalone-tests/TestEnvironment.h:696-710 | The authors of an accepted approval, if distinct, are an accepted set of members |
| `Quorum.RepeatedOpinionsPass` | examples/standalone-tests/TestEnvironment.h:696-710 | Opinions are counted, not authors: one member's repeated opinion passes both tests on every drive, and its author alone is an accepted set exactly when it is the only member |
| `Quorum.DroppingOneIsSafeIff` | examples/standalone-tests/testApprovalReceivedRootCalculated.cpp:59-63 | Of one opinion about the front from each replicator the last can be dropped without a rejection if and only if the others are members' and more than two thirds as many as the drive's members; when all replicators are members, if and only if there are at least four |
| `Quorum.OneFewerIsPassedOn` | examples/standalone-tests/testApprovalReceivedRootCalculated.cpp:59-62 | The override passes on one opinion fewer than there are replicators exactly if it gets a full set or one that misses one already, and then the first ones in order |
| `MonotoneTotals.TotalsNeverFallWithOneChange` | examples/standalone-tests/TestEnvironment.h:755-766 | Over runs with no failed assertion, distinct opinion authors, layouts that keep every key with a positive counter and at most one membership change between consecutive approvals, the common total of each approval is at least that of every earlier one |
| `MonotoneTotals.UploadTotalsNeverFall` | examples/standalone-tests/TestEnvironment.h:727-744 | The same under any membership change after which quorums are bound to meet |
| `MonotoneTotals.ApprovalSettles` | examples/standalone-tests/TestEnvironment.h:755-766 | After an approval its authors are an accepted set, and each one's recorded layout has the approval's total |
| `MonotoneTotals.BetweenApprovals` | examples/standalone-tests/TestEnvironment.h:787-835 | Any event but the drive's next approval keeps that: single approvals in between, rejections and membership changes included |
| `MonotoneTotals.NextTotalIsAtLeast` | examples/standalone-tests/TestEnvironment.h:727-744 | The next approval's total is at least the settled one, through a member of both quorums |
| `MonotoneTotals.OneChangeMeets` | examples/standalone-tests/TestEnvironment.h:232-239 | One change between non-empty lists satisfies the meeting condition |
| `Uploads.CountersNeverFall` | examples/standalone-tests/TestEnvironment.h:787-804 | Over runs with no failed assertion in which no key with a positive counter leaves a layout, every (author, key) counter and every author's total is non-decreasing between any two moments, across quorum and single approvals |
| `Uploads.CheckedCountersHoldIff` | examples/standalone-tests/TestEnvironment.h:731-741 | The upload check alone does not ensure it: after a passed check no counter has fallen if and only if every key with a positive counter is still in the layout |
| `Witnesses.CounterVanishes` | examples/standalone-tests/TestEnvironment.h:732-743 | A run from a fresh ledger in which an accepted approval drops a key and its counter falls from ten to nothing |
| `Uploads.CheckedLayoutGrows` | examples/standalone-tests/TestEnvironment.h:727-744 | A passed check on a layout that keeps the keys with a positive counter means that no counter and no total fell |
| `Uploads.TotalGrows` | examples/standalone-tests/TestEnvironment.h:755-764 | Larger counters for all known keys give a larger total, in whatever order the layouts list them |
| `Uploads.RecordGrows` | examples/standalone-tests/TestEnvironment.h:727-744 | Recording a list of opinions, an author possibly more than once, lets no recorded layout fall |
| `Uploads.RecordKeepsOpinions` | examples/standalone-tests/TestEnvironment.h:743 | After recording, each author's layout is one of its opinions and all others are untouched |
| `Uploads.RecordStops` | examples/standalone-tests/TestEnvironment.h:727-744 | The recording loop passes if and only if every opinion does when those before it are recorded; what is recorded is, for each replicator, its last layout before the first failure, or what was there |
| `Uploads.AdmissibleIff` | examples/standalone-tests/TestEnvironment.h:732-741 | An opinion is admissible if and only if no entry is below the first recorded entry with its key |
| `Uploads.UploadsStep` | examples/standalone-tests/TestEnvironment.h:727-744 | Only an approval that takes the front and a current single approval change a drive's uploads, and only by recording their opinions |
| `Uploads.LayoutsStayDistinct` | examples/standalone-tests/TestEnvironment.h:743 | Recorded layouts keep distinct keys |
| `Uploads.OneTotalPerModification` | examples/standalone-tests/TestEnvironment.h:817-835 | Over runs with no failed assertion all opinions ever recorded for a hash, quorum or single, have one and the same total, which is what the set holds |
| `Membership.ListsAgree` | examples/standalone-tests/TestEnvironment.h:223 | In every reachable state the full list and both shards of a drive are one duplicate-free sequence |
| `Membership.JoinThenLeave` | examples/standalone-tests/TestEnvironment.h:232-282 | A replicator that joins and leaves again leaves the drive's record as it was |
| `Membership.LeaveThenJoinRestoresIff` | examples/standalone-tests/TestEnvironment.h:275-282 | A member that leaves and joins again restores the record if and only if it was the last of the list |
| `Membership.MembersKnow` | examples/standalone-tests/TestEnvironment.h:183-289 | In every reachable state, failed upload checks and reused transaction hashes included, a running replicator knows the drive exactly if it is a member, with the full list and, for each shard, that list with or without itself |
| `Membership.ShardsAfterJoin` | examples/standalone-tests/TestEnvironment.h:241-262 | After a join in any such state every running member, the new one too, knows the full list, and both shards as that list without itself; the others know nothing |
| `Membership.ShardsAfterLeave` | examples/standalone-tests/TestEnvironment.h:284-296 | After a leave in any such state the running members that remain know the full list for both shards, themselves included; the one that left and all others know nothing |
| `Isolation.DriveIsolated` | examples/standalone-tests/TestEnvironment.h:69-73 | A drive's record after any interleaving is its record after its own events alone |
| `Isolation.EntriesIsolated` | examples/standalone-tests/TestEnvironment.h:69-73 | So are the shared maps' entries for any hash that no other drive uses |
| `Isolation.ViewsIsolated` | examples/standalone-tests/TestEnvironment.h:224-229 | So is every running replicator's view of the drive |
| `Simulation.ForwardSimulation` | examples/modifyDriveFlat5/TestEnvironment.h:193-362 | Every drive of the new ledger simulates the old one over whole runs: each accepted step is a defined step of the old ledger and they keep the same queue, last approval, cumulative size, and root hashes and size sets for the drive's hashes; rejected approvals, membership and verification stutter |
| `Simulation.RecordSimulated` | examples/modifyDriveFlat5/TestEnvironment.h:293-314 | One event is matched by at most one old step, which is defined and leaves the same record |
| `Simulation.EntryMatched` | examples/modifyDriveFlat5/TestEnvironment.h:313-332 | A matched event writes the same root hash and the same set of sizes in both ledgers |
| `SingleDriveRuns.SingleConvergence` | examples/modifyDriveFlat5/TestEnvironment.h:127-202 | In every reachable state of the older ledger with fresh hashes: the fold of each running replicator's log since its start, however late, is the recorded queue, last approval with root hash and authors, cumulative size, size, client and lists, and nothing before the drive is added |
| `SingleDriveRuns.SingleReportsAreAnswered` | examples/modifyDriveFlat5/TestEnvironment.h:338-349 | In every reachable state the answers in a replicator's log since its start are, in order, those to its own reports about the last approval, including those that then fail an assertion |
| `SingleDriveRuns.SingleTotalsAreReported` | examples/modifyDriveFlat5/TestEnvironment.h:322-360 | In every reachable state the recorded totals are exactly those of the approvals that took the front and of lone single opinions on the last approval, agreeing or not |
| `SingleDriveRuns.StartReflected` | examples/modifyDriveFlat5/TestEnvironment.h:163-171 | A replicator that starts makes of its replay exactly the recorded drive |
| `Simulation.EntryUnmatched` | examples/standalone-tests/TestEnvironment.h:691-710 | An event that is not matched writes neither for the drive's hashes |
| `Simulation.FaultFollowedIff` | examples/standalone-tests/TestEnvironment.h:722-744 | After a failed upload check some single step of the old ledger leaves the same record if and only if the front's hash was also the last approved one, or the front has size zero and no other queued modification its hash |
| `OfflineRuns.DeliveredThenQueued` | examples/standalone-tests/testOfflineReplicatorThreeModifications.cpp:53-92 | For a drive whose addition names both or neither: the modifications, cancellations, approvals and the addition delivered to the last replicator, followed by those queued for it, are, in order, those any online replicator received, at every moment of every run; the same holds of all broadcasts if no verification is announced while something about the drive is queued |
| `OfflineRuns.OrderKeptIff` | examples/standalone-tests/TestEnvironment.h:588-657 | A broadcast about a verification, which the inherited handlers make at once, keeps the order of all broadcasts if and only if nothing about its drive is queued |
| `OfflineRuns.CatchesUp` | examples/standalone-tests/testOfflineReplicatorThreeModifications.cpp:131-145 | Hence the last replicator's view becomes each online one's by receiving its queue, and is the same when the queue is empty: in all but the verification slot, and in that too if no verification overtakes the queue |
| `OfflineRuns.OnlineConvergence` | examples/standalone-tests/testOfflineReplicatorThreeModifications.cpp:131-139 | For any drive whose key is new when it is added: every online replicator's fold gives the ledger's own queue and last approval if it is a member, with the sum of the sizes popped since the addition as cumulative download, and nothing if it is not |
| `OfflineRuns.LedgerListsNothing` | examples/standalone-tests/testOfflineReplicatorCancelModification.cpp:79-147 | In every state this ledger's cumulative size is zero and its completed list empty: its overrides never add a popped size and never list a cancellation |
| `OfflineRuns.OnlineSizeAgreesIff` | examples/standalone-tests/testOfflineReplicatorThreeModifications.cpp:131-139 | For any such drive an online member and the ledger agree on the cumulative size if and only if nothing of positive size was popped since the drive was added |
| `OfflineRuns.DrainedSizeAgreesIff` | examples/standalone-tests/testOfflineReplicatorThreeModifications.cpp:53-59 | For a drive whose addition names both or neither, so do the last replicator and the ledger in any state in which its queue is drained |
| `OfflineRuns.ApprovalSeen` | src/drive/FlatDrive.cpp:456-461 | An approval of the front makes a replicator add the popped size, whether or not the ledger does |
| `OfflineRuns.StaysBehind` | examples/standalone-tests/testOfflineReplicatorThreeModifications.cpp:61-92 | Every single handler and every delivery keeps delivered-then-queued equal to the online log, of the deferred kinds always and of all kinds unless a verification overtakes the queue |
| `OfflineRuns.OfflinePendingIsFresh` | examples/standalone-tests/testOfflineReplicatorThreeModifications.cpp:64 | Queued hashes are distinct and submitted to that drive |
| `OfflineRuns.OfflineRootsAreSettled` | examples/standalone-tests/testOfflineReplicatorThreeModifications.cpp:131-145 | A hash with a root was submitted and is pending nowhere; one without was announced to nobody and is announced in no queued message |
| `OfflineRuns.OfflineCancellationIsFinal` | examples/standalone-tests/testOfflineReplicatorCancelModification.cpp:79-109 | Cancelled while pending and not submitted again: no root hash, and neither any log nor the deferred queue ever announces its approval |
| `OfflineRuns.StaysUnapproved` | examples/standalone-tests/testOfflineReplicatorCancelModification.cpp:99-153 | From any such state this persists in every continuation |
| `OfflineRuns.FilteredNeverApproved` | examples/standalone-tests/testOfflineReplicatorCancelModification.cpp:104-107 | The filtered hash is never approved or announced, even while it is pending |
| `OfflineNotices.AnswersAreEarned` | examples/standalone-tests/testOfflineReplicatorThreeModifications.cpp:149-187 | In every state: the answers in an online replicator's log are, in order, exactly those to its own single opinions that count; for the last replicator, those delivered followed by those still queued are |
| `OfflineNotices.OfflineRootsAreRecorded` | examples/standalone-tests/testOfflineReplicatorThreeModifications.cpp:96-147 | With fresh hashes every approval told at once or waiting in the queue carries the root hash recorded for its hash, and so does every drive's last approval |
| `OfflineNotices.OfflineOneTotal` | examples/standalone-tests/testOfflineReplicatorThreeModifications.cpp:96-175 | In every state the totals recorded for a modification are exactly those of its heeded reports and of single opinions on the last approval; while no assertion fails they are one |
| `OfflineNotices.ReportPosted` | examples/standalone-tests/testOfflineReplicatorCancelModification.cpp:99-155 | A report of the front that is not filtered records its totals and, if they are one, pops the front whoever opined; the report becomes the last approval with its root hash, the cumulative size stays, all others are told and the last one's call is posted; if not, an assertion fails and no more is changed |
| `OfflineNotices.SinglePosted` | examples/standalone-tests/testOfflineReplicatorThreeModifications.cpp:149-187 | A single report changes no drive; its total is recorded if it is about the last approval and alone, and if that is the only total its reporter alone is answered, at once or, if it is the last replicator, through the queue |
| `OfflineNotices.SinglePasses` | examples/standalone-tests/testOfflineReplicatorThreeModifications.cpp:159-173 | An assertion fails exactly if the report is about the last approval and is not answered |
| `OfflineNotices.RequestPosted` | examples/standalone-tests/testOfflineReplicatorThreeModifications.cpp:61-94 | A modification or cancellation changes only its drive's queue, and is told to all other replicators and posted for the last, members or not |
| `Withheld.PublishedFromPopped` | examples/standalone-tests/testThreeModificationsAvoidSingleApproval.cpp:50-69 | Published approvals are a subsequence of the popped ones, no position twice; what is held is the last popped one and unpublished |
| `Withheld.PoppedPublishedOrOverwritten` | examples/standalone-tests/testThreeModificationsAvoidSingleApproval.cpp:58 | Each popped approval is published, held, or was overwritten by the next one popped while it was held |
| `Withheld.LosslessIff` | examples/standalone-tests/testThreeModificationsAvoidSingleApproval.cpp:58 | Published is popped, or popped without the held last one, if and only if none was popped while another was held |
| `Withheld.PublishedOnce` | examples/standalone-tests/testThreeModificationsAvoidSingleApproval.cpp:71-96 | With fresh hashes no modification is published as approved twice |
| `Withheld.PoppedOnce` | examples/standalone-tests/testThreeModificationsAvoidSingleApproval.cpp:54-61 | With fresh hashes none is popped twice, and what was popped was submitted and is pending nowhere |
| `Witnesses.ApprovalIsLost` | examples/standalone-tests/testThreeModificationsAvoidSingleApproval.cpp:54-69 | A run from a fresh ledger in which the first of two approvals is overwritten and never published |
| `Withheld.HeldIsRecorded` | examples/standalone-tests/testThreeModificationsAvoidSingleApproval.cpp:57-63 | A held approval equals what its drive records as the last approval |
| `Withheld.HeardIsPublished` | examples/standalone-tests/testThreeModificationsAvoidSingleApproval.cpp:87-96 | While nobody starts, stops or joins, every running replicator hears exactly the published approvals in order |
| `Withheld.StartRevealsHeld` | examples/standalone-tests/TestEnvironment.h:187-189 | A member that starts while an approval is held is told of it although it is unpublished |
| `WithheldNotices.ReportWithheld` | examples/standalone-tests/testThreeModificationsAvoidSingleApproval.cpp:49-69 | A report of the front pops it whoever opined, with size, approval and root hash recorded; it goes public with its totals at once if its transaction is the first forbidden one, and else is held, with nobody told and no total recorded |
| `WithheldNotices.ReportPasses` | examples/standalone-tests/testThreeModificationsAvoidSingleApproval.cpp:49-112 | An assertion fails exactly if an approval goes public whose modification then has not one total |
| `WithheldNotices.SingleReleases` | examples/standalone-tests/testThreeModificationsAvoidSingleApproval.cpp:114-131 | A single report of a forbidden transaction makes whatever is held public, to every running replicator, with the held approval's own totals; an assertion fails if nothing is held |
| `WithheldNotices.WithheldAccounting` | examples/standalone-tests/testThreeModificationsAvoidSingleApproval.cpp:60-61 | In every run a drive's cumulative size is the sum of the sizes of all its popped modifications, held and lost approvals included |
| `WithheldNotices.WithheldRoots` | examples/standalone-tests/testThreeModificationsAvoidSingleApproval.cpp:62-63 | With fresh hashes the recorded root hashes are exactly those of the popped approvals |
| `WithheldNotices.WithheldTotals` | examples/standalone-tests/testThreeModificationsAvoidSingleApproval.cpp:71-112 | In every run the recorded totals are those of the published approvals and of the counted single opinions: a held or lost approval leaves none |
| `Opinions.UpdateIsUnique` | src/drive/ModifyOpinionController.h:99-156 | What is promised of an update of the accounts determines them completely |
| `Opinions.ExactTrafficIsCredited` | src/drive/ModifyOpinionController.h:106-156 | When the traffic from the shard and the client adds up to what is to be accounted for, every counter of theirs, the client's too, grows by exactly its own traffic |
| `Opinions.UpdateCredits` | src/drive/ModifyOpinionController.h:106-158 | For any traffic: the counter of each replicator of the shard grows by its rounded-down share of its own traffic, the client's by at least its part, all others stay, and all together make the expected download |
| `Opinions.CurrentIsTraffic` | src/drive/ModifyOpinionController.h:108-129 | What is to be scaled is, for each key of the shard and the client and no other, the traffic from it, and its sum is all their traffic, each key counted once |
| `Opinions.LayoutAscends` | src/drive/ModifyOpinionController.h:181-184 | An opinion lists its counters in strictly ascending key order |
| `ControllerRuns.NothingApprovedIsTakenBack` | src/drive/ModifyOpinionController.h:92-231 | Over every sequence of operations of a new controller: the expected download and each approved counter never fall, and the approved counters together never exceed the expected download |
| `ControllerRuns.DisapprovalUndoesUpdates` | src/drive/ModifyOpinionController.h:223-231 | A disapproval undoes exactly the updates since the last approval, and no increase of the expected download |
| `Opinions.AddingUpdates` | src/drive/ModifyOpinionController.h:145-156 | Adding normalized uploads is such an update: counters only grow and together make exactly the expected download |
| `Opinions.ClientGetsItsShare` | src/drive/ModifyOpinionController.h:283-285 | The client, which gets what rounding leaves, never gets less than its proportional share |
| `Opinions.SharesFit` | src/drive/ModifyOpinionController.h:283 | The assertion before the client's entry holds: the rounded shares of the others never exceed the target |
| `Opinions.SharesTogether` | src/drive/ModifyOpinionController.h:275-282 | Rounded-down shares together never exceed the share of the whole |
| `Opinions.LayoutEntries` | src/drive/ModifyOpinionController.h:181-184 | The opinion lists each counter once, nothing else, and its total is the sum of the counters |
| `Opinions.DominatedLayouts` | src/drive/ModifyOpinionController.h:181-184 | Layouts of counters that only grew keep their keys and pass the ledger's upload check |
| `Opinions.SumAdded` | src/drive/ModifyOpinionController.h:149-156 | Adding counters key by key adds their sums |
| `HonestRuns.HonestRunPassesIff` | examples/standalone-tests/TestEnvironment.h:727-766 | In every state of a run in which opinions come from the controllers, whoever joined or left, and in which no assertion has failed: the drive's next report, quorum or single, fails none if and only if no recorded counter of an author exceeds the one in the opinion to be recorded |
| `HonestRuns.HonestRunsPass` | examples/standalone-tests/TestEnvironment.h:739-766 | If moreover nobody has joined with a positive counter recorded, the next report fails none, and layouts it records keep every key with a positive counter |
| `HonestRuns.SafeRunsPass` | examples/standalone-tests/TestEnvironment.h:739-766 | No report of such a run fails an assertion, and what is recorded for each member stays below its controller's approved counters |
| `HonestRuns.HonestTotalIsCumulative` | examples/standalone-tests/TestEnvironment.h:722 | The one total recorded for the last approved modification is the drive's cumulative download size |
| `HonestRuns.CalculationsAreDefined` | src/drive/ModifyOpinionController.h:141-143 | The controller's own two assertions hold, when an honest replicator is to update, if and only if something of positive size was approved or is about to be |
| `HonestRuns.ZeroSizeStopsCalculation` | src/drive/ModifyOpinionController.h:141 | An input on which they do not: a first modification of size zero, accepted by the ledger |
| `HonestRuns.ApprovalsAreDefined` | src/drive/ModifyOpinionController.h:191 | The assertion in the approval of a controller's uploads holds whenever an honest run that passed so far reaches it: the uploads are kept under the hash that is approved |
| `HonestRuns.ApprovalIsHeard` | src/drive/ModifyDriveTask.cpp:503-545 | When the front is approved, exactly those that had calculated an opinion keep it as approved and may report it alone, the others keep what was approved, and all expect the ledger's cumulative size |
| `HonestRuns.CalculateThenCancel` | src/drive/ModifyOpinionController.h:223-231 | A replicator that has calculated an opinion about the front is back at its accounts from before when the front is cancelled |
| `HonestRuns.OtherCancelsUnheard` | src/drive/FlatDrive.cpp:679-697 | Cancelling anything but the front leaves every controller, and who is ready, as it was |
| `HonestRuns.JoinCoversIff` | examples/standalone-tests/TestEnvironment.h:232-273 | What is recorded for a replicator that joins is below its new, empty counters if and only if nothing positive is recorded |
| `HonestRuns.RunCovers` | examples/standalone-tests/TestEnvironment.h:727-744 | Once below a controller's approved counters, what is recorded for it stays so until it joins again, whatever the others do |
| `HonestRuns.JoinKeeps` | examples/standalone-tests/TestEnvironment.h:232-273 | A replicator that joins keeps ledger and controllers in step |
| `HonestRuns.LeaveKeeps` | examples/standalone-tests/TestEnvironment.h:275-297 | So does one that leaves, although its recorded layout stays |
| `HonestRuns.HonestReportPassesIff` | examples/standalone-tests/TestEnvironment.h:727-766 | An honest report passes if and only if each opinion it records is admissible on its own; its one total is always the cumulative size with the front's |
| `HonestRuns.HonestSinglePassesIff` | examples/standalone-tests/TestEnvironment.h:787-835 | So does an honest single report, with the total already recorded |
| `HonestRuns.RecordPassesIff` | examples/standalone-tests/TestEnvironment.h:727-744 | Layouts of controllers pass the check one after the other if and only if each alone would, authors repeated or not |
| `HonestRuns.HonestRecordPasses` | examples/standalone-tests/TestEnvironment.h:727-744 | Opinions of counters above the recorded ones pass the upload check and keep the recorded keys, repeated authors included |
| `HonestRuns.HonestTotals` | examples/standalone-tests/TestEnvironment.h:755-764 | Opinions whose counters have the same sum have one total |
| `HonestRuns.MoveKeeps` | src/drive/ModifyDriveTask.cpp:503-545 | Every move, approval, cancellation, late catching-up, joining and leaving included, keeps ledger and controllers in step, unless a report of the front fails |
| `HonestRuns.HonestRunInStep` | src/drive/UpdateDriveTaskBase.h:98-113 | Hence they are in step in every state of an honest run in which no report has failed |
| `Rejoin.JoinIsSafeIff` | examples/standalone-tests/TestEnvironment.h:275-297 | In every state of an honest run in which no assertion has failed: the opinions of a replicator that joins are bound to be admissible until it leaves, with the donator shards the ledger tells, whoever else joins or leaves and as long as no assertion fails, if and only if no positive counter is recorded for it |
| `Rejoin.FirstReportPassesIff` | examples/standalone-tests/TestEnvironment.h:787-804 | For a given shard, such as the one it was told on joining, the first single report of a replicator that has just joined is bound to pass if and only if no recorded counter of that shard or of the client exceeds the least share its key can get |
| `Rejoin.BoundToFitIff` | src/drive/ModifyOpinionController.h:257-290 | Whatever its traffic, a new controller's first layout fits the recorded one if and only if no recorded counter of the shard or the client exceeds the least share, which is zero for everybody but a client that is alone |
| `Rejoin.GetsLeastShare` | src/drive/ModifyOpinionController.h:273-289 | No key of the shard ever gets less than its least share |
| `Rejoin.LeastShareOccurs` | src/drive/ModifyOpinionController.h:273-289 | With traffic from one key only, each key's least share occurs |
| `Rejoin.UnsafeJoinCanFail` | src/drive/UpdateDriveTaskBase.h:99 | A replicator that joins again with a positive counter recorded can, after at most one other joins and leaves, catch up with the donator shard it has been told so that its honest report fails the upload check |
| `Rejoin.CountingFromNothingCanFail` | src/drive/FlatDrive.cpp:1001-1014 | The same of any member that counts from nothing while a positive counter is recorded for it |
| `Rejoin.OldOpinionIsSafeIff` | examples/standalone-tests/TestEnvironment.h:727-744 | If an opinion from before leaving is approved after a safe join, the member counts from nothing with that opinion recorded, and nothing positive is recorded for it if and only if the opinion's total is zero |
| `Witnesses.RejoinFails` | examples/standalone-tests/TestEnvironment.h:787-804 | A run from a fresh ledger in which that happens, all shards as told: one of two members gets ten bytes from the other, both opinions are approved, it leaves and joins again, gets everything from the client, and its honest report fails |
| `Environment.Ledger.constructor` | examples/standalone-tests/TestEnvironment.h:93-146 | A fresh environment: no drives, the first replicators running with nothing said to them |
| `Environment.Ledger.StartReplicator` | examples/standalone-tests/TestEnvironment.h:149-200 | One start step: nothing if it runs, else a fresh log holding the replay of its drives in key order |
| `Environment.Ledger.StopReplicator` | examples/standalone-tests/TestEnvironment.h:202-207 | One stop step: its log is gone and nothing else changes |
| `Environment.Ledger.AddDrive` | examples/standalone-tests/TestEnvironment.h:217-230 | One step of the state machine; without a list the members are exactly the environment's replicators, with one exactly the listed ones (the record and the messages in fields: `AdditionRecorded`) |
| `Environment.Ledger.AddReplicatorToDrive` | examples/standalone-tests/TestEnvironment.h:232-273 | One step: lists extended, the others reconfigured without themselves in their shards, the newcomer told the drive, last approval and queue but no verification |
| `Environment.Ledger.RemoveReplicatorFromDrive` | examples/standalone-tests/TestEnvironment.h:275-297 | One step: lists shortened, the rest reconfigured, the leaver told to remove the drive |
| `Environment.Ledger.ModifyDrive` | examples/standalone-tests/TestEnvironment.h:299-308 | One step: pushed at the back and told to exactly the running members, once each |
| `Environment.Ledger.CancelModification` | examples/standalone-tests/TestEnvironment.h:572-586 | One step: listed as cancelled, every entry with the hash erased, members told, pending or not |
| `Environment.Ledger.StartVerification` | examples/standalone-tests/TestEnvironment.h:588-599 | One step: refused, with nothing said, when the slot is taken; the result tells whether the assertion held |
| `Environment.Ledger.CancelVerification` | examples/standalone-tests/TestEnvironment.h:601-614 | One step: only the matching verification is cleared and told |
| `Environment.Ledger.VerificationTransactionIsReady` | examples/standalone-tests/TestEnvironment.h:640-657 | One step: the slot is cleared; the first result is recorded and told to every running replicator, member or not |
| `Environment.Ledger.AnnounceResult` | examples/standalone-tests/TestEnvironment.h:648-655 | The part after the slot was cleared: the first result is recorded and told as in the step |
| `Environment.Ledger.ModifyApprovalTransactionIsReady` | examples/standalone-tests/TestEnvironment.h:686-768 | One step, in all its branches, partial writes of a failed assertion included; the result tells whether every assertion held (branch by branch in fields: `PrematureReport`, `RejectedReport`, `AcceptedReport`, `FailedReport`) |
| `Environment.Ledger.SingleModifyApprovalTransactionIsReady` | examples/standalone-tests/TestEnvironment.h:770-842 | One step, likewise; a report whose first author is no member leaves logs, totals and the record as they were (branch by branch in fields: `IgnoredSingle`, `CountedSingle`, `FailedSingle`) |
| `Environment.Ledger.Judge` | examples/standalone-tests/TestEnvironment.h:693-710 | The part from the membership check on is that step |
| `Environment.Ledger.Accept` | examples/standalone-tests/TestEnvironment.h:722-766 | The part from the pop on is that step |
| `Environment.Ledger.PopAndRecord` | examples/standalone-tests/TestEnvironment.h:722-746 | The record with the front popped, its size added and opinions recorded up to the first failed check, the approval set only if none failed |
| `Environment.Ledger.AnnounceApproval` | examples/standalone-tests/TestEnvironment.h:747-766 | The part after the upload check: the reported root hash is recorded for the hash, broadcast and totals are those of the step (what is told: `AcceptedReport`) |
| `Environment.Ledger.CountSingle` | examples/standalone-tests/TestEnvironment.h:786-840 | The part of the single-approval handler that records and counts the opinion is that step |
| `Environment.Ledger.CountTotal` | examples/standalone-tests/TestEnvironment.h:817-840 | The part after the upload check: totals and the answer are those of the step |
| `Environment.Ledger.OpinionsAreValid` | examples/standalone-tests/TestEnvironment.h:696-705 | True if and only if every opinion is a member's and more than two thirds as many as members were given |
| `Environment.Ledger.CheckLayout` | examples/standalone-tests/TestEnvironment.h:732-741 | True if and only if no entry of the layout is below the first known entry with its key |
| `Environment.Ledger.RecordOpinions` | examples/standalone-tests/TestEnvironment.h:727-744 | The recorded layouts, and whether all checks passed, up to and without the first inadmissible opinion |
| `Environment.Ledger.RecordSizes` | examples/standalone-tests/TestEnvironment.h:755-766 | The known totals with all the opinions' totals; passes if and only if exactly one total results |
| `Environment.Ledger.RecordSizesOf` | examples/standalone-tests/TestEnvironment.h:763-766 | The same for the entry of one hash, other entries untouched |
| `Environment.Ledger.GetReplicator` | examples/standalone-tests/TestEnvironment.h:918-927 | Found if and only if a replicator with the key runs |
| `Environment.Ledger.Broadcast` | examples/standalone-tests/TestEnvironment.h:302-307 | Each running replicator in the list gets the message once, at the end of its log; no other log changes |
| `Environment.Ledger.BroadcastToAll` | examples/standalone-tests/TestEnvironment.h:650-654 | Every running replicator gets the message once |
| `Environment.Ledger.SendReplay` | examples/standalone-tests/TestEnvironment.h:186-195 | One log grows by the drive's replay, no other changes |
| `Environment.Ledger.ReplayTo` | examples/standalone-tests/TestEnvironment.h:183-197 | An empty log becomes the replay of all the replicator's drives in ascending key order |
| `Environment.Ledger.AnnounceJoined` | examples/standalone-tests/TestEnvironment.h:241-254 | Every other running member is sent the three lists, without itself in the shards |
| `Environment.Ledger.AnnounceLeft` | examples/standalone-tests/TestEnvironment.h:284-291 | Every remaining running member is sent the three lists as they are |
| `Tolerance.OneIgnoredLedger.constructor` | examples/standalone-tests/testApprovalReceivedRootCalculated.cpp:25-46 | Nobody is ignored yet |
| `Tolerance.OneIgnoredLedger.ModifyApprovalTransactionIsReady` | examples/standalone-tests/testApprovalReceivedRootCalculated.cpp:48-64 | The first last author becomes and stays the ignored one; a full set loses its last opinion; the ledger makes its own step on what is sent, and none if the number does not fit |
| `Tolerance.OneIgnoredLedger.SingleModifyApprovalTransactionIsReady` | examples/standalone-tests/testApprovalReceivedRootCalculated.cpp:66-71 | Only the ignored replicator's single approval reaches the ledger |
| `SingleDrive.SingleDriveLedger.constructor` | examples/modifyDriveFlat5/TestEnvironment.h:64-125 | No drive, empty queue, the first replicators running with nothing said to them |
| `SingleDrive.SingleDriveLedger.StartReplicator` | examples/modifyDriveFlat5/TestEnvironment.h:127-173 | A new log with the drive, the last approval and the queue, in that order; nothing if it runs |
| `SingleDrive.SingleDriveLedger.StopReplicator` | examples/modifyDriveFlat5/TestEnvironment.h:175-178 | Its log is gone |
| `SingleDrive.SingleDriveLedger.AddDrive` | examples/modifyDriveFlat5/TestEnvironment.h:183-191 | One step of the single-drive machine: the drive with all replicators in every list, told to all that run |
| `SingleDrive.SingleDriveLedger.ModifyDrive` | examples/modifyDriveFlat5/TestEnvironment.h:193-202 | One step: pushed and told to all that run |
| `SingleDrive.SingleDriveLedger.CancelModification` | examples/modifyDriveFlat5/TestEnvironment.h:235-246 | One step: erased by hash and told to all that run |
| `SingleDrive.SingleDriveLedger.ModifyApprovalTransactionIsReady` | examples/modifyDriveFlat5/TestEnvironment.h:293-336 | One step; the result tells whether the total assertion held |
| `SingleDrive.SingleDriveLedger.Accept` | examples/modifyDriveFlat5/TestEnvironment.h:310-334 | The whole state after an approval of the front |
| `SingleDrive.SingleDriveLedger.SingleModifyApprovalTransactionIsReady` | examples/modifyDriveFlat5/TestEnvironment.h:338-362 | One step: the reporter is told before the assertions, and the total is recorded only for a single opinion |
| `SingleDrive.SingleDriveLedger.BroadcastToAll` | examples/modifyDriveFlat5/TestEnvironment.h:196-201 | Every running replicator gets the message once |
| `SingleDrive.SingleDriveLedger.InsertTotals` | examples/modifyDriveFlat5/TestEnvironment.h:322-332 | The totals of the opinions are added to the set of the hash, other sets untouched |
| `Offline.OfflineLedger.constructor` | examples/standalone-tests/testOfflineReplicatorThreeModifications.cpp:25-51 | Nothing is posted yet |
| `Offline.OfflineLedger.AddDrive` | examples/standalone-tests/TestEnvironment.h:217-230 | The inherited addition: told at once to all its members |
| `Offline.OfflineLedger.StartVerification` | examples/standalone-tests/TestEnvironment.h:588-599 | The inherited step, told to the last replicator at once; the result tells whether the assertion held |
| `Offline.OfflineLedger.CancelVerification` | examples/standalone-tests/TestEnvironment.h:601-614 | The inherited step, told at once |
| `Offline.OfflineLedger.VerificationTransactionIsReady` | examples/standalone-tests/TestEnvironment.h:640-657 | The inherited step, told at once |
| `Offline.OfflineLedger.ModifyDrive` | examples/standalone-tests/testOfflineReplicatorThreeModifications.cpp:61-74 | One step: pushed, told to all but the last replicator, posted for the last |
| `Offline.OfflineLedger.CancelModification` | examples/standalone-tests/testOfflineReplicatorCancelModification.cpp:79-95 | One step: erased, told to all but the last, posted for the last; the completed list is left as it was |
| `Offline.OfflineLedger.ModifyApprovalTransactionIsReady` | examples/standalone-tests/testOfflineReplicatorCancelModification.cpp:98-155 | One step: filtered hash ignored; totals recorded and checked before the pop; the expected download left as it was |
| `Offline.OfflineLedger.SingleModifyApprovalTransactionIsReady` | examples/standalone-tests/testOfflineReplicatorCancelModification.cpp:157-196 | One step: an online reporter is answered at once, the last replicator through the queue (in fields: `SinglePosted`, over runs: `AnswersAreEarned`) |
| `Offline.OfflineLedger.SendToOnline` | examples/standalone-tests/testOfflineReplicatorThreeModifications.cpp:65-69 | Every replicator but the last gets the message once |
| `Offline.OfflineLedger.PopAndPost` | examples/standalone-tests/testOfflineReplicatorCancelModification.cpp:139-153 | The part after the assertion: popped and recorded, the root hash known, told to all but the last and posted for the last |
| `Offline.OfflineLedger.PostToOne` | examples/standalone-tests/testOfflineReplicatorCancelModification.cpp:183-194 | Any replicator but the last gets the answer at the end of its log and the queue stays; for the last one the queue gets it and the log stays |
| `Offline.OfflineLedger.PostToAll` | examples/standalone-tests/testOfflineReplicatorThreeModifications.cpp:134-145 | Every replicator but the last gets the message, the queue grows by it |
| `Offline.OfflineLedger.RunOne` | examples/standalone-tests/testOfflineReplicatorThreeModifications.cpp:53-59 | The oldest posted message, if any, moves from the queue to the end of the last replicator's log |
| `Offline.OfflineLedger.RunBack` | examples/standalone-tests/testOfflineReplicatorThreeModifications.cpp:53-59 | The queue is empty and the last replicator's log has grown by all of it, in order; nothing else changed |
| `Withheld.WithholdingLedger.constructor` | examples/standalone-tests/testThreeModificationsAvoidSingleApproval.cpp:22-43 | Nothing is held yet |
| `Withheld.WithholdingLedger.ModifyApprovalTransactionIsReady` | examples/standalone-tests/testThreeModificationsAvoidSingleApproval.cpp:49-69 | One step: the front is popped, its size added and the approval recorded and held; published at once only for the first forbidden transaction |
| `Withheld.WithholdingLedger.ApproveModification` | examples/standalone-tests/testThreeModificationsAvoidSingleApproval.cpp:71-112 | The held approval is told to every running replicator, its totals are recorded, and nothing is held any more |
| `Withheld.WithholdingLedger.SingleModifyApprovalTransactionIsReady` | examples/standalone-tests/testThreeModificationsAvoidSingleApproval.cpp:114-131 | One step: a forbidden transaction's report publishes whatever is held, any other goes to the ledger |
| `Opinions.ModifyOpinionController.constructor` | src/drive/ModifyOpinionController.h:63-80 | Nothing accounted for |
| `Opinions.ModifyOpinionController.IncreaseApprovedExpectedCumulativeDownload` | src/drive/ModifyOpinionController.h:92-97 | Only the expected download changes |
| `Opinions.ModifyOpinionController.UpdateCumulativeUploads` | src/drive/ModifyOpinionController.h:99-158 | In terms of the traffic: each replicator's counter grows by its rounded-down share, the client's by at least its part, no other changes, and all together make exactly the expected download, under the modification's hash |
| `Opinions.ModifyOpinionController.NormalizeUploads` | src/drive/ModifyOpinionController.h:257-290 | The uploads keep their keys, make exactly the target, and each but the client's is its rounded-down share |
| `Opinions.ModifyOpinionController.ScaleOthers` | src/drive/ModifyOpinionController.h:275-282 | The shares of all but the client, and their sum |
| `Opinions.ModifyOpinionController.Share` | src/drive/ModifyOpinionController.h:278 | The quotient rounded down, bounded on both sides |
| `Opinions.ModifyOpinionController.CurrentUploads` | src/drive/ModifyOpinionController.h:108-129 | For exactly the shard and the client: the traffic from each, zero where there was none |
| `Opinions.ModifyOpinionController.AddUploads` | src/drive/ModifyOpinionController.h:149-156 | Key by key sums, missing counters counted as zero |
| `Opinions.ModifyOpinionController.Accumulate` | src/drive/ModifyOpinionController.h:131-136 | The sum over a map, in whatever order it is walked |
| `Opinions.ModifyOpinionController.FillOpinion` | src/drive/ModifyOpinionController.h:175-185 | The counters in ascending key order |
| `Opinions.ModifyOpinionController.ApproveCumulativeUploads` | src/drive/ModifyOpinionController.h:187-201 | The uploads are approved, and the expected download is never below their sum |
| `Opinions.ModifyOpinionController.DisapproveCumulativeUploads` | src/drive/ModifyOpinionController.h:223-231 | Back to the approved uploads |
| `Protocol.BytesOf` | examples/standalone-tests/TestEnvironment.h:734-738 | The first entry with the key; none if and only if no entry has it |
| `Protocol.EraseHash` | examples/standalone-tests/TestEnvironment.h:577-579 | Exactly the entries with another hash are kept |
| `Replica.EraseHashAppend` | examples/standalone-tests/TestEnvironment.h:577-579 | Erasing from a concatenation erases from both parts, in place |
| `Chain.RunWellFormed` | examples/standalone-tests/TestEnvironment.h:223 | In every reachable state lists agree and are duplicate-free, and a recorded approval names its drive |
| `Chain.StepWellFormed` | examples/standalone-tests/TestEnvironment.h:235-239 | Every event keeps that |
| `Chain.Touched` | examples/standalone-tests/TestEnvironment.h:235 | That `operator[]` creates a missing drive beforehand changes no handler's outcome |
| `Protocol.Publish` | include/drive/FlatDrive.h:364-372 | The published approval has the drive, hash and root hash of the report, and as keys the authors of its opinions in order |

## Left out

- Concurrency inside a handler: handlers are atomic steps, as each holds the ledger's lock throughout; condition variables, counters, waits and logging are not modelled. `addDrive` and `stopReplicator` take no lock and are modelled as atomic too.
- Fixed widths: keys and hashes are natural numbers used only for equality and map order, and byte counts are unbounded naturals, so `uint64_t` wrap-around in sums is not modelled.
- Fields that no modelled decision reads: status, file-system sizes, drive size and signatures of an approval, and the inside of the opinions in a verification result.
- The uniform forwarding wrappers (files, streams, directories), `closeDrive`, download channels and the download approval: they keep no ledger state that the handlers here read.
- Supercontract handlers, the stream example, the remaining scenario files and their `main` functions; the other offline scenarios repeat the queue modelled here.
- Tasks, torrents, sandbox and file tree of `FlatDrive`: its `View` is what the notifications alone determine. Synchronization requests, manual modifications and streams are not modelled.
- An approval published for a modification that a replicator does not have queued while it works on another one: the view keeps that one, `ModifyDriveTask` abandons it. In orderly runs the approved modification is the front of every member's queue.
- The replicator's removal of its own key from the full list it is told, and its use of the completed list: the view keeps lists as told.
- Restart values of the opinion controller: it lives until its replicator leaves the drive, and stopping a replicator keeps it.
- `HonestRuns`: a replicator without an opinion at the approval first raises its expected download and then updates; opinions are collected by whoever reports, the exchange between replicators is not modelled, so an opinion a replicator gave before it left is not among an honest report's (what it would do is `OldOpinionIsSafeIff`).
- Offline environments: inherited handlers for membership, starting and stopping are not part of their state machine, which needs every replicator running; a replay to the last replicator would repeat what its queue still holds.
- The simulation of the single-drive ledger compares records and shared entries, not logs; what its replicators are told, starts and stops included, is proved of its own runs.
