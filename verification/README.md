# AgentPorter: verified model of its decoders, tables and Git protocol

A Dafny model of the parts of AgentPorter in which state, bytes and interleavings are
hard to get right, with proofs over every input, every run and every crash.

- **Response evidence** (`ResponseSpec`, `ResponseFragments`, `ResponseDecoding`,
  `ResponseCuts`, `ChunkedCoding`, `ResponseObserver`). An observer is fed the bytes of an HTTP/1 response
  in blocks of any size and reports the model names in it, or nothing. The incremental
  class is proved equal to a function on states; that function is proved independent of the
  fragmentation, and equal to a separate one-shot reading of the whole message (RFC 9112
  sections 6.3 and 7.1; event-stream lines as in the WHATWG HTML Living Standard).
- **Worker Git RPC** (`PreparedTable`, `WorkerRuns`, `WorkerRepositories`, `WorkerSafety`,
  `WorkerWitnesses`, `WorkerCatalogs`, `WorkerCalls`, `WorkerPlans`).
  The lock-protected table is a class, one method for each critical section. Any number of
  threads interleave those sections with backend calls made outside the lock; the world
  keeps a record of preparations, claims, calls and answers, over which safety is stated.
- **Approved Git operations** (`Admission`, `GitProtocol`, `GitInvariants`, `GitSteps`,
  `GitSafety`, `GitRecovery`, `GitGateway`, `LaunchRace`, `TrackingRefs`). Commit, fetch and
  push claim a nonce, write a durable guard, link it to capacity, move a ref, leave a
  receipt, resolve and unlink. A crash is possible between any two effects; owner recovery
  works on what is left. `GitGateway` is the code in its imperative form, each effect of
  which is a step of the machine.
- **Codecs and checks.** Packet lines, advertisements and pushes (`PacketLines`,
  `SmartHttp`), the worktree stream (`WorktreeStream`), the collision check
  (`CollisionCheck`), the rate limiter (`RateLimiter`), socket retirement
  (`SocketRetirement`) and the request normaliser (`HeadroomRequest`).

`Bytes` and `ByteLines` hold Python's operations on `bytes`. `dafny verify dfyconfig.toml` checks all of it.

## What was found

- **An unfinished guard closes its repository.** Commits and pushes create their guard file
  before they fill it; fetches link theirs before they drop its temporary name, and recovery
  refuses a guard with two names (git_fetch_recovery.py:36). A crash in between, for any
  request of any kind, leaves a guard that no recovery ever accepts
  (`GitRecovery.UnfinishedGuardHappens`, `GitRecovery.ClosedStays`); nothing was moved behind
  it (`GitRecovery.UnfinishedGuardMovedNothing`).
- **An interrupted commit can be refused though nobody interfered.** Its update may die
  leaving a lock in the metadata, and recovery of a commit refuses locks
  (`GitRecovery.LockedCommitHappens`); it stays refused until someone else removes the lock
  (`GitRecovery.ClosedStays`). That is the only case: `GitRecovery.VerdictIsTruth`.
- **A guard does not always have a slot.** An exception between resolving and unlinking leaves
  the guard and no row (`GitRecovery.GuardWithoutSlotHappens`); and without a guard a fetch
  gives its slot back even when cleanup is uncertain. `GitSafety.SlotAfterFailure` states when
  exactly a failure keeps the slot.
- **Revocation does not wait for calls.** The backend is called outside the lock, and the
  grant is not checked again. A call is made in the tenure of its claim exactly if the grant
  was registered all the time between (`WorkerCalls.CalledInItsTenure`); otherwise it is made
  without a grant (`WorkerPlans.LateCall`) or under a later one. So "at most once for a job and
  digest between issue and revocation" holds by the time of calls exactly if no two catalogs of
  a job admit the same request (`WorkerPlans.AtMostOnceByCall`), and "one repository" exactly
  if all usable objects of successive catalogs are for the same one
  (`WorkerPlans.OneRepositoryByCall`). Counted in the tenure of their claims, calls are made at
  most once without any condition (`WorkerSafety.AtMostOnce`).
- **One repository per tenure depends on the grants issued.** Counted by claims, too, a thread
  that selected an object under an earlier catalog of a job can go on with it under a later one
  that holds the same object; `WorkerCatalogs.OneRepositoryExactly` gives the exact condition.
- **Limits depend on fragmentation, evidence does not.** Two fragmentations that are not
  refused never differ (`ResponseFragments.SurvivorsAgree`). A message that reports something
  is recorded in every fragmentation exactly within `ResponseSpec.WithinBounds`
  (`ResponseCuts.AlwaysRecordedExactly`): a blank line that begins at bytes 8190 to 8192 is
  refused when the first block has 8193 bytes, though the whole message in one block may be
  recorded (`ResponseCuts.CutDecides`), and so is an over-long line cut at its end.

## Assumptions

- Each SQLite transaction is atomic; files are durable once synced; renames and links are atomic.
- Request digests are injective, so a digest is modelled as its request, and in the worker RPC
  as determining operation, scope and repository; the converses over all runs assume that every
  such request can be made (`WorkerCatalogs.Plentiful`); signatures and the
  checks of packs, keys and UTF-8 are parameters.
- Tokens (`uuid4`) are never handed out twice, and inode identities are not reused.
- The mutation lease excludes other holders and is refused while a guard is pending, unless
  recovery asks for it; recovery and restart run with no other service process alive.
- The sandboxed update either takes effect as one compare-and-swap or not at all, and is
  reported as done only if it took effect; only one that is not reported may leave a lock.
- The clock of the rate limiter does not go back.

## Steps and their sources

Paths below `src/agentporter/`. A step of a machine is one durable effect, one critical
section, or one call made outside the lock.

| step of `GitProtocol` | stands for |
|---|---|
| `Enter`, `Launch`, `EndJob` | admission.py 12-20, 44-64, 32-41 |
| `Lease`, `Propose` | workspaces/leases.py 17-50, git_commits.py 331-342, git_fetches.py 306-321 |
| `Claim` | git_approvals.py 240-253, git_authorizations.py 58-78 |
| `OpenGuard` | the guard created empty: git_commits.py 344-345, git_pushes.py 204-210; linked: git_fetches.py 132-154 |
| `WriteGuard` | the guard filled: git_commits.py 346-357; its temporary name dropped: git_fetches.py 158-160 |
| `Bind`, `Resolve` | git_admission.py 9-31 |
| `Execute` | git_commits.py 49-62, git_fetches.py 71-107, git_pushes.py 200-224 |
| `Acknowledge`, `Unlink` | git_commits.py 251-275, 372-377, git_fetches.py 415-420 |
| `Fail` | git_commits.py 323-329, 379-382, git_pushes.py 225-230, git_fetches.py 422-433 |
| `Sweep` | tools/jobs.py 360-362 |
| `Review`, `Note`, `Settle`, `Retire` | git_fetch_recovery.py 127-175, git_commit_recovery.py 178-263, git_push_recovery.py 67-140 |
| `Crash`, `Foreign`, `Meddle` | any moment; any other writer of a ref; anyone else who changes branch or locks of a repository |

| step of `WorkerRuns` | stands for (worker_git_rpc.py) |
|---|---|
| `Issue`, `Revoke` | 167-181 |
| `Admit`, `Select` | 248-275 |
| `Aim`, `Propose`, `Insert` | 276-289, 317-356 |
| `Peek` | 368-376 |
| `ClaimIt`, `CallBackend`, `Deliver` | 442-454, 462-472, 484-487 |
| `StartWait`, `Wake`, `EndWait`, `Leave` | 291-296, 297-299, 300-303, every refusal |

## Model

| member | source | states |
|---|---|---|
| `ResponseFragments.IdealAppend` | src/agentporter/provenance.py:82-175 | Feeding two blocks one after the other is feeding their concatenation, for every state: header, chunk, line and event buffers agree wherever the cut falls. |
| `ResponseFragments.RunExactly` | src/agentporter/provenance.py:82-225 | A run over any partition is exactly the decoding of the whole byte string if every cut leaves buffers within their limits, and disabled otherwise. |
| `ResponseFragments.Coarsening` | src/agentporter/provenance.py:82-175 | Merging neighbouring blocks never disables a run that survived: finer partitions can only lose evidence, never change it. |
| `ResponseFragments.SurvivorsAgree` | src/agentporter/provenance.py:82-175 | Two partitions of the same bytes that both survive end in the same state, hence with the same models. |
| `ResponseDecoding.RecordedIsOneShot` | src/agentporter/provenance.py:103-225 | Whatever a partition records is what the one-shot reading of the whole message gives: remove the framing, split at LF, drop CR, group data lines at blank lines, read each event. |
| `ResponseDecoding.ObservedIsOneShot` | src/agentporter/provenance.py:82-225 | Within the header, line and event limits the converse holds too: every partition records exactly the one-shot reading, nothing if that reads nothing. |
| `ResponseCuts.AlwaysRecordedExactly` | src/agentporter/provenance.py:103-194 | A message that reports something is recorded by every partition exactly if its blank line begins at most at byte 8189 and its document, or every stretch without a line feed, is within the event limit. |
| `ResponseCuts.SomeCutRefuses` | src/agentporter/provenance.py:103-194 | Outside these bounds some cut into two blocks records nothing: past the header limit, or after the byte of the body that exceeds the event limit, in any framing. |
| `ResponseCuts.CutTakes` | src/agentporter/provenance.py:139-169 | A chunked payload can be cut after exactly the first j bytes of its body, for every j. |
| `ResponseCuts.CutDecides` | src/agentporter/provenance.py:103-115 | For every body that reports a model there is a message that reports it in one block and reports nothing when the same bytes are cut in two. |
| `ResponseCuts.OneMessageTwoCuts` | src/agentporter/provenance.py:103-115 | One such message and parser, with both cuts. |
| `ResponseDecoding.BodyReads` | src/agentporter/provenance.py:177-210 | Reading a body line by line is reading it grouped into events at once, event limit and model limit included. |
| `ResponseDecoding.DechunkPrefixFree` | src/agentporter/provenance.py:139-169 | No complete chunked payload is a strict prefix of another. |
| `ResponseDecoding.TruncatedIsSilent` | src/agentporter/provenance.py:212-225 | A message with a declared end that loses at least its last byte records nothing, however it was cut into blocks. |
| `ResponseDecoding.UnchunkProgress` | src/agentporter/provenance.py:139-169 | What the chunk loop has decoded, put before what its buffers still hold and what is still to come, is the payload: no byte is lost, doubled or reordered. |
| `ChunkedCoding.DecodeEncode` | src/agentporter/provenance.py:139-169 | Every chunked coding of section 7.1 of RFC 9112 without extensions or trailers decodes to its data, whatever the chunk sizes and the spelling of their lengths. |
| `ChunkedCoding.EncodeDecode` | src/agentporter/provenance.py:139-169 | Every payload the chunk loop accepts is such a coding of what it decodes to. |
| `ChunkedCoding.FramingInvisible` | src/agentporter/provenance.py:118-175 | Within the bounds any way to cut a message in any chunking records what any way to cut it under a content length records: the reading of its body. |
| `ResponseObserver.FeedBounded` | src/agentporter/provenance.py:82-210 | After every block the header, wire, body and event buffers and the number of models are within their limits. |
| `ResponseObserver.ProviderModelEvidence.Record` | src/agentporter/provenance.py:38-43 | A report is added to the history; an invalid name spoils it. |
| `ResponseObserver.ProviderModelEvidence.ActualModel` | src/agentporter/provenance.py:49-53 | The two models kept answer as the unbounded set of all reported models would: the model if it is the only one and nothing was spoiled, else unknown. |
| `ResponseObserver.ReadHeaders` | src/agentporter/provenance.py:119-124 | The header loop reads names and values as the header function does and refuses what it refuses. |
| `ResponseObserver.ResponseObserver.constructor` | src/agentporter/provenance.py:63-80 | A new observer is at the start of a message and has kept nothing. |
| `ResponseObserver.ResponseObserver.Feed` | src/agentporter/provenance.py:82-96 | One block takes the observer from its state to the state the decoding function gives; data after a finished message invalidates the evidence instead. |
| `ResponseObserver.ResponseObserver.Disable` | src/agentporter/provenance.py:98-101 | Disabling drops every buffer and every model. |
| `ResponseObserver.ResponseObserver.ReadHead` | src/agentporter/provenance.py:115-137 | A header is accepted and its framing chosen as the header function says; a header with both framings is refused. |
| `ResponseObserver.ResponseObserver.FeedChunked` | src/agentporter/provenance.py:139-169 | The chunk loop terminates and leaves the buffers of the recursive chunk decoding, or fails where that fails. |
| `ResponseObserver.ResponseObserver.TakeContent` | src/agentporter/provenance.py:177-194 | Body bytes are consumed line by line up to the last complete line. |
| `ResponseObserver.ResponseObserver.TakeOneLine` | src/agentporter/provenance.py:184-193 | A line extends the current event or, when blank, ends it. |
| `ResponseObserver.ResponseObserver.TakeEvent` | src/agentporter/provenance.py:196-210 | An event adds at most one model and fails on malformed or too many models. |
| `ResponseObserver.ResponseObserver.Finish` | src/agentporter/provenance.py:212-225 | Finishing records the models of a complete message and otherwise disables; the evidence is changed in no other way. |
| `ResponseObserver.ObserveResponse` | src/agentporter/provenance.py:63-225 | A response fed block by block and finished adds to the evidence exactly the observed models, which are the one-shot reading of the whole. |
| `PreparedTable.RoomFits` | src/agentporter/worker_git_rpc.py:403-416 | Once room is made one more record fits both the per-job and the total limit. |
| `PreparedTable.RoomKeepsDispatched` | src/agentporter/worker_git_rpc.py:403-416 | Making room never drops or alters a dispatched record. |
| `PreparedTable.PreparesBounded` | src/agentporter/worker_git_rpc.py:342-356 | Recording a request keeps both limits, denied or not. |
| `PreparedTable.PreparesEffect` | src/agentporter/worker_git_rpc.py:342-356 | Record by record, a preparation refreshes an idle record, adds one new record, or evicts idle ones; dispatched records stay as they are. |
| `PreparedTable.WorkerGitRPC.IssueGrant` | src/agentporter/worker_git_rpc.py:167-173 | A primary grant with its alternates is registered exactly if its job has none. |
| `PreparedTable.WorkerGitRPC.Revoke` | src/agentporter/worker_git_rpc.py:175-181 | Revocation removes the grant, the selected repository and all records of the job, and nothing else. |
| `PreparedTable.WorkerGitRPC.SelectRepository` | src/agentporter/worker_git_rpc.py:273-275 | The first request fixes the repository of the job; any other repository is refused from then on. |
| `PreparedTable.WorkerGitRPC.OldestIdle` | src/agentporter/worker_git_rpc.py:416 | The record evicted is a least recently prepared idle one of the pool. |
| `PreparedTable.WorkerGitRPC.MakeRoom` | src/agentporter/worker_git_rpc.py:403-416 | Expired idle records go, then at most one oldest idle record of the full pool; refused exactly when the pool has no idle record. |
| `PreparedTable.WorkerGitRPC.RecordPrepared` | src/agentporter/worker_git_rpc.py:342-356 | One attempt to record a prepared request, with each reason for which it is denied. |
| `PreparedTable.WorkerGitRPC.PeekClone` | src/agentporter/worker_git_rpc.py:368-376 | The first clone proposal of the scope in the order of the table is handed back exactly if it is live, and refreshed unless it was dispatched. |
| `PreparedTable.WorkerGitRPC.ClaimDispatch` | src/agentporter/worker_git_rpc.py:442-454 | A request is handed out exactly when it is prepared, matches, is idle, fresh and its grant registered, and is dispatched from then on. |
| `PreparedTable.WorkerGitRPC.Deliver` | src/agentporter/worker_git_rpc.py:484-487 | The response is stored in a record object that a claim handed out. |
| `WorkerRuns.RecordedKept` | src/agentporter/worker_git_rpc.py:317-401 | Every record belongs to a registered job, was prepared in its present tenure and keeps the purpose it was made for, whatever thread moves. |
| `WorkerRuns.ClaimedKept` | src/agentporter/worker_git_rpc.py:442-454 | No request is claimed twice in one tenure; a claim keeps its record dispatched as long as its grant lasts. |
| `WorkerRuns.CalledKept` | src/agentporter/worker_git_rpc.py:462-487 | Threads hold distinct claims, call each once and answer each once. |
| `WorkerRuns.AnsweredKept` | src/agentporter/worker_git_rpc.py:291-303 | Stored responses and answers come from calls for the same record object, even if the grant is revoked between the last check of the waiter and its reading. |
| `WorkerRepositories.ChoiceKept` | src/agentporter/worker_git_rpc.py:183-275 | Every thread and claim runs under an object of the catalog of the tenure it was admitted in; what it selected stays the selection of the job for as long as that tenure lasts. |
| `WorkerSafety.AtMostOnce` | src/agentporter/worker_git_rpc.py:435-487 | In every interleaving no two backend calls are for claims of one job and digest made between issue and revocation of one grant. A call counts in the tenure of its claim, which may be over when it is made. |
| `WorkerSafety.PreparedBefore` | src/agentporter/worker_git_rpc.py:435-487 | Every call follows a successful preparation of the same request, scope and operation in the same tenure, still fresh at the claim. |
| `WorkerSafety.OneRepositorySelected` | src/agentporter/worker_git_rpc.py:273-289 | Claims of one tenure whose threads selected their repository during it name one repository. |
| `WorkerSafety.RegisteredIsIssued` | src/agentporter/worker_git_rpc.py:183-185 | In every run a grant object passes for registered if and only if the job has a grant and the catalog issued to it last holds the object. |
| `WorkerSafety.OneRepository` | src/agentporter/worker_git_rpc.py:167-185 | If the primaries issued so far are sound, all claims made in a tenure name one repository. |
| `WorkerCatalogs.OneRepositoryExactly` | src/agentporter/worker_git_rpc.py:167-185 | For every sequence of primaries: all runs that issue it keep the calls for claims of each tenure to one repository if and only if no catalog shares a usable object with an earlier one of its job, save where all its usable objects are for the repository of that object. |
| `WorkerCatalogs.NamesTwo` | src/agentporter/worker_git_rpc.py:167-185 | Otherwise a run in which a thread selects the shared object under the earlier catalog calls the backend for two repositories claimed in one tenure of the later one. |
| `WorkerCalls.CalledInItsTenure` | src/agentporter/worker_git_rpc.py:442-472 | A call is made in the tenure of its claim if and only if the grant was registered at every moment between claim and call; it is made without any grant if and only if none is registered then, and otherwise in that tenure or a later one. |
| `WorkerCalls.GentleRunsPrompt` | src/agentporter/worker_git_rpc.py:175-181 | In runs in which no grant goes while one of its threads is about to call, every call is made in the tenure of its claim. |
| `WorkerCalls.GentleRunsOnce` | src/agentporter/worker_git_rpc.py:435-487 | In such runs the backend is called at most once for a job and digest while a grant is registered, never without a grant, and for sound primaries for one repository only. |
| `WorkerPlans.OffersHold` | src/agentporter/worker_git_rpc.py:317-356 | In every run each preparation was made for the very request of its digest, by an object of the catalog of its tenure that admits it. |
| `WorkerPlans.AtMostOnceByCall` | src/agentporter/worker_git_rpc.py:435-487 | For every sequence of primaries: in all runs that issue it the backend is called at most once for a job and digest while a grant of the job is registered, if and only if no two catalogs of a job admit the same operation and scope for the same repository. |
| `WorkerPlans.CallsTwice` | src/agentporter/worker_git_rpc.py:454-472 | Otherwise a run in which a thread claims under the earlier catalog, and calls after the same request was prepared, claimed and called anew under the later one. |
| `WorkerPlans.OneRepositoryByCall` | src/agentporter/worker_git_rpc.py:435-487 | For every sequence of primaries: in all runs that issue it the calls made while a grant of a job is registered name one repository, if and only if all usable objects of any two catalogs of that job are for one repository. |
| `WorkerPlans.CallsForTwo` | src/agentporter/worker_git_rpc.py:454-472 | Otherwise a run in which calls for two repositories are made during one tenure, whether or not the catalogs share anything. |
| `WorkerPlans.RegisteredByCall` | src/agentporter/worker_git_rpc.py:454-472 | For every sequence of primaries: all runs that issue it call only while a grant is registered if and only if no object can be used at all. |
| `WorkerPlans.LateCall` | src/agentporter/worker_git_rpc.py:175-181 | For every request that is admitted a run exists in which its grant is revoked between claim and call, and the call is made without a grant. |
| `WorkerSafety.AnswersAreOutcomes` | src/agentporter/worker_git_rpc.py:291-303 | A waiter is answered with the outcome of a call for the very request it waits for, even if the record was revoked and prepared anew meanwhile. |
| `WorkerSafety.TableBounded` | src/agentporter/worker_git_rpc.py:403-416 | At every moment at most 32 records belong to a job and 1024 are in the table. |
| `WorkerSafety.DispatchedStays` | src/agentporter/worker_git_rpc.py:403-407 | Only the revocation of its job takes a dispatched record away or changes it. |
| `WorkerSafety.FullMeansDispatched` | src/agentporter/worker_git_rpc.py:403-416 | A preparation is refused as full exactly when there is no room, and then every record of the full pool is dispatched. |
| `Admission.AdmissionDatabase.Enter` | src/agentporter/admission.py:12-20 | A slot is taken exactly if fewer than the limit are. |
| `Admission.AdmissionDatabase.Release` | src/agentporter/admission.py:21-41 | A failed body gives its slot back, whoever owns it; conservation then holds exactly if no active Git operation did. |
| `Admission.AdmissionDatabase.ReleaseJob` | src/agentporter/admission.py:32-41 | All rows of one job go, no others. |
| `Admission.AdmissionDatabase.BindJob` | src/agentporter/admission.py:49-59 | The binder transaction: bound to the job, or given back at once when the job is over. |
| `Admission.AdmissionDatabase.Bind` | src/agentporter/git_admission.py:9-20 | A Git operation is linked exactly to an unbound row of its own that is not linked yet. |
| `Admission.AdmissionDatabase.Resolve` | src/agentporter/git_admission.py:23-31 | Linkage resolved and unbound row deleted in one transaction. |
| `Admission.AdmissionDatabase.InspectRecovery` | src/agentporter/git_admission.py:58-73 | How a guard is linked: unbound, active or resolved, or refused when request, guard or row do not match. |
| `Admission.AdmissionDatabase.ResolveRecovery` | src/agentporter/git_admission.py:76-95 | Recovery settles the linkage exactly when inspection accepts it. |
| `Admission.AdmissionDatabase.Sweep` | src/agentporter/tools/jobs.py:360-362 | A restart keeps rows of active Git operations and of jobs whose cleanup failed. |
| `Admission.ReleaseConserves` | src/agentporter/admission.py:24-29 | Deleting a row by token keeps conservation exactly when no active Git operation owns it. |
| `Admission.SettleAgain` | src/agentporter/git_admission.py:76-95 | Settling twice is settling once, and a settled linkage is accepted again. |
| `LaunchRace.RaceSettles` | src/agentporter/admission.py:44-64 | In every interleaving of binder, cancellation and monitor the job holds no row if it ended cleanly and exactly one otherwise, other rows untouched. |
| `LaunchRace.CapacityHeldWhileRunning` | src/agentporter/admission.py:44-64 | Capacity is not given back while the job may run, nor when the binding failed. |
| `GitSteps.StepKept` | src/agentporter/git_commits.py:331-384 | Every step of commit, fetch, push, recovery, restart, crash and of foreign writers of refs, branches and locks keeps the invariant that ties guards, claims, rows, receipts and refs together. |
| `GitSafety.GuardSafety` | src/agentporter/git_commits.py:341-377 | In every reachable state each claim that moved a ref is in the ledger, and its guard or a success or recovery receipt is there. |
| `GitSafety.MovedOnce` | src/agentporter/git_approvals.py:240-253 | Each claim moves a ref at most once. |
| `GitSafety.RefsMoveUnderGuard` | src/agentporter/git_fetches.py:341-421 | Refs change, foreign writers aside, only by a compare-and-swap whose guard was complete and whose claim was recorded before. |
| `GitSafety.AdmissionConserved` | src/agentporter/git_admission.py:9-31 | Admitted rows never exceed the limit; every active Git operation has its row and its guard. |
| `GitSafety.SlotAfterFailure` | src/agentporter/git_fetches.py:425-433 | Without a guard a failure keeps the slot exactly for commit and push when cleanup is uncertain; behind a guard it changes nothing on disk, and the slot is there exactly if it was not resolved before. |
| `GitRecovery.GuardWithoutSlotHappens` | src/agentporter/git_commits.py:373-382 | For every request a run exists in which an exception after resolving leaves a whole guard and no slot. |
| `GitSafety.EndsOnlyWithReceipt` | src/agentporter/git_admission.py:23-31 | No active operation ends before a success or recovery receipt for its claim is durable. |
| `GitRecovery.RecoverableExactly` | src/agentporter/git_commit_recovery.py:191-237 | Recovery can proceed exactly when the guard is whole under its one name, the ref is at the old or the approved tip and, for a commit, no lock is left and the branch is the one committed to. |
| `GitRecovery.VerdictIsTruth` | src/agentporter/git_commit_recovery.py:221-226 | With no other writer of its ref, branch or locks an interrupted fetch is never a conflict, a commit is one exactly if its update left a lock, and the verdict tells whether the update took effect. |
| `GitRecovery.RecoveryConverges` | src/agentporter/git_fetch_recovery.py:162-175 | Recoveries cut short after any of their effects, any number of times, leave a recoverable guard and the final state of one undisturbed recovery. |
| `GitRecovery.RecoveryConvergesInRuns` | src/agentporter/git_fetch_recovery.py:162-175 | In every run of recoveries begun, cut short and begun again with restarts between: while the guard is there it is recoverable with the same verdict, and once it is gone the disk is what one undisturbed recovery and the restarts after it leave. |
| `GitRecovery.RecoveryEffect` | src/agentporter/git_fetch_recovery.py:162-175 | Recovery removes the guard, settles its row, leaves a receipt, and changes no ref, claim, success receipt or other row. |
| `GitRecovery.SweepCommutes` | src/agentporter/tools/jobs.py:360-362 | A restart between two attempts makes no difference in the end, even for a guard written before its row was linked. |
| `GitRecovery.RecoveryRuns` | src/agentporter/git_commit_recovery.py:200-263 | From any moment with no process alive, recovery can be carried through step by step. |
| `GitRecovery.UnfinishedGuardHappens` | src/agentporter/git_fetches.py:153-160 | For every request of every kind a run exists in which a crash leaves its guard unfinished: empty for a commit or push, under two names for a fetch. |
| `GitRecovery.ClosedStays` | src/agentporter/git_fetch_recovery.py:31-38 | An unfinished guard is refused in every later state; the guard of a commit beside a lock is, as long as nobody else changes branch or locks. |
| `GitRecovery.LockedCommitHappens` | src/agentporter/git_commits.py:362-371 | For every commit a run exists in which its update leaves a lock, moved or not, and nobody else has touched the repository. |
| `GitRecovery.UnfinishedGuardMovedNothing` | src/agentporter/git_pushes.py:204-210 | Behind an unfinished guard no ref was moved that a receipt does not already account for. |
| `GitGateway.Gateway.Commit` | src/agentporter/git_commits.py:317-384 | A commit on the branch the repository is on. Done: the ref moved, the receipt is durable, guard and slot are gone. Failed: nothing moved but behind a guard, and the slot is kept exactly under uncertain cleanup, save where the exception comes between resolving and unlinking. Every effect is a step of the protocol. |
| `GitGateway.Gateway.Push` | src/agentporter/git_pushes.py:187-230 | As a commit, but from the attempt at the guard on every failure counts as uncertain cleanup. |
| `GitGateway.Gateway.Fetch` | src/agentporter/git_fetches.py:330-433 | As a commit, but without a guard the slot is always given back, and the guard left by a failure is never empty; it has two names exactly if dropping the temporary one failed. |
| `GitGateway.Gateway.Begin` | src/agentporter/admission.py:12-29 | Capacity, then the mutation lease, which a pending guard refuses. |
| `GitGateway.Gateway.Authorize` | src/agentporter/git_authorizations.py:58-78 | The proposal, which a lock or a detached head refuses, and its claim, which a spent nonce refuses. |
| `GitGateway.Gateway.Finish` | src/agentporter/git_fetches.py:357-421 | Behind the guard: link, update, receipt, resolve, unlink. Any failure keeps the guard; the slot is kept too unless the update was done and reported and the exception comes when unlinking. |
| `GitGateway.Gateway.Recover` | src/agentporter/git_fetch_recovery.py:93-175 | The reviewed plan must be the one found, with locks, branch and names of the guard as they are now; then the effects up to the cut, or all. |
| `TrackingRefs.TrackingRefInjective` | src/agentporter/git_fetches.py:110-118 | A tracking ref belongs to one remote and one branch only. |
| `TrackingRefs.TrackingRefStaysBelow` | src/agentporter/git_fetches.py:110-118 | It lies below the directory of its remote and has no empty, dot or lock component. |
| `PacketLines.PacketsExactly` | src/agentporter/git_smart_http.py:45-71 | A body is read as a list of lines exactly if it is their printed form and within the limits: reading and printing are inverse. |
| `PacketLines.Packets` | src/agentporter/git_smart_http.py:51-71 | The loop over the position always advances and computes that reading. |
| `SmartHttp.ReadAdvertisement` | src/agentporter/git_smart_http.py:80-130 | For one of the two services the loop that fills the references computes the reading of the records one by one; any other service is refused. |
| `SmartHttp.AdvertisementRoundTrip` | src/agentporter/git_smart_http.py:80-130 | Any well-formed printed advertisement is read back as exactly its references, capabilities and object format. |
| `SmartHttp.AdvertisementSound` | src/agentporter/git_smart_http.py:80-130 | Whatever is accepted is of one of the two services and has valid names and nonzero identities of one width, which is that of the stated format. |
| `SmartHttp.CommandFits` | src/agentporter/git_smart_http.py:158-170 | The command of a valid update always fits one packet. |
| `SmartHttp.PushRecovered` | src/agentporter/git_smart_http.py:158-170 | The body of a push determines old and new identity and ref, and carries the pack untouched. |
| `SmartHttp.PushUnambiguous` | src/agentporter/git_smart_http.py:133-170 | Two valid pushes with the same body are the same push. |
| `SmartHttp.CheckPushResult` | src/agentporter/git_smart_http.py:173-176 | The one canonical confirmation of the ref is accepted and nothing else. |
| `WorktreeStream.DecodeFeed` | src/agentporter/git_pull_integration.py:75-110 | The digested stream can be read back into the exact list of paths, modes, kinds and contents. |
| `WorktreeStream.ItemsDetermine` | src/agentporter/git_pull_integration.py:75-110 | That list determines the directory tree. |
| `WorktreeStream.StreamDetermines` | src/agentporter/git_pull_integration.py:75-110 | Two worktrees of supported entries that feed the same stream are identical outside masked paths. |
| `WorktreeStream.WorktreeDigest.Scan` | src/agentporter/git_pull_integration.py:77-110 | The scan succeeds exactly on supported entries within its depth, entry, file and byte budgets, and then has fed exactly the visible entries. |
| `CollisionCheck.ParentsExactly` | src/agentporter/git_pull_integration.py:178-181 | The joined prefixes of a split path are exactly the directories above it. |
| `CollisionCheck.CheckUntracked` | src/agentporter/git_pull_integration.py:172-187 | The prefix lookup reports a collision exactly when some untracked path equals, contains or lies below an incoming one. |
| `RateLimiter.Limiter.IsAllowed` | src/agentporter/auth.py:53-69 | With a clock that does not go back every decision is that of a log that forgets nothing. |
| `RateLimiter.Limiter.CleanUp` | src/agentporter/auth.py:57-62 | Forgetting idle clients changes no later decision. |
| `RateLimiter.AcceptedSpan` | src/agentporter/auth.py:64-69 | Any limit + 1 successive accepted requests of a client span at least the window. |
| `SocketRetirement.SocketDirectory.Retire` | src/agentporter/worker_git_transport.py:102-130 | Under any changes to the name between system calls only the expected socket is unlinked, success is reported exactly then, and every other entry moved is back at the name or in custody. |
| `HeadroomRequest.Client.ReadRequest` | src/agentporter/agents/development_egress.py:285-344 | However the stream arrives, an accepted request is forwarded as the one framing of the stream; it is accepted whenever its header fits and nothing follows it. |
| `HeadroomRequest.Client.ReceiveHeader` | src/agentporter/agents/development_egress.py:290-298 | The receive loop finds the header unless its end lies beyond the limit. |
| `HeadroomRequest.FramedAgain` | src/agentporter/agents/development_egress.py:299-344 | What is forwarded reads as the same request line, headers but for the connection, and declared body; normalising it again changes nothing. |

## Left out

- JSON parsing: the reading of an event's text is a parameter; the checks on the parsed object (members, types, model names) are modelled.
- Chunk extensions and trailers, which the code refuses.
- Locks of the evidence object and of the admission connection: each method is one atomic step.
- Receipt shape and freshness screening, liveness checks and field validation of the worker RPC: they only add reasons to refuse. The operation, scope and repository of a request are functions of its digest.
- The wait of at most 30 seconds for an outcome: a waiter may wake at any time.
- Guards of version 1, which name no admission, and the in-process mode without a job manager.
- GitProtocol: request contents beyond kind, repository, ref, and old and new identity; sandbox runs before the update (pack indexing, inspection), which change nothing durable that is modelled.
- GitRecovery: authority, policy and identity checks, which only refuse; the syncing of observed refs; that a commit's tip is compared by content as well as by identity.
- GitProtocol.Classify: locks are seen per repository, not per file; a detached head is a branch that is no ref of the repository.
- GitRecovery.VerdictIsTruth: covers commits and fetches; a push's ref is remote, where others may write at any time.
- GitGateway.Gateway.Commit: no crash inside the method; crashes at every point are steps of the machine.
- The rows inserted for jobs of older databases, which may exceed the limit at the first start.
- The second sweep of capacity rows in `sandbox/workspace_recovery.py`, which has the form of the one modelled.
- Pulls and clones, whose publication rests on sandbox code with custody rules of its own.
- The sockets, slots and framing of the worker transport beside retirement, and the errors of `stat` and `unlink` on the entry in custody.
- The order of directory entries: a worktree is given as the list the scan sees, so `sorted` is not modelled; changes of files during the scan, which it refuses.
- WorktreeStream.StreamDetermines: is about worktrees whose visible entries are supported; on others the scan fails and there is no digest.
- Native Git merges, rebases, index refreshing and the staged-change check of the pull program.
- RateLimiter.Limiter.IsAllowed: time is a real number; rounding of floating-point seconds is not modelled.
- HeadroomRequest.FramedAgain: leaves out the header size limit, which the added spaces may exceed.
- The upgrade response of the model proxy and the relays, which forward bytes unread.
- `verify_api_key` and `is_host_allowed`: stateless comparisons that would only add easy members.
