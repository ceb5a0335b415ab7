# Gate dispatch control: a verified model

This project models the dispatch protocol of a hydropower gate control system and its rate limiter, and proves
properties of both over every run and every interleaving. `dafny verify dfyconfig.toml` checks all of it.

The system keeps three versioned tables: gates, operation directives and execution receipts. Three services write
them; a gate row has three writers, a directive row two. Two logs are append-only: the approval records of the
two-person rule and the audit log. Every write has two phases. A request reads rows and checks them outside any
transaction, then runs one transaction of compare-and-set updates (`WHERE id = ? AND version = ?`) and log inserts.
Requests interleave freely between their reads and their transaction.

## How the model is built

- **Values.** `Model`, `Status`, `Text` and `Transactions` hold the rows, the status words and graphs, the text rules,
  and the effect of one transaction (`Commit`): at most one statement per table, each with its audit entry, and at
  most one approval record, all or nothing. Unique indexes count soft-deleted rows; reads, updates and deletes skip
  them.
- **Decisions.** `Planning` holds what each of the twelve operations checks and asks for, branch by branch.
- **The reference.** `Effects`, `Acceptance` and `Refusals` say the same from outside, in terms of stored rows only: when
  each request succeeds, which error it is answered with otherwise, and what it makes of every table and log. The
  decisions are proved to agree with it in both directions.
- **Runs.** `Protocol` defines a run: a history of committed states, and for each request the positions at which each
  of its reads happened. A request may read at any earlier positions in order, and commits, or fails, against the last
  state. So a run is any number of requests in any interleaving, including any request failing on I/O.
- **Honest clients.** The version an update or transition compares comes from the client. `Honest` says that some
  state no later than the service's read carried it, that is, the client was shown it. `OwnRowUnchangedIff` gives the exact
  condition without that hypothesis, and `UnshownVersionOpensClosedGate` a run in which a guessed version defeats the
  lock. Rows updated through a link compare the version that was read, and need no hypothesis.
- **Invariants.** `Evolution` (what compare-and-set and the indexes alone keep), `OptimisticLock` (reads settle at
  commit), `Grounding` (what a commit means against the state it lands on), `Agreement`, `Evidence` and `Journal`
  (the invariants over tables and logs) meet in `Reachability.RunIsSound`. `Outcomes`, `Races`, `GateRaces`, `Serial`,
  `Signatures`, `Signers`, `Dispatch` and `Validity` draw the results; `Witnesses` has the starting states and the runs
  that show a hypothesis is needed.
- **The code in place.** `Store.Database` is the stored state, changed in place by statements between `Begin` and `End`,
  with savepoints. Other sessions commit whatever they like (`script`) at every scheduling point of a request.
  `GateService`, `DirectiveService` and `ReceiptService` are the services as classes over it. Each operation's contract
  (`Handled`) says that the call was exactly one request of the protocol, served among the commits of the other
  sessions, and that its answer is the outcome of that request, error by error. What other sessions do is a script that
  nothing can change, and every commit is accounted for by it or by the call. `Sessions.CallsKeepRunsSound` joins the two
  views: where the script is made of requests, the history is a run and all invariants hold of it.
- **Nesting.** `Atomicity` gives transactions inside transactions a meaning and reduces it to one flat transaction.
- **The limiter.** `RateLimiter.Limiter` keeps the mutable map with its lazy cleanup, next to a ghost list of the calls
  it has seen.

What the code cannot decide is a parameter: the key the database allocates (`newId`), what the reservoir lookup
returned, the clock (`Caller.now` and `later`, the limiter's `now`, `later` and `last`), which statement fails on I/O (`io`), what other sessions commit
(`script`), and the answer of the Redis counter (`reply`). Transactions are taken to be atomic and isolated, with
compare-and-set updates, unique indexes and savepoints; the Redis counter, which other processes may share, to be one atomic increment per key and
minute.

Runs start from any state satisfying `Starts`; the empty database and the seeded one do. `except` lists receipts whose
facility, category or risk level did not agree with their directive to begin with.

## What the proofs found

- The seeded receipt EC-001 has another category than its directive OD-003 (`SeedStarts`). A receipt's copied columns
  agree with its directive's if and only if they did at the start, or the receipt was created since, or an update of it
  has committed (`ReceiptColumnsAgreeIff`).
- The README of the repository (line 48) says that a gate enters `moving` when a directive starts. The code leaves a
  gate that already stands at the target where it is: `StartMovesGateIff` has the exact condition.
- Such a gate is read and not written, so nothing guards it: another session can lock it before the start commits
  (`StartsOnLockedGate`). The same holds of an abort and of a receipt's outcome whose gate is already in place. A start
  or an abort is safe in every interleaving if and only if the gate it reads is one it writes: neither moving nor at the
  directive's target for a start, not locked for an abort (`MoveIsSafeIff`). An outcome is safe if and only if the gate
  it reads is not yet at its goal (`OutcomeIsSafeIff`).
- A run whose committed requests all guard what they read is serial (`GuardedRunIsSerial`).
- A directive whose receipt is deleted before it is confirmed can never be completed and never gets another receipt; it
  can only be aborted (`DeletedReceiptBlocks`).
- `Delete` compares no version. A directive submitted after the draft check is deleted while pending
  (`DeleteReachesPendingDirective`). A deletion reaches a draft, or a pending receipt, if and only if no transition of
  that row committed since it was read (`DeletionReachesInitialIff`). Deletion is nevertheless final, and logged once.
- The approver's name is whatever the actor is. An empty actor passes the service's two-person check and leaves the
  approver unnamed (`UnnamedApproverPasses`, `ApproverNamedIff`). Only a direct call of the service can do that: the
  authentication in front of it refuses an empty user name (`backend/internal/middleware/auth.go:57-59`). With named
  actors both signatures are named (`BothSignersNamed`).
- The check for an existing receipt misses soft-deleted receipts and receipts created after it ran. Only the unique
  index on the link closes the race (`ReceiptCreatedIffUnused`, `OneReceiptEver`).
- The approval trail is ordered by time, so a clock that runs backwards turns it round; `TrailInOrderIff` says exactly when.
- The local rate counter is exact for a clock that does not run backwards. For any clock it is exact if and only if,
  since the key's first call in the minute, the key was not called in another minute and no call of a later minute
  cleaned the map; otherwise it is too small (`CountIsExactIff`, `BackwardClockForgets`).

## Model

| member | source | states |
|---|---|---|
| Text.NormIdempotent | backend/internal/repository/base.go:74-78 | Trimming and upper-casing a code twice is doing it once, so a stored code is found again by the same normalisation |
| Text.UpperOfLetter | backend/internal/repository/base.go:74-78 | Each letter of the alphabet upper-cases to its own capital, and a capital is kept |
| Text.UpperOfOther | backend/internal/repository/base.go:74-78 | Every other character is kept |
| Text.NormIsTrimmedUpper | backend/internal/service/operation_directive.go:58-60 | A stored code is the given one without its outer blanks, letter by letter the same, with no small letter left |
| Text.TrimSpaceCuts | backend/internal/service/operation_directive.go:58-68 | Trimming cuts nothing but blanks off the two ends, and all of them |
| Text.EqualFoldIff | backend/internal/service/operation_directive.go:160-164 | Two names are equal under case folding if and only if they have the same letters in the same places, up to case |
| Status.EdgesWritten | backend/internal/constants/status.go:37-63 | The three transition graphs have exactly the edges written out pair by pair |
| Refusals.AnsweredIff | backend/internal/service/operation_directive.go:125-204 | Every one of the twelve requests, alone in any reachable state, is answered with success if and only if the stored rows meet its written-out condition, and with an error if and only if that error's written-out reason holds |
| Acceptance.ServedIff | backend/internal/service/execution_confirmation.go:123-199 | The success half: when a transition, edit, creation or deletion is served |
| Acceptance.ServedEffect | backend/internal/service/execution_confirmation.go:164-194 | And what it then makes of every table and log |
| Effects.CommittedEffect | backend/internal/service/operation_directive.go:165-199 | In any interleaving of honest clients, a committed request makes of the state at its commit what the reference says, column by column: new rows, edited columns, signatures, records, linked rows and entries |
| Signers.SignatureHasSigner | backend/internal/service/execution_confirmation.go:135-138 | Every signature in every state is the name and time of the request that put it there, or was there at the start |
| Signers.ConfirmedByRequester | backend/internal/service/execution_confirmation.go:135-138 | The confirmer and time of a receipt confirmed since the start are those of the request that confirmed it |
| Signers.SubmittedByRequester | backend/internal/service/operation_directive.go:169-173 | The submitter and time of a directive submitted since the start are those of the request that submitted it |
| Signers.ApprovedByRequester | backend/internal/service/operation_directive.go:175-179 | The approver and time of a directive approved since the start are those of the request that approved it |
| Model.FindByCode | backend/internal/repository/base.go:74-78 | A read by code returns a live row carrying it with its key, and nothing only when no live row carries it |
| Transactions.CommitKeepsIndexes | backend/internal/model/execution_confirmation.go:18 | Every committed transaction keeps codes, receipt links and approval stages unique, soft-deleted rows counted |
| Transactions.ResolvesTo | backend/internal/repository/base.go:74-78 | The code of a live row resolves to that row and no other |
| Store.Database.Yield | backend/internal/repository/base.go:36-44 | Other sessions' transactions commit or fail one by one; the history only grows and none of it is counted as this session's |
| Store.Database.GetGate | backend/internal/repository/base.go:68-72 | A read by key returns the live row of a state current at the read, or nothing |
| Store.Database.GetDirective | backend/internal/repository/operation_directive.go:45-51 | A read by key returns the live row of a state current at the read, or nothing; its approvals are read by GetTrail |
| Store.Database.GetTrail | backend/internal/repository/operation_directive.go:47-49 | The approvals loaded with a directive are its records ordered by time, and by key where times are equal |
| Store.Database.GetReceipt | backend/internal/repository/base.go:68-72 | A read by key returns the live row of a state current at the read, or nothing |
| Store.Database.Lookup | backend/internal/repository/base.go:74-78 | The scan returns the live row carrying the code, and nothing exactly when there is none |
| Store.Database.GetGateByCode | backend/internal/repository/base.go:74-78 | A gate is looked up by its normalised code in one state |
| Store.Database.GetDirectiveByCode | backend/internal/repository/operation_directive.go:52-58 | A directive is resolved by code in one state and read by key in a possibly later one |
| Store.Database.CountByDirectiveCode | backend/internal/repository/execution_confirmation.go:54-59 | The count is the number of live receipts carrying the normalised code, and positive exactly when there is one |
| Store.Database.Begin | backend/internal/repository/base.go:37-44 | Opening a transaction, or one inside another, remembers the state to return to and changes nothing else |
| Store.Database.End | backend/internal/repository/base.go:37-44 | An error returns to where the innermost transaction began, success keeps its writes, and only the outermost one commits |
| Store.Database.ExecGate | backend/internal/repository/base.go:80-121 | Insert, compare-and-set overwrite and soft delete of a gate: the new table, or the error with the table as it was |
| Store.Database.ExecDirective | backend/internal/repository/base.go:80-121 | The same for a directive |
| Store.Database.ExecReceipt | backend/internal/repository/base.go:80-121 | The same for a receipt, with the second unique index on the linked directive's code |
| Store.Database.AppendApproval | backend/internal/repository/operation_directive.go:70-75 | An approval record is appended unless its directive already has one of that stage |
| Store.Database.AppendAudit | backend/internal/repository/security.go:43-45 | An entry is appended, or on an I/O failure the log is as it was |
| Store.Database.SaveGate | backend/internal/repository/base.go:103-110 | A gate statement and its entry are committed together, or neither tables, history nor logs change |
| Store.Database.SaveDirective | backend/internal/service/operation_directive.go:114-121 | A directive statement and its entry are committed together, or nothing changes |
| Store.Database.SaveReceipt | backend/internal/service/execution_confirmation.go:70-77 | A receipt statement and its entry are committed together, or nothing changes |
| GateService.GateUnitService.Create | backend/internal/service/gate_unit.go:43-74 | One creation request of the protocol is served among other sessions' commits; the answer is the stored row or the request's refusal |
| GateService.GateUnitService.Update | backend/internal/service/gate_unit.go:76-116 | One update request is served; the answer is the row read again or the refusal |
| GateService.GateUnitService.Transition | backend/internal/service/gate_unit.go:118-137 | One transition request is served; the answer is the row read again or the refusal |
| GateService.GateUnitService.Delete | backend/internal/service/gate_unit.go:139-150 | One deletion request is served; no error exactly when it committed, else its refusal |
| DirectiveService.OperationDirectiveService.Create | backend/internal/service/operation_directive.go:43-78 | One creation request is served; the answer is the stored row or the refusal |
| DirectiveService.OperationDirectiveService.Update | backend/internal/service/operation_directive.go:80-123 | One update request, allowed in draft only, is served; the answer is the row read again or the refusal |
| DirectiveService.OperationDirectiveService.Delete | backend/internal/service/operation_directive.go:206-220 | One deletion request is served; no error exactly when it committed, else its refusal |
| DirectiveService.OperationDirectiveService.TransitionWithApproval | backend/internal/repository/operation_directive.go:65-78 | The nested transaction writes row, approval and entry, or returns every table and log to where it began, with the first error |
| DirectiveService.OperationDirectiveService.RecordTransition | backend/internal/service/operation_directive.go:185-202 | Directive, approval, gate and entries are committed as one state, or a fault or conflict at any statement leaves everything as it was |
| DirectiveService.OperationDirectiveService.Decide | backend/internal/service/operation_directive.go:125-184 | The step-by-step checks and assignments ask for the transaction, or give the error, that the protocol prescribes |
| DirectiveService.OperationDirectiveService.PrepareTransition | backend/internal/service/operation_directive.go:125-184 | The reads and checks write nothing and plan the protocol's transaction; the gate is read only when it is reached |
| DirectiveService.OperationDirectiveService.Transition | backend/internal/service/operation_directive.go:125-204 | One transition request is served under any interleaving and any faults; the answer is the row read again or the refusal |
| ReceiptService.ExecutionConfirmationService.Create | backend/internal/service/execution_confirmation.go:44-79 | One creation request is served; the answer is the stored row or the refusal |
| ReceiptService.ExecutionConfirmationService.Update | backend/internal/service/execution_confirmation.go:81-121 | One update request, allowed while pending, is served; the answer is the row read again or the refusal |
| ReceiptService.ExecutionConfirmationService.Delete | backend/internal/service/execution_confirmation.go:201-215 | One deletion request is served; no error exactly when it committed, else its refusal |
| ReceiptService.ExecutionConfirmationService.WriteOutcome | backend/internal/service/execution_confirmation.go:164-195 | The statements in order: all three tables and the log hold the outcome, or the first error is returned |
| ReceiptService.ExecutionConfirmationService.RecordOutcome | backend/internal/service/execution_confirmation.go:164-197 | Receipt, directive, gate and their entries are committed as one state, or a fault or conflict anywhere leaves everything as it was |
| ReceiptService.ExecutionConfirmationService.Decide | backend/internal/service/execution_confirmation.go:128-194 | The checks and the changes to three rows ask for the transaction, or give the error, that the protocol prescribes |
| ReceiptService.ExecutionConfirmationService.PrepareTransition | backend/internal/service/execution_confirmation.go:123-162 | The reads and checks write nothing and plan the protocol's transaction; directive and gate are read only from pending |
| ReceiptService.ExecutionConfirmationService.Transition | backend/internal/service/execution_confirmation.go:123-199 | One transition request is served under any interleaving and any faults; the answer is the row read again or the refusal |
| Sessions.CallsKeepRunsSound | backend/internal/service/execution_confirmation.go:164-199 | A service call among other sessions whose script is made of requests leaves a history that is a run of honest clients, with all invariants |
| Atomicity.NestingIsFlat | backend/internal/repository/base.go:37-44 | Transactions and joins nested in any way succeed exactly when their statements in order do, with the same state or first error |
| Atomicity.Execute | backend/internal/repository/base.go:30-44 | Running a body on the stored tables, opening, joining and ending nested transactions, has the meaning given to it |
| Atomicity.WithinTransaction | backend/internal/repository/security.go:106-108 | A whole request transaction commits the flat effect of its statements as one state, or on the first error leaves tables and history as they were |
| Atomicity.FailureLeavesHalf | backend/internal/repository/operation_directive.go:65-78 | Inside an open transaction a failing body leaves its first half behind unless it has a savepoint of its own |
| Atomicity.DirectiveCommitIsNested | backend/internal/service/operation_directive.go:185-202 | The nested statements of a directive's transition amount to the protocol's one-step commit, error for error |
| Atomicity.OutcomeCommitIsNested | backend/internal/service/execution_confirmation.go:164-197 | The statements of a receipt's outcome amount to the protocol's one-step commit, error for error |
| Evolution.PlanIsShaped | backend/internal/repository/base.go:88-99 | Whatever was read, every planned write advances the version by one and its entry names the row, kind and new status |
| Evolution.RunIsOrdered | backend/internal/repository/base.go:88-121 | In every run, whatever clients send: no row is lost, codes never change, a row changes only with its version, deleted rows never change, logs only grow |
| Evolution.LookupStable | backend/internal/repository/base.go:74-78 | A code that resolved to a row resolves to the same key as long as that row lives |
| OptimisticLock.OwnRowUnchangedIff | backend/internal/repository/base.go:88-99 | For a committed update or transition the row read is the row at commit if and only if the version sent is the version read |
| OptimisticLock.ShownIsRead | backend/internal/service/execution_confirmation.go:139-165 | A version that was shown suffices: the row read is the row at commit |
| OptimisticLock.ReadsSettleAtCommit | backend/internal/service/operation_directive.go:125-204 | Refinement: a committed create, update or transition asks for exactly the transaction it would plan had it read every row it writes at commit time |
| Grounding.DirectiveTransitionGrounded | backend/internal/service/operation_directive.go:160-199 | On current rows, a directive's transition follows the graph, signs what it must and leaves business columns alone |
| Grounding.ReceiptTransitionGrounded | backend/internal/service/execution_confirmation.go:123-194 | On current rows, a receipt's outcome and its directive's move always come together and follow both graphs |
| Reachability.StepIsGrounded | backend/internal/service/execution_confirmation.go:164-197 | Every transaction an honest client commits, in any interleaving, is grounded in the state it commits on |
| Reachability.StepKeeps | backend/internal/service/execution_confirmation.go:164-197 | Each step keeps agreement, evidence, journal, copied columns and the freezing of directives |
| Reachability.RunIsSound | backend/internal/service/operation_directive.go:125-204 | Every state of every run of honest clients satisfies all invariants |
| Agreement.AgreementKept | backend/internal/service/execution_confirmation.go:142-195 | A grounded commit keeps receipts and directives in agreement, soft-deleted rows included |
| Outcomes.CompletedIffConfirmed | backend/internal/service/execution_confirmation.go:142-195 | In every state a directive is completed exactly when its receipt is confirmed; failed or cancelled implies aborted; pending implies executing or aborted; at most one receipt |
| Outcomes.ReceiptCreatedIffUnused | backend/internal/service/execution_confirmation.go:44-79 | A creation whose checks passed commits if and only if its key, code and link are unused at commit, soft-deleted receipts counted |
| Outcomes.LinkStays | backend/internal/service/execution_confirmation.go:92-109 | A stored receipt's link never changes |
| Outcomes.OneReceiptEver | backend/internal/model/execution_confirmation.go:18 | Of two creations for one directive at most one commits, even if both passed the check first or the earlier receipt was deleted |
| Outcomes.DeletedReceiptBlocks | backend/internal/service/execution_confirmation.go:201-215 | A directive whose receipt was deleted before confirmation is executing or aborted for ever and never gets another receipt |
| Outcomes.SingleOutcome | backend/internal/service/execution_confirmation.go:164-197 | Of any aborts, confirmations and failures racing on one executing directive at most one commits; a loser changes no table and no log |
| Outcomes.FrozenAfterDraft | backend/internal/service/operation_directive.go:85-112 | Once out of draft, a directive's business columns, target gate state and gate link never change, despite full-row rewrites by two services |
| Outcomes.ReceiptColumnsAgree | backend/internal/service/execution_confirmation.go:64-69 | A receipt not listed in `except` carries its directive's facility, category and risk level in every state |
| Races.ReceiptColumnsAgreeIff | backend/internal/service/execution_confirmation.go:99-109 | For any receipt in any state: its columns agree if and only if they did at the start, or it was created since, or an update of it has committed |
| Outcomes.AuditReplays | backend/internal/service/execution_confirmation.go:164-194 | Replaying the audit entries that name a row gives its stored status, version and deletion mark, whichever services wrote it |
| Journal.EntriesChain | backend/internal/repository/base.go:103-110 | Every update entry starts at the status where the previous entry of its row ended and follows the graph; a delete entry may carry a status read earlier |
| Journal.VersionIsCount | backend/internal/repository/base.go:88-98 | A row's version is its starting version plus the number of its entries other than create and delete |
| Journal.DeletedOnce | backend/internal/repository/base.go:112-121 | A row deleted since the start has exactly one delete entry, any other row none |
| Journal.MovesSpendRank | backend/internal/constants/status.go:44-58 | Every status change of a directive or receipt spends rank that is never regained |
| Outcomes.EntriesAccounted | backend/internal/service/operation_directive.go:181-199 | In every state: version conservation, one delete entry exactly for deleted rows, at most four status changes of a directive and two of a receipt |
| Outcomes.EveryHistoryIsWalk | backend/internal/constants/status.go:37-63 | From each state of a run to the next every row stays or follows an edge of its graph, across all writers |
| Outcomes.GateNext | backend/internal/constants/status.go:37-42 | In every run a gate that changes goes from open or closed to moving or locked, from moving to open, closed or locked, and from locked to closed only |
| Outcomes.DirectiveNext | backend/internal/constants/status.go:44-51 | A directive goes from draft to pending to approved to executing to completed, or from any of these but draft to aborted; completed and aborted are final |
| Outcomes.ReceiptNext | backend/internal/constants/status.go:53-58 | A receipt goes from pending to confirmed or failed and from failed to cancelled; confirmed and cancelled are final |
| Outcomes.GateOpensThroughMoving | backend/internal/service/gate_unit.go:118-137 | A gate closed or locked in one state and open in a later one was moving in between |
| Outcomes.DeletionIsFinal | backend/internal/repository/base.go:112-121 | A soft-deleted row never changes again and no later entry names it |
| Outcomes.LinksResolveAlike | backend/internal/repository/base.go:74-92 | Whatever clients send, a gate or directive code resolves for ever to the same key or to nothing |
| Outcomes.CodesStayNormalised | backend/internal/service/operation_directive.go:58-60 | Stored codes are always trimmed and upper-cased, so lookups meet them |
| Evidence.EvidenceKept | backend/internal/service/operation_directive.go:160-184 | A grounded commit keeps every directive's approval evidence in step with its status |
| Validity.RowsStayFilled | backend/internal/service/operation_directive.go:43-68 | Whatever clients send, in every state every row has a code, facility, name and owner that are not blank, and every directive a target gate state |
| Validity.SignaturesStamped | backend/internal/service/operation_directive.go:165-180 | In every state a submission time goes with having left draft, an approval time with approval, a confirmation time and confirmer with a confirmed receipt |
| Validity.EntriesNameTheRequester | backend/internal/service/security.go:59-74 | Each request adds at most three entries, in its own actor's name, or "system" when it has none, and at its time or the time read when the entry is written; only the services' own transition entries can be without a name |
| Races.EveryMoveHasAnAuthor | backend/internal/service/operation_directive.go:125-204 | Every status change of a directive, in any interleaving, is a committed transition of that directive to that status by someone in a role that allows it, or the outcome of a receipt linked to it |
| Validity.GateLinkResolvesAsChecked | backend/internal/service/operation_directive.go:47-53 | A directive's stored gate link was checked against an unlocked gate of its facility and from then on resolves to that gate's key or to nothing |
| Validity.ReceiptLinkResolvesAsChecked | backend/internal/service/execution_confirmation.go:48-69 | A receipt's stored link was checked against an executing directive, stays, and resolves for ever to that directive's key or to nothing |
| Signatures.TwoPersonEvidence | backend/internal/service/operation_directive.go:160-184 | An approved, executing or completed directive has exactly one submission and one approval record, with matching actors, roles and states, and no account name is, in any casing, behind both |
| Signatures.EarlyEvidence | backend/internal/service/operation_directive.go:169-179 | A draft has no record and a pending directive exactly its submission |
| Signatures.RecordsAscend | backend/internal/service/operation_directive.go:166-180 | With a clock that does not run backwards, a submission record precedes the approval record and is no later |
| Trail.TwoLoaded | backend/internal/repository/operation_directive.go:47-49 | Two records are loaded in the order of their times, or of their keys where the times are equal |
| Signatures.TrailInOrderIff | backend/internal/repository/operation_directive.go:45-51 | Whatever the clocks said, the trail is submission then approval exactly when the submission's time is earlier, or equal with the smaller key; else it is turned round |
| Signatures.LoadedInOrder | backend/internal/repository/operation_directive.go:45-51 | With a clock that does not run backwards, the trail loaded with a directive is its submission followed by its approval |
| Signatures.ApproverNamedIff | backend/internal/service/operation_directive.go:160-180 | The approver and the approval record are named exactly when the actor is |
| Signatures.UnnamedApproverPasses | backend/internal/service/operation_directive.go:160-164 | An empty actor in the reviewer role passes the two-person check |
| Signatures.BothSignersNamed | backend/internal/service/operation_directive.go:160-184 | With named actors, both signatures of an approved, executing or completed directive are named and differ under case folding |
| Dispatch.SerialTransitionGate | backend/internal/service/operation_directive.go:140-199 | Served alone, a start leaves the gate unlocked and moving or at the target; an abort while executing leaves it locked |
| Dispatch.StartMovesGateIff | backend/internal/service/operation_directive.go:150-158 | A start leaves the gate moving if and only if it was not at the directive's target or was moving already |
| Dispatch.SerialOutcomeGate | backend/internal/service/execution_confirmation.go:145-194 | Served alone, a confirmation completes the directive with the gate at its target; a failure aborts it with the gate locked |
| Dispatch.InterleavedTransitionGate | backend/internal/service/operation_directive.go:189-199 | In any interleaving a directive's transition that writes a gate writes the one linked at commit and sets it moving, or locked on abort; those that write none are the subject of MoveIsSafeIff |
| Dispatch.InterleavedOutcomeGate | backend/internal/service/execution_confirmation.go:184-194 | In any interleaving a receipt's outcome that writes a gate leaves the gate linked at commit at the target, or locked on failure; those that write none are the subject of OutcomeIsSafeIff |
| GateRaces.MoveIsSafeIff | backend/internal/service/operation_directive.go:140-199 | A start leaves its gate unlocked and moving or at the target, and an abort while executing leaves it locked, in every interleaving if and only if the gate read is one the transition writes |
| GateRaces.MovedUnderTransition | backend/internal/service/operation_directive.go:189-191 | From any state, a start that writes no gate can commit on a gate locked since it was read, and such an abort on one unlocked since |
| GateRaces.OutcomeIsSafeIff | backend/internal/service/execution_confirmation.go:154-194 | A confirmation or failure leaves its gate at its goal in every interleaving if and only if the gate read is not there already |
| GateRaces.MovedUnderOutcome | backend/internal/service/execution_confirmation.go:184-186 | From any state, an outcome that writes no gate can commit, with its directive, on a gate moved away since it was read |
| Serial.GuardedRunIsSerial | backend/internal/repository/base.go:84-99 | An honest run whose committed requests all guard what they read is, state for state, the serial run of the same requests, each served alone at its commit |
| Dispatch.CanAbort | backend/internal/service/operation_directive.go:142-159 | A live executing directive with a live gate can be aborted at its current version |
| Dispatch.CanSettleIff | backend/internal/service/execution_confirmation.go:145-162 | A pending receipt of an executing directive can be settled if and only if the gate is, or may move, where the outcome puts it |
| Dispatch.CanFailAndConfirm | backend/internal/service/execution_confirmation.go:145-162 | So it can always be failed, and confirmed while the gate is moving |
| Witnesses.EmptyStarts | backend/internal/database/database.go:162-166 | The empty database is a start of runs |
| Witnesses.SeedStarts | backend/internal/database/database.go:162-239 | The seeded database is one too, its receipt's category aside, which is not its directive's |
| Witnesses.SeedFilled | backend/internal/database/database.go:162-239 | The seeded rows, with their names and owners, have their required columns |
| Witnesses.SeedStamped | backend/internal/database/database.go:188-239 | The seeded signatures have their times |
| Witnesses.UnshownVersionOpensClosedGate | backend/internal/service/gate_unit.go:118-137 | A run in which a version never shown takes a gate from closed to open without moving and breaks the journal |
| Races.DeletionReachesInitialIff | backend/internal/service/operation_directive.go:206-220 | A committed deletion of a directive deletes a draft, and one of a receipt a pending receipt, if and only if no transition of that row committed since the request read it |
| Races.LeavesInitialIff | backend/internal/service/execution_confirmation.go:201-215 | A row leaves its initial status exactly by a committed transition of its own |
| Races.EveryStateStarts | backend/internal/service/operation_directive.go:125-204 | Every state of a run is itself a start of runs, so what is proved of starts holds of every reachable state |
| Witnesses.DeleteReachesPendingDirective | backend/internal/service/operation_directive.go:206-220 | A run of honest clients in which a pending directive is deleted |
| Witnesses.StartsOnLockedGate | backend/internal/service/operation_directive.go:147-158 | A run of honest clients in which a directive starts on a gate locked after it was read |
| RateLimiter.Limiter.CleanupLocal | backend/internal/middleware/ratelimit.go:85-94 | The deletion loop drops exactly the buckets of past minutes, and only from a map of 512 or more |
| RateLimiter.Limiter.IncrementLocal | backend/internal/middleware/ratelimit.go:71-83 | For any clock the map is the one the calls determine; with a monotone clock the result is the number of calls for the key in the current minute, and the map stays within its bound |
| RateLimiter.Limiter.Admit | backend/internal/middleware/ratelimit.go:37-55 | One request is counted by Redis, or by the local map when that fails, and admitted exactly within the limit; the client is told what is left of the quota, the turn of the minute and, when refused, how long to wait |
| RateLimiter.CallRecorded | backend/internal/middleware/ratelimit.go:71-94 | Lazy cleanup and bucket reset are unobservable: the new bucket is the plain count, and every bucket stays exact |
| RateLimiter.TableBounded | backend/internal/middleware/ratelimit.go:71-94 | After every call the map has at most 512 entries or at most as many as keys were seen in the current minute |
| RateLimiter.OneBackendBound | backend/internal/middleware/ratelimit.go:37-69 | Any half-open minute admits at most twice the limit through one backend |
| RateLimiter.FallbackBound | backend/internal/middleware/ratelimit.go:37-83 | Any half-open minute admits at most four times the limit when requests fall back at any point |
| RateLimiter.BoundsAttained | backend/internal/middleware/ratelimit.go:37-83 | Both bounds are reached for every limit |
| RateLimiter.WorstMinute | backend/internal/middleware/ratelimit.go:37-83 | And by a run of the limiter itself |
| RateLimiter.CountIsExactIff | backend/internal/middleware/ratelimit.go:71-94 | For any clock the count is exact, and otherwise too small, if and only if nothing was forgotten since the key's first call in the minute |
| RateLimiter.BackwardClockForgets | backend/internal/middleware/ratelimit.go:76-82 | When the clock steps back over a minute and forward again, the second call of a minute is counted as the first |

## Left out

- Handlers, routing, tokens, passwords, configuration, the frontend: plumbing around the protocol; a request keeps its actor, role, request id and expected version.
- The reservoir service: the same locking with no effect on other tables; its answer to the gate service is a parameter.
- Paging, search, status counts and audit summaries: SQL outside the protocol.
- Reasons and audit details: free text that no check reads; name, owner, description, evidence, metrics and dates are carried as one payload so that full-row rewrites still mean something.
- Creation and update timestamps of rows: overwritten or set on every write and read by nothing here.
- Wrap-around of the unsigned version: versions are natural numbers.
- Text.NormIdempotent: does not model text outside ASCII, because the cited code folds case by Unicode tables.
- Text outside ASCII: case folding and white space are modelled for ASCII letters and blanks.
- The internals of GORM, SQL and Redis: atomic transactions, compare-and-set, unique indexes, savepoints and an atomic increment are taken as given.
- Failures of reads: a read that fails on I/O ends the request before its transaction, like a row not found.
- The key the database allocates is any unused one, rather than the next of a sequence.
- The rate limiter's mutex: calls are taken one at a time.
