# Aegis: verified models of its evidence and control paths

This project models four parts of the Aegis repository in Dafny and proves what they keep over every run. Each
part is written twice: once as functions on values, about which the theorems are proved, and once in the source's
own form (classes whose methods assign fields, loops that update variables), proved equal to the functions.

**The governed task protocol** (`json`, `security`, `policies`, `assessments`, `tasks`, `service`,
`task_invariants`, `task_protocol`, `effects`, `scenarios`, `audit_replay`, `lease_progress`, `worker`, `audit_chain`). One
workspace's tables, and each service call as one transaction: it gives a new state or a refusal that leaves the old one.
Requesters create tasks, approvers decide them, a safety switch blocks them, connectors lease, renew and complete
them, and an audit chain records them. The main results: governed work is always authorized; nothing runs while the
workspace is restricted; each call succeeds exactly under conditions stated on the rows, and changes exactly the rows
named; a denied row is never leased; final statuses are final; a lease is completable or reclaimable but never both; a stale token
never works again; the audit events alone rebuild every status; every result that is stored is the one that was
validated, and answers its row's own grant; undisturbed lease calls reach the work there is; the tenant's chain never forks, however stale the
snapshots that sessions append from.

**Single-use clearances** (`filelock`, `clearance`). Any number of processes, in any interleaving, with a crash
possible at every step, race on one pruned nonce ledger under a lock. The bound on clock disorder under which no
nonce is accepted twice is proved exact, and a ledger that cannot be read is never consumed, recorded in or replaced.

**The blue-team store and engine** (`values`, `rules`, `timestamps`, `correlation`, `evidence_store`, `detection`).
The correlation table, suppressions, sensor rows and audit chain of the store agree at all times with simple
specifications over everything that was ever ingested; the engine's loop raises exactly the alerts of the rules that
fire on the store as it was before the event: those of which the event meets every condition, with each operator stated
on the event's own fields.

**Ledger, limiter and scheduler** (`canonical`, `ledger`, `rate_limiter`, `capacity`). The green team's normalization
is idempotent, accepts exactly the values no part of which is out of bounds, and its hash-chained ledger reads back what was appended; the operator rate limiter's bound is exact;
the capacity probe's cooperative workers account for every request under every schedule, and count as failures exactly those that failed.

## What turned out to differ from the documentation or the evident intent

- A work order may list a target or team whose id is a falsy value such as `0` or `null`. Creation accepts it; the
  completion check then expects no report for it. A succeeded assessment reports a permutation of its targets if and
  only if all their ids are truthy (`AssessmentAccounting`), and a run ends in
  one that reports one of two (`DroppedTargetRun`).
- `decide_task` marks an expired approval and rejects its task before it raises, but the transaction takes both writes
  back: such a task stays open (`ExpiredStaysOpen`).
- `decide_task` reads the clock once for the deadline and once more for the stamp, so a stored decision time may lie
  past the expiry (`StampAfterDeadline`).
- Entering a restricted or halted mode clears a running row's deadline but leaves its lease token's digest
  (`BlockingKeepsDigest`); over any further run the row can still neither be completed nor renewed
  (`BlockedLeaseIsOver`).
- Only critical actions need an approver other than the requester (`RequesterRefusedExactly`); a run ends in a
  high-risk row that its own requester approved (`RequesterApprovesHighRisk`).
- The clearance ledger is replay-safe exactly while the clock runs back, in lock order, by no more than the retention
  time less the lifetime (`ReplaySafeExactly`). Beyond the typed refusals its comments call for, a
  ledger whose bytes do not decode, and a used nonce whose record has no `at` at all, are refused with an untyped error
  (`UntypedExactly`); nothing is accepted then either (`MeetsUntimedRecord`, `UntimedNeverAccepted`).
- `verify_audit` accepts every truncation of a chain; the blue store's remembered count and head accept one table only
  (`TruncationVerifies`, `RememberedHeadIsTight`).
- Stored timestamp texts do not sort as time within one second when only one of two instants has a fraction
  (`TextOrder`); window membership differs from time exactly there (`StoredWindowIsTrueWindow`).
- So the correlation window is not the window over the full history even when events arrive in time order: a pass
  whose window starts on a whole second deletes hits with a fraction in that second, which lie in that window and in
  the next one's (`TimeOrderMissesHit`). In time order the reply is the full-history window if and only if no hit was
  clipped in this way (`InTimeOrderExactly`).
- `Ledger.append` accepts a payload whose line the reader then refuses because of its size, and it continues an
  unfinished last line (`AppendRoundTrip`, with a case of each in `OversizedAppendBreaks` and `UnfinishedLineBreaks`).
  The file it leaves then ends with a newline, nothing can be read or appended any more, and no further line mends it
  (`BrokenForGood`).
- The limiter reads its clock before it takes its lock, so ten requests per sixty seconds weakens to ten in sixty
  seconds less the clock's disorder, and no better bound holds (`TenPerWindowExactly`).

## Model

| member | source | states |
|---|---|---|
| Security.ScrubStorable | mission-control/aegis_platform/security.py:42-58 | whatever comes in, what `scrub` returns is bounded in text, lists, mappings and nesting and holds no credential-shaped value |
| Security.ScrubIdempotent | mission-control/aegis_platform/security.py:42-58 | a second scrub changes nothing, and the values that pass through unchanged are exactly the storable ones |
| Security.ScrubGet | mission-control/aegis_platform/security.py:42-58 | under an ordinary key a scrubbed dict holds the scrubbed last value given for it |
| Security.ScrubRedacts | mission-control/aegis_platform/security.py:46-53 | under a key that reads as a credential the last value given is replaced by the marker, and by nothing else |
| Security.ScrubLeaf | mission-control/aegis_platform/security.py:42-58 | a text loses its NULs and what lies past 4000 characters, a scalar stays, and past the sixth level there is a marker |
| Security.ScrubList | mission-control/aegis_platform/security.py:54-55 | a list keeps its first hundred items, each scrubbed one level down |
| Security.DropNulConcat | mission-control/aegis_platform/security.py:56-57 | text is scrubbed piece by piece, so every character but NUL is kept, in order |
| Security.ScrubValue | mission-control/aegis_platform/security.py:42-58 | the loop that fills a dict and the list comprehension compute the scrub function |
| Assessments.ChosenCount | mission-control/aegis_platform/service.py:779-805 | a set of chosen texts as large as its list means every item was chosen and no text repeats |
| Assessments.AuthorizedDistinct | mission-control/aegis_platform/service.py:353-378 | every target and team of an accepted work order has an id, and no two ids read the same |
| Assessments.WorkOrderExactly | mission-control/aegis_platform/service.py:351-386 | the payload of a gate run, an assessment or an analysis is accepted if and only if it names its gate, lists uniquely identified targets and teams, or describes its evidence |
| Assessments.AccountedExactly | mission-control/aegis_platform/service.py:779-805 | equal sets and equal lengths make the reports a permutation of what was authorized exactly when nothing was filtered out |
| Assessments.AssessmentAccounting | mission-control/aegis_platform/service.py:776-812 | a succeeded assessment reports no target or team twice, all completed, and a permutation of the authorized ones if and only if their ids are truthy |
| Scenarios.DroppedTargetRun | mission-control/aegis_platform/service.py:353-899 | a run of calls at whose end a succeeded assessment on two targets holds a result that reports one of them |
| Tasks.ReportedAgents | mission-control/aegis_platform/service.py:553-577 | stored agent rows keep their connector and external id, every changed or new row holds a report's capabilities as far as the connector holds them, and every report has its row |
| Tasks.PendingApproval | mission-control/aegis_platform/service.py:500-508 | the row found is the first pending approval of that row's task, and none is missed |
| Service.Workspace.CheckOrder | mission-control/aegis_platform/service.py:343-432 | what passes is a listed action of a permitted role in an open workspace; a live run of an action that wants a dry run has a succeeded one of the same action; the connector is live and capable |
| Service.Workspace.CreateTask | mission-control/aegis_platform/service.py:331-484 | a workspace that service calls lead to stays one; the new workspace or the refusal is the specification's, and a refusal changes nothing |
| Effects.CatalogExactly | mission-control/aegis_platform/policies.py:66-88 | every listed action needs the capability of its own name; which actions need approval, a dry run first, which cannot be reversed and how risky each is |
| Effects.CreateExactly | mission-control/aegis_platform/service.py:331-432 | an order is accepted if and only if the caller may create in an open workspace, the payload is in order, a critical live run names a succeeded dry run of its action, and connector, agent and program are there and hold the capability |
| Effects.CreateEffects | mission-control/aegis_platform/service.py:433-484 | one row is added as ordered, queued or awaiting an approval that expires in a day; no other row moves |
| Effects.CreatedPolicy | mission-control/aegis_platform/service.py:347-350 | the row carries the catalog's terms of its action and a build revision only if that is a commit |
| Effects.CreateRefusals | mission-control/aegis_platform/service.py:343-432 | which orders are denied and which are invalid |
| Effects.AgentRefusals | mission-control/aegis_platform/service.py:413-425 | an agent that is not of the connector makes the order invalid, one without the capability gets it denied |
| Service.Workspace.DecideTask | mission-control/aegis_platform/service.py:487-534 | the new workspace or the refusal is the one that DecideExactly and DecideEffects state of the arguments, with the expired branch rolled back; a refusal changes nothing |
| Effects.DecideExactly | mission-control/aegis_platform/service.py:487-519 | a decision succeeds if and only if the caller may approve, the row awaits approval, its approval has not expired and a critical row has another requester |
| Effects.DecideEffects | mission-control/aegis_platform/service.py:520-534 | an approval queues the row and a denial rejects it; the approval says which, by whom and when; no other row moves |
| Effects.DecideRefusals | mission-control/aegis_platform/service.py:487-519 | a caller without the role, a late decision and the requester of a critical row are denied; a row that awaits no approval is an invalid request |
| Effects.DeniedForever | mission-control/aegis_platform/service.py:520-743 | over any further run a denied row stays rejected and no lease call hands it out |
| Service.Workspace.CreateConnector | mission-control/aegis_platform/service.py:272-303 | the same for provisioning a connector |
| Service.Workspace.RevokeConnector | mission-control/aegis_platform/service.py:306-328 | the same for revoking one |
| Effects.ProvisionExactly | mission-control/aegis_platform/service.py:272-303 | a connector is provisioned if and only if the caller may manage connectors and every capability is known; nothing else but the audit changes |
| Effects.RevokeExactly | mission-control/aegis_platform/service.py:306-328 | the connector is marked revoked, keeps its capabilities, and no other row moves |
| Effects.RevokedForever | mission-control/aegis_platform/service.py:306-328 | over any further run a revoked connector is refused by every connector call |
| Effects.ManageRefusals | mission-control/aegis_platform/service.py:272-328 | other roles are denied; what is not there or not known is an invalid request |
| Service.Workspace.UpdateSafety | mission-control/aegis_platform/service.py:973-1007 | the bulk update blocks exactly the queued and running rows; afterwards nothing runs in a restricted or halted workspace and the switch agrees with the level |
| Effects.SafetyExactly | mission-control/aegis_platform/service.py:973-1007 | the level asked for is stored, the switch is on for a halt only, exactly the queued and running rows of a restricted or halted workspace are blocked, and nothing else moves |
| Service.Workspace.Heartbeat | mission-control/aegis_platform/service.py:537-577 | the loop over reported agents gives the specification's rows; capabilities are intersected with the provisioned ones |
| Effects.HeartbeatEffects | mission-control/aegis_platform/service.py:537-577 | the connector keeps what it held and reports and is known, all of it when it reports none; no other connector, task or approval moves |
| Effects.HeartbeatExactly | mission-control/aegis_platform/service.py:537-577 | a heartbeat is refused exactly to a connector that is not live or when it would store one agent twice |
| Effects.StoredAgentReported | mission-control/aegis_platform/service.py:553-577 | a stored agent takes what its last report says as far as the connector holds it, and one that is not reported stands |
| Effects.StoredAgentOnce | mission-control/aegis_platform/service.py:553-577 | no second row is made for a stored agent |
| Effects.ReachableAgentsUnique | mission-control/aegis_platform/service.py:553-577 | in every reachable workspace a connector has at most one row for each of its agents |
| Service.Workspace.SelectOldestQueued | mission-control/aegis_platform/service.py:643-655 | the row picked is a leasable one that no other leasable row precedes |
| Service.Workspace.LeaseTask | mission-control/aegis_platform/service.py:628-743 | reclaim, pick, recheck and lease give the state that LeaseExactly, LeaseEffects and IncapableIsBlocked state for an admissible pick; a leased row runs under an approval given in time when it needs one, and its grant names exactly the capability of its action, which its connector and the agent it names hold |
| Effects.LeaseExactly | mission-control/aegis_platform/service.py:628-743 | the picked row is leased if and only if its connector holds the capability and its agent, if it names one, is stored, belongs to the connector and holds it too; of the other rows only the connector's expired ones move, back to the queue |
| Effects.IncapableIsBlocked | mission-control/aegis_platform/service.py:656-699 | a picked row whose connector or agent lacks the capability is blocked with that reason, and nothing is issued |
| Effects.LeaseEffects | mission-control/aegis_platform/service.py:700-743 | a leased row runs for one lease time under a fresh secret, with a grant that says what was authorized |
| Effects.LeaseRefused | mission-control/aegis_platform/service.py:628-632 | a connector that is not live is not authenticated; a closed workspace hands out nothing |
| Service.Workspace.RenewLease | mission-control/aegis_platform/service.py:832-861 | renewal gives the state that RenewExactly states, or refuses and changes nothing |
| Effects.RenewExactly | mission-control/aegis_platform/service.py:832-861 | a lease is renewed if and only if it is held under this token, its deadline is still ahead and the workspace is open; its deadline is then a lease time from now, and nothing else moves |
| Effects.RenewRefusals | mission-control/aegis_platform/service.py:832-861 | a connector that is not live is not authenticated; any other refusal is a denial |
| Service.Workspace.CompleteTask | mission-control/aegis_platform/service.py:864-923 | completion gives the state that CompleteExactly and CompleteEffects state, or refuses and changes nothing; a completed row is final, its result answers its own grant and is fit for storage, and exactly one audit event records it |
| Effects.CompleteExactly | mission-control/aegis_platform/service.py:746-893 | a completion succeeds if and only if the lease is held under this token, its deadline has not passed, the result holds the receipt of the row's own grant, and the outcome is in order |
| Effects.CompleteEffects | mission-control/aegis_platform/service.py:893-923 | the row is final as reported, without lease, and holds the scrubbed result; nothing else moves |
| Effects.CompleteRefusals | mission-control/aegis_platform/service.py:864-893 | a connector that is not live is not authenticated; another token and a late report are denied; the rest is invalid |
| TaskInvariants.StepKeeps | mission-control/aegis_platform/service.py:331-1007 | every service call keeps the workspace invariant, and a refused one changes nothing |
| TaskInvariants.ReachableInv | mission-control/aegis_platform/service.py:331-1007 | the invariant holds after every sequence of calls |
| TaskProtocol.GovernedWorkIsAuthorized | mission-control/aegis_platform/service.py:387-399 | in every reachable workspace queued, leased and finished work that needs approval has one whose deadline had not passed when it was checked; critical live work also follows a succeeded critical dry run of the same action with an approval of its own, each given by someone other than its requester |
| TaskProtocol.RequesterRefusedExactly | mission-control/aegis_platform/service.py:518-519 | a requester's own decision in time is refused if and only if the action is critical |
| Scenarios.StampAfterDeadline | mission-control/aegis_platform/service.py:514-523 | a run at whose end an approval is stored with a decision time after its expiry |
| Scenarios.RequesterApprovesHighRisk | mission-control/aegis_platform/service.py:433-534 | a run at whose end a high-risk row is queued under its own requester's approval |
| TaskProtocol.BlockingKeepsDigest | mission-control/aegis_platform/service.py:985-997 | blocking a running row clears its deadline and leaves its token's digest |
| TaskProtocol.BlockedLeaseIsOver | mission-control/aegis_platform/service.py:839-899 | over any further run no token completes or renews a blocked row |
| TaskProtocol.ExpiredStaysOpen | mission-control/aegis_platform/service.py:510-517 | over any run whose decisions come too late, the row stays awaiting approval and its approval pending |
| TaskProtocol.NothingRunsWhileRestricted | mission-control/aegis_platform/service.py:973-1007 | nothing runs while safety is restricted or halted, and the kill switch is on exactly when halted |
| TaskProtocol.LifeCycle | mission-control/aegis_platform/service.py:433-997 | one call moves a status only along the life cycle |
| TaskProtocol.FinalForever | mission-control/aegis_platform/service.py:839-899 | succeeded, failed, rejected and blocked are final over any further run |
| TaskProtocol.LeaseIsCompletableOrReclaimable | mission-control/aegis_platform/service.py:633-642 | a running row has a deadline; at any instant a valid completion succeeds exactly when the next lease call would not reclaim the row |
| TaskProtocol.StaleTokenNeverWorks | mission-control/aegis_platform/service.py:875-899 | once a row was leased again, the earlier token never completes or renews it over any further run |
| TaskProtocol.CapabilitiesShrink | mission-control/aegis_platform/service.py:537-552 | over any run a connector's capabilities only shrink, and a revocation stays |
| AuditReplay.ReplayRebuilds | mission-control/aegis_platform/service.py:467-1006 | in every reachable workspace replaying the audit events in order rebuilds every status, up to a reclaimed lease that still reads as running |
| AuditReplay.CompletesOnce | mission-control/aegis_platform/service.py:893-918 | a row is finished exactly when one audit event records its completion, no row is completed twice, and that event commits to the stored result, which a later scrub leaves as it is |
| AuditReplay.StoredResultAnswersGrant | mission-control/aegis_platform/service.py:753-758 | in every reachable workspace each finished row has a grant, and its stored result holds an execution receipt with that grant's digest |
| AuditReplay.ForeignReceiptChangesNothing | mission-control/aegis_platform/service.py:753-758 | a completion whose receipt is missing or names another digest is refused and changes nothing |
| AuditReplay.SucceededGate | mission-control/aegis_platform/service.py:824-829 | every succeeded gate run stored in a reachable workspace is of the gate that was leased, passed, with return code 0 |
| AuditReplay.SucceededAnalysis | mission-control/aegis_platform/service.py:813-823 | every succeeded analysis stored in a reachable workspace is of the authorized digest, size and media kind |
| AuditReplay.SucceededIsDiagnostic | mission-control/aegis_platform/service.py:804-812 | every succeeded assessment stored in a reachable workspace names its engine and a numeric score, and is marked diagnostic only |
| AuditReplay.SucceededAssessment | mission-control/aegis_platform/service.py:746-812 | the accounting of AssessmentAccounting holds of every succeeded assessment stored in any reachable workspace |
| LeaseProgress.LeaseAdvances | mission-control/aegis_platform/service.py:628-743 | an undisturbed lease call returns the oldest candidate exactly when its connector and the agent it names hold the capability, and otherwise blocks it, so the candidates become fewer |
| LeaseProgress.LeaseReachesWork | mission-control/aegis_platform/service.py:628-743 | while a capable row waits, fewer empty replies in a row than the connector has queued or running rows |
| Worker.GrantPassesWorker | mission-control/aegis_connector/worker.py:61-80 | every grant that a lease issues in a reachable workspace names exactly one capability, held by its connector, and passes the worker's hash, row, action and capability checks |
| Worker.GrantIsNotTransferable | mission-control/aegis_connector/worker.py:61-80 | a running row's grant passes for that row and action only; borrowed, edited or signed for what it does not cover, it is refused |
| Worker.ReceiptSurvives | mission-control/aegis_platform/service.py:753-758 | the receipt's grant digest survives the server's scrub whatever else the result holds |
| Worker.FailureIsNeverLost | mission-control/aegis_connector/client.py:97-116 | a failed run's report, its error text cut to the 4000 characters that the request schema admits, completes the lease if and only if it comes in time and what was sent of the text is not blank |
| AuditChain.Tenant.AppendAudit | mission-control/aegis_platform/audit.py:20-66 | the new event carries the entry, cut to its columns' widths, and the time, links to the organization's head and moves sequence and head on |
| AuditChain.Tenant.VerifyAudit | mission-control/aegis_platform/audit.py:69-94 | the report is ok exactly for a linked chain, and otherwise names the first bad event and the head before it |
| AuditChain.TruncationVerifies | mission-control/aegis_platform/audit.py:69-94 | every prefix of a chain that verifies verifies |
| AuditChain.HeadDeterminesChain | mission-control/aegis_platform/audit.py:69-94 | two chains that verify and end in the same hash are equal |
| AuditChain.UniqueMeansLatest | mission-control/aegis_platform/models.py:451 | a commit that repeats no (organization, sequence) pair was built on the latest head |
| AuditChain.NeverForks | mission-control/aegis_platform/audit.py:30-94 | in every schedule of stale sessions the committed sequences are 1..n, every event links to its predecessor, and the chain verifies with the organization's own head |
| AuditChain.SecondCommitRefused | mission-control/aegis_platform/models.py:451 | of two sessions that appended from one snapshot, the second to commit is refused |
| FileLock.ExclusiveLock | exercise/filelock.py:69-99 | the lock is taken at the first attempt that finds it free, and given up after the attempts the timeout allows |
| Clearance.NonceLedger.PruneEntries | exercise/clearance.py:233-247 | the loop keeps exactly the records that are young enough or cannot be read |
| Clearance.NonceLedger.ConsumeLocked | exercise/clearance.py:286-315 | check, prune, ceiling and rewrite give the file that ConsumeExactly states, or leave it alone |
| Clearance.ConsumeRecords | exercise/clearance.py:286-315 | a consumed nonce is recorded with its time, the ceiling holds, and only records past retention are dropped |
| Clearance.ConsumeExactly | exercise/clearance.py:286-315 | a nonce is consumed if and only if the ledger is absent or readable, does not hold the nonce and has room once old records are dropped; a ledger that is no JSON object is refused as corrupt, a replay and a full ledger as such |
| Clearance.CorruptFailsClosed | exercise/clearance.py:289-304 | in every interleaving that starts on a ledger that does not decode, is not JSON or is no object, nothing is ever accepted or recorded and the file never changes |
| Clearance.UntypedExactly | exercise/clearance.py:289-310 | a refusal is untyped if and only if the ledger's bytes do not decode, or the nonce was used and its record has no time at all |
| Clearance.MeetsUntimedRecord | exercise/clearance.py:306-310 | a process that meets such a record is refused untyped, accepts nothing and leaves the ledger as it was |
| Clearance.UntimedNeverAccepted | exercise/clearance.py:233-310 | a nonce whose record has no readable time is never pruned, and never accepted in any interleaving |
| Clearance.StepKeeps | exercise/clearance.py:250-315 | every step of every process, crashes included, keeps the protocol invariant |
| Clearance.NoDoubleAccept | exercise/clearance.py:196-315 | in every interleaving no nonce is accepted twice while clock readings in lock order run back by at most retention less lifetime |
| Clearance.PassAccepts | exercise/clearance.py:250-315 | undisturbed, a clearance in its window is recorded and accepted when the ledger is absent or readable, does not hold its nonce and has fewer than ten thousand records worth keeping |
| Clearance.DoubleAccept | exercise/clearance.py:215-247 | beyond that bound a concrete run of three processes accepts one nonce twice |
| Clearance.ReplaySafeExactly | exercise/clearance.py:142-315 | replay safety holds for a disorder bound if and only if the bound is at most 6900 seconds, the retention less the lifetime |
| Timestamps.DigitsOrder | blue-team/src/blue_team/models.py:82-85 | zero-padded numbers sort as their values |
| Timestamps.TextOrder | blue-team/src/blue_team/models.py:82-85 | two stored texts sort as their instants except within one second when exactly one has a fraction, and then in reverse |
| Timestamps.StoredOrder | blue-team/src/blue_team/models.py:82-85 | for every calendar that writes later seconds as later dates, the order of the texts is the order StoredBefore used by the store |
| Correlation.TableIsSurvivors | blue-team/src/blue_team/store.py:242-268 | for every order of arrival the table holds exactly the hits that no later-processed event's window evicted |
| Correlation.OneRowPerEvent | blue-team/src/blue_team/store.py:253-256 | the table never holds two rows of one event, whatever times the passes gave it |
| Correlation.MissedExactlyWhenEvicted | blue-team/src/blue_team/store.py:242-268 | the reply misses a hit of its window exactly when some pass since that hit's last one evicted it |
| Correlation.InTimeOrderExactly | blue-team/src/blue_team/store.py:242-268 | when events arrive in time order the reply is the window over the full history if and only if no hit of it has a fraction and an intermediate window's start on its whole second |
| Correlation.InTimeOrderIsTrueWindowExactly | blue-team/src/blue_team/store.py:242-268 | and it is the window in time if and only if, besides, no hit of the history is misplaced by its text at an edge of the last window |
| Correlation.TimeOrderMissesHit | blue-team/src/blue_team/store.py:251-268 | three events in time order whose last reply misses a hit inside its window |
| Correlation.InStoredOrderIsFullHistory | blue-team/src/blue_team/store.py:242-268 | when events arrive in the order of their stored texts the reply is the window over the full history |
| Correlation.StoredWindowIsTrueWindow | blue-team/src/blue_team/store.py:251-267 | membership decided on texts differs from membership in time exactly for hits in the same second as an edge with a fraction on one side only |
| Correlation.TrueWindowIsAge | blue-team/src/blue_team/store.py:251-252 | in time, the window holds the hits that are not newer than the event and at most its length older |
| Correlation.NewestIsNewest | blue-team/src/blue_team/store.py:261-268 | the reply is the one sequence that ORDER BY and LIMIT admit |
| Correlation.SelectNewest | blue-team/src/blue_team/store.py:261-268 | taking the latest remaining row while there is room computes that reply |
| Correlation.LimitNeverHidesCrossing | blue-team/src/blue_team/detection.py:293-303 | the limited reply reaches the rule's count exactly when the window does |
| Correlation.ReplySize | blue-team/src/blue_team/store.py:261-268 | the reply is as long as the window unless the limit asked for, kept between one and ten thousand, cuts it |
| EvidenceStore.Store.AppendAudit | blue-team/src/blue_team/store.py:144-169 | one more linked row, remembered in count and head |
| EvidenceStore.Store.AddEvent | blue-team/src/blue_team/store.py:171-219 | a new id is stored with its sensor and its audit row; the same record again is ignored; the same id with another record is refused; neither of the last two changes anything |
| EvidenceStore.Store.SuppressionActive | blue-team/src/blue_team/store.py:231-240 | active exactly while less than the given time has passed since the latest alert of the rule and group |
| EvidenceStore.Store.RecordCorrelationHit | blue-team/src/blue_team/store.py:242-268 | the stored table is the table of the whole history, and the reply the newest part of the last window; an event that was never ingested is refused; a history of stored events under their rules' windows stays one when the call is for such an event and window |
| EvidenceStore.StoredTableIsSurvivors | blue-team/src/blue_team/store.py:242-268 | in every valid store a rule and group's rows are exactly the hits that no later pass evicted |
| EvidenceStore.StoredReplyMisses | blue-team/src/blue_team/store.py:242-268 | in every valid store the window over the rows misses a hit exactly when some pass since that hit's last one evicted it |
| EvidenceStore.StoredReplyInTimeOrder | blue-team/src/blue_team/store.py:242-268 | in every valid store, when a rule and group's events arrived in time order, the window over the rows is the full-history window if and only if no hit of it was clipped |
| EvidenceStore.Store.AddAlert | blue-team/src/blue_team/store.py:270-299 | alert, suppression and audit row together, or nothing |
| EvidenceStore.Store.CreateCase | blue-team/src/blue_team/store.py:349-375 | a case for an existing alert with its severity and a bounded title, and its audit row, or nothing |
| EvidenceStore.Store.VerifyAuditChain | blue-team/src/blue_team/store.py:405-437 | succeeds exactly for a linked chain that agrees with the remembered count and head |
| EvidenceStore.RememberedHeadIsTight | blue-team/src/blue_team/store.py:405-437 | under the metadata of a chain that verifies every other table is rejected: truncations, extensions, edits and reorderings |
| EvidenceStore.UpsertKeeps | blue-team/src/blue_team/store.py:202-217 | each sensor's time and id stay the pair of its first-ingested event with the greatest stored time |
| EvidenceStore.UpsertExactly | blue-team/src/blue_team/store.py:202-217 | the event's sensor was seen now, and takes the event's time and id together when it is new or the event newer; its source and host, and every other sensor, stand |
| EvidenceStore.SensorKeyText | blue-team/src/blue_team/store.py:202 | the key of a sensor is its casefolded source and host with `::` between them |
| EvidenceStore.AuditIsOneToOne | blue-team/src/blue_team/store.py:144-375 | in every valid store the audit rows are the events, alerts and cases together, and exactly one row records each |
| Rules.WalkPath | blue-team/src/blue_team/detection.py:221-230 | a path of at most six parts leads to the end of its chain of nested objects; a longer one, or one without a chain, leads to nothing |
| Rules.FieldExactly | blue-team/src/blue_team/detection.py:220-231 | a field reads the event's own field of that name, or the end of its attribute path |
| Rules.TextConditions | blue-team/src/blue_team/detection.py:244-266 | on a text field: equality, difference, prefix and suffix, with or without regard to case |
| Rules.TextContains | blue-team/src/blue_team/detection.py:253-255 | a text contains another if and only if a slice of it is that text |
| Rules.NumberConditions | blue-team/src/blue_team/detection.py:264-269 | on a number field: the order of the numbers |
| Rules.ListConditions | blue-team/src/blue_team/detection.py:244-269 | membership in a listed value or a listed field is equality with one of the items; the orders refuse booleans |
| Rules.AbsentConditions | blue-team/src/blue_team/detection.py:238-270 | what each operator says of a field that the event does not have |
| Rules.TimestampConditions | blue-team/src/blue_team/detection.py:238-270 | a condition on the raw timestamp holds exactly for a difference or a wanted existence |
| Detection.RaisedFires | blue-team/src/blue_team/detection.py:286-327 | every raised alert is of a rule that fires, with that rule's group, severity and evidence |
| Detection.FiringRaises | blue-team/src/blue_team/detection.py:286-327 | every rule that fires has raised its alert |
| Detection.AlertsExactly | blue-team/src/blue_team/detection.py:272-327 | a rule has raised an alert if and only if it is enabled, the event meets every one of its conditions, enough hits lie in its window and no earlier alert of its rule and group is too recent |
| Detection.FailedConditionSilences | blue-team/src/blue_team/detection.py:272-273 | an event that fails any one condition of a rule raises no alert of that rule |
| Detection.GroupExactly | blue-team/src/blue_team/detection.py:276-292 | a rule's group holds the event's values of the fields it groups by, the threshold's when there is one |
| Detection.EvidenceExactly | blue-team/src/blue_team/detection.py:295-314 | a threshold alert's evidence is the newest hundred of the hits in the rule's window, or all of them when there are fewer, in stored order |
| Detection.EvaluationKeepsSpacing | blue-team/src/blue_team/detection.py:306-326 | when time does not run back between a check and its alert, one evaluation keeps alerts of one rule and group at least the suppression time apart |
| Detection.RunKeepsSpacing | blue-team/src/blue_team/detection.py:306-326 | and so does every run of evaluations |
| Detection.MatchAlerts | blue-team/src/blue_team/detection.py:147-155 | a match alerts once the suppression time has passed since every alert of its rule and group, and a critical rule that parse_rule accepted alerts always |
| Detection.DetectionEngine.EvaluateRule | blue-team/src/blue_team/detection.py:286-327 | one turn alerts exactly when the rule fires on the store before the turn, which AlertsExactly states condition by condition, and touches no other rule's history |
| Detection.DetectionEngine.Evaluate | blue-team/src/blue_team/detection.py:286-327 | the loop raises, in rule order, the alerts of exactly the enabled rules of which the event meets every condition, crosses the threshold and is not suppressed on the store as it was, and keeps the spacing of all rules' alerts |
| Canonical.NormIdempotent | green-team/src/aegis_green/canonical.py:27-64 | what normalize returns it accepts at the same depth and returns unchanged |
| Canonical.KeysKeptApart | green-team/src/aegis_green/canonical.py:47-63 | keys that do not collide stay distinct, so an object keeps its size |
| Canonical.AcceptedExactly | green-team/src/aegis_green/canonical.py:27-64 | a value is accepted if and only if no part of it, at the depth where it stands, is too deep, too long, too large, not finite, an unclean text or an object with keys that differ only in form or case |
| Canonical.NormKeepsParts | green-team/src/aegis_green/canonical.py:27-64 | every part of a value stands in the normalized value at the same place, a text in compatibility form and any other leaf unchanged |
| Canonical.Normalize | green-team/src/aegis_green/canonical.py:27-64 | the recursion returns the normalized value, or refuses exactly the values outside the limits |
| Canonical.NormalizeFields | green-team/src/aegis_green/canonical.py:47-63 | the loop with its set of caseless keys refuses exactly the objects with a collision, a bad key or a bad value |
| Canonical.OneRawValue | green-team/src/aegis_green/canonical.py:47-63 | in an object with plain keys and normal values but one, that one decides and is the only one to change |
| Ledgers.ReadLine | green-team/src/aegis_green/ledger.py:69-93 | a line is read exactly when it is blank or a bounded object with the four fields |
| Ledgers.WrittenReadsBack | green-team/src/aegis_green/ledger.py:43-54 | a written record reads back with its payload normalized |
| Ledgers.AppendRoundTrip | green-team/src/aegis_green/ledger.py:69-142 | after an append to a ledger that verifies, it verifies with the old records and the normalized payload if and only if the line fits the read limit and starts a line of its own; otherwise it cannot be read |
| Ledgers.AppendDoesNotMend | green-team/src/aegis_green/ledger.py:69-119 | a whole value written to a ledger that cannot be read does not mend it |
| Ledgers.UnreadableForever | green-team/src/aegis_green/ledger.py:69-93 | a ledger that cannot be read and ends with a newline stays unreadable, whatever lines follow |
| Ledgers.BrokenForGood | green-team/src/aegis_green/ledger.py:95-119 | an append that breaks a ledger leaves a file that ends with a newline and cannot be read again, whatever lines follow |
| Ledgers.OversizedAppendBreaks | green-team/src/aegis_green/ledger.py:104-119 | a payload within every limit of normalization that append accepts on an empty ledger, and that the reader then refuses by its size |
| Ledgers.UnfinishedLineBreaks | green-team/src/aegis_green/ledger.py:104-119 | a ledger without its last newline that verifies, and that the next accepted append makes unreadable |
| Ledgers.HeadFixesLedger | green-team/src/aegis_green/ledger.py:121-142 | two ledgers that verify and end in the same hash hold the same records, unless SHA-256 fails on these very records |
| Ledgers.Ledger.Head | green-team/src/aegis_green/ledger.py:95-100 | the last sequence and hash of a readable ledger, and a refusal for any other |
| Ledgers.Ledger.Append | green-team/src/aegis_green/ledger.py:104-119 | writes the next record's line, or refuses and leaves the file |
| Ledgers.Ledger.Verify | green-team/src/aegis_green/ledger.py:121-142 | succeeds exactly for a readable, linked ledger, with the number of its records |
| RateLimiter.KeptAtMostLimit | mission-control/server.py:202-215 | an identity's list never exceeds ten entries |
| RateLimiter.AtMostTen | mission-control/server.py:202-215 | with readings that run back by at most d, any window of at most sixty less d seconds holds at most ten accepted requests |
| RateLimiter.TenPerWindowExactly | mission-control/server.py:202-215 | and no longer window has that bound |
| RateLimiter.PruningInvisible | mission-control/server.py:202-215 | with a monotone clock the decision is the one that counting the whole accepted history would make |
| RateLimiter.MissionControl.AllowControlRequest | mission-control/server.py:202-215 | the decision and the new list are those of the identity's readings, and no other identity's list moves |
| Capacity.DispatchedOnce | mission-control/tools/run_capacity_probe.py:141-169 | at any moment of any schedule each index handed out is in flight with one worker or completed once |
| Capacity.EndsExactly | mission-control/tools/run_capacity_probe.py:141-171 | every run is over after exactly requests plus concurrency moves |
| Capacity.NeverStuck | mission-control/tools/run_capacity_probe.py:141-171 | a run that is not over has a worker to move |
| Capacity.EndAccounts | mission-control/tools/run_capacity_probe.py:120-171 | at the end executed, statuses and latencies all number the requests, and the per-target counters add up |
| Capacity.CountersAreAnswers | mission-control/tools/run_capacity_probe.py:146-169 | after any schedule every counter and list of latencies is the one of the answers taken so far; a failure is a request that raised or whose status its target does not expect, and nothing else is |
| Capacity.FairShare | mission-control/tools/run_capacity_probe.py:124-145 | each target received its weight in every whole round of the rotation and at most its weight more |
| Capacity.SlotsAreWeight | mission-control/tools/run_capacity_probe.py:124-128 | the rotation holds each target as often as its weight says |
| Capacity.ExpandedInOrder | mission-control/tools/run_capacity_probe.py:124-128 | the rotation lists the targets in the profile's order, each as often in a row as its weight says |
| Capacity.CapacityRun.Resume | mission-control/tools/run_capacity_probe.py:141-169 | one worker's code between two awaits makes the specification's move of all shared counters; when the last worker ends, each index was completed once and every counter numbers the requests |
| Capacity.PercentileIsLeast | mission-control/tools/run_capacity_probe.py:26-31 | the percentile is the least observation with at least ceil(n q) observations not above it |
| Capacity.PercentileIsQuantile | mission-control/tools/run_capacity_probe.py:26-31 | the percentile is the least observation that at least the quantile's part of all observations do not exceed |

## Left out

- Several organizations in one database: the model is one workspace, so tenant filters do not appear.
- Credentials: a connector's token lookup and keyed digest are the condition that the connector exists and is not revoked; issued secrets are numbered, so each is fresh.
- Clocks: each call gets its clock reading as a parameter, a decision its two readings; other calls that read the clock more than once are modelled with one reading.
- `_executionPolicy` and `_executionGrant` are fields of a row here, not keys of its payload, so a client that sends a key of that name before the lease is not modelled.
- Which of several equally old rows a lease picks: the specification admits any.
- End-to-end acceptance of assessments with several targets: the worker reports one team row per target and team, the server wants one per team, and no claim is made that they agree.
- Invitations, evidence files, telemetry, shadow-AI findings, retention, dashboards and engagement synchronization.
- Signatures, trust stores and binding checks of a clearance: they are the condition that each nonce belongs to one issued clearance, whose window `verify` checks; `consume_nonce=False` is not modelled.
- SHA-256 in the audit chains of mission control and the blue store is an injective constructor that never gives the genesis text; in the green ledger it is an arbitrary function, and `HeadFixesLedger` says so.
- Casefolding in the blue team's rules is modelled on ASCII; a rule value that is NaN or infinite, and a field that names a method or a dunder attribute of an event, are not modelled.
- A rule that groups by the raw timestamp, or whose own digest cannot be taken, raises in the source; both are left out.
- Detection.DetectionEngine.Evaluate: asks that the event is stored and that alert identifiers are fresh, as its caller sees to; without the first the source stops at the foreign key in the middle of the loop.
- Two (source, host) pairs can share a sensor key, such as `a::b` with `c` and `a` with `b::c`; sensor rows are stated per key, as the code keeps them.
- The green ledger's hashed object is represented by its three fields, since their names are constants; its file is a sequence of lines with a final newline or not, so a fragment of text that another program adds to an unfinished last line, and concurrent appends, are not modelled.
- The JSON encoder and decoder are trusted: a value's text reads back as that value, and its length is known only as far as `Sized` says.
- Floating-point rounding: poll intervals, limiter readings, latencies and percentiles are real numbers.
- Capacity.CapacityRun.Resume: thread-pool scheduling, error texts and the rounding of the receipt are not modelled; a request's outcome is an exception or any status, with any latency.
- HTTP, the database engine, migrations, row-level security, the front end, sandboxing and the other teams' engines.
