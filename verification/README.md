# vOps, modelled in Dafny

This project models the parts of vOps that decide things, and proves what they keep. `dafny verify
dfyconfig.toml` checks all of it.

| area | modules |
|---|---|
| canonical JSON, redaction, the hash-chained audit log | `CanonicalJson`, `JsonReading`, `CanonicalForm`, `KeyTies`, `Redaction`, `AuditLog` |
| the agent control plane: sessions, plans, approvals, operations and the plan runner | `AgentPolicy`, `Operations`, `PlanBodies`, `AgentRuns`, `ActionBroker` |
| what holds in every state that control plane can reach | `AgentSafety`, `AgentChanges`, `AgentAuthority`, `AgentNarrowing`, `AgentBudget` |
| host deploys: ports, the install ledger, DNS, the deploy saga, start order | `HostPorts`, `InstallLedger`, `IngressDns`, `DataProbe`, `DeploySaga`, `StartOrder` |
| host and provider firewalls | `PortSpecs`, `Nftables`, `FirewallServices` |
| command lines, authorized_keys, SKU twins | `PosixShell`, `AuthorizedKeys`, `VirtualTwins` |
| shared vocabulary | `Optional`, `Strings` |

The control plane is a state machine. Every manager call is one step. A plan that runs takes one
step per await, so whatever the others do can fall between any two of its own; the executor is an
oracle. A call to `invoke` is two steps, saving the plan and starting it, with the same between
them. `ActionBroker.ControlPlane` is the same machine as the program runs it: a class with the
stored records as fields, whose plan runner is the loop of the program, gives way to the others at
each await, and keeps a ghost log of the steps it took. `Valid` says that its state is what those
steps make of the initial one, so everything proved of reachable states holds of the object.

The text of canonical JSON is proved to determine the value by parsing it back (section 7 of RFC
8259 for strings); the command lines are proved to mean what they should by lexing them back
(sections 2.2.1, 2.2.2 and 2.3 of the POSIX.1-2017 Shell Command Language); a rendered firewall is
given packet semantics, first match wins.

## What turned out otherwise than one might expect

Each of these is proved, with the exact condition under which the code does keep the property.

- Key order leaks into a hash when the collation ties two different keys of one object, as
  `localeCompare` does for two Unicode forms of the same text, at any depth: `KeyTies.PrintsOneWayIff`.
- Only `detail` is redacted before an event is hashed, but the whole record is redacted when it is
  stored. One event with secret-shaped text elsewhere, in its summary say, breaks the chain from
  then on: `AuditLog.AppendedLogVerifies`, `AuditLog.AppendedLogBreaksAt`. A plan is hashed first
  and stored redacted too: with secret-shaped text anywhere in its body it is stale as soon as it is
  saved, and only then: `AgentChanges.SavedPlanMatchesHash`.
- A cancel that arrives while an operation is still queued falls outside the try block and leaves a
  cancelled operation over a plan that stays `running`. It is the only such window:
  `AgentSafety.CrashesExactlyWhenCancelledInQueue`, `AgentSafety.QueueCancelDisagrees`.
- Narrowing a session can widen it. The new targets replace the old ones, an empty list means every
  target, and a spend cap can come up from nothing. It raises no decision exactly when the new
  targets are among the old ones and not none, and the cap does not come up from nothing, unless
  the session denies everything anyway: `AgentPolicy.NarrowingNeverRaisesIff`. It can also raise a
  spend cap and put off the end of a session, which decide what can be booked and for how long the
  session is let in: `AgentNarrowing.NarrowingBudgetIff`, `AgentNarrowing.NarrowingExpiryIff`.
- The comment on `requireStepAllowed` says that an approval does not survive a session that is paused,
  narrowed or revoked meanwhile. The check reads the session as it was authenticated, so it does; and
  what holds for a run's next step holds for the second half of a call to `invoke`:
  `AgentNarrowing.SnapshotsIgnoreSessions`. What a narrowing does rule out, and the one way around it,
  is `AgentNarrowing.NarrowingIsDurable`. Only the emergency stop is read live:
  `AgentAuthority.AllowedIffPermitted`.
- Calls to `invoke` that overlap can take a session over its limit of operations, and no other step
  of the model can: `AgentBudget.LimitPassedIff`, `AgentBudget.LimitCanBePassed`.
- An app that exposes the same container port twice gets distinct host ports on its first deploy
  (`HostPorts.FirstDeployIsDistinct`) and colliding ones on the next in the same mode
  (`HostPorts.RedeployDistinctIff`). In any mode and after any change of the list, ports collide
  exactly when one that is asked for twice is kept: `HostPorts.PlanDistinctIff`, over a ledger
  `InstallLedger.PlannedDistinctIff`, over whole runs `InstallLedger.PortsStayDistinctIff`.
- A deploy that fails can leave its DNS record behind: when the provider refuses the delete, which is
  then passed over in silence, and when the name was repointed by force, since only a record added at a
  free name is ever deleted: `DeploySaga.FailureDropsOwnRecord`. The zone is what it was exactly when
  neither happened: `DeploySaga.FailureRestoresZone`.
- A firewall rule that names "any" beside plain sources, or "any" of one address family only, is
  compiled to something else: `Nftables.RuleMeansIffPlain`. A ping rule for some sources opens ping
  to all, which is what the rules say only when some ping rule is for everyone of each family:
  `Nftables.PingIgnoresSources`, `Nftables.PingMeansIff`. For the whole chain the condition is
  `Nftables.ChainMeansIff`.
- An explicit SSH rule is not always respected. A list with a range in it, a number with leading zeros
  and the blank spec are not recognised as covering the SSH port (`PortSpecs.CoversEverythingIff`). If
  no rule about SSH is recognised, the softer guard opens the port to everyone, whatever sources the
  rules name: `Nftables.MissedSshWidens`, for a list such as "22,8000-8100" `Nftables.MixedListOpensSsh`.
  Specs that are recognised in full are safe from it (`Nftables.RecognisedIsNotMissed`), and the part of
  `ChainMeansIff` on SSH is exact.
- A plan dropped as a twin can have been cheaper by the month in one of its regions, because the
  cheapest rates over all regions are compared. A plan is no dearer in a region than whatever may be
  dropped for it exactly when its rate there is its cheapest: `VirtualTwins.NoDearerThereIff`.
- Opening a well-known port by its number adds a second row, and the view goes on showing the first
  one's sources: `FirewallServices.OpenIsShownIff`.
- `changed: false` from the authorized_keys upsert does not mean that the file is as the upsert would
  leave it: `AuthorizedKeys.UnchangedIsUpToDateIff`.

## Model

| member | source | states |
|---|---|---|
| JsonReading.ParsePrinted | src/agent-api/plan-store.ts:112-120 | a JSON parser, wider than RFC 8259 for numbers only, reads the canonical text of any well-formed value back to that value, and leaves what follows it |
| JsonReading.StringRoundTrip | src/agent-api/plan-store.ts:113-118 | every JavaScript string, lone surrogates included, survives quoting and reading back |
| JsonReading.PrintInjective | src/agent-api/plan-store.ts:112-120 | equal texts come from equal values, whatever the collation |
| CanonicalForm.PrintDetermined | src/agent-api/plan-store.ts:108-120 | equal values print the same at every depth, when no object of the one holds two defined keys the collation ties |
| CanonicalForm.PrintCanonical | src/agent-api/plan-store.ts:108-120 | same text if and only if equal up to key order and dropped undefined entries |
| KeyTies.PrintsOneWayIff | src/agent-api/plan-store.ts:108-120 | everything that means the same prints the same if and only if no object inside holds two defined keys the collation ties |
| CanonicalForm.HashDeterminesValue | src/agent-control/plan-engine.ts:189-191 | with an injective digest equal hashes mean equal values |
| Redaction.RedactIdempotent | src/agent-control/redaction.ts:12-41 | redacting a redacted value changes nothing |
| Redaction.RedactWellFormed | src/agent-control/redaction.ts:28-38 | redaction keeps keys distinct and numbers numbers |
| Redaction.UnflaggedUnchanged | src/agent-control/redaction.ts:12-41 | a value that was not flagged comes back exactly as it was |
| Redaction.FlaggedMeansOtherwise | src/agent-control/redaction.ts:12-41 | a flagged value without secret-like fields no longer means what it meant |
| Redaction.StoredRecordKeepsHash | src/agent-control/agent-store.ts:44-51 | a record without secret-like fields that is hashed first and stored redacted matches its hash iff the redactor did not flag it |
| AuditLog.AgentStore.AppendEvent | src/agent-control/agent-store.ts:101-132 | the log after an append, with the new row chained to the last hash; the stored event is returned |
| AuditLog.AgentStore.VerifyEventChain | src/agent-control/agent-store.ts:176-188 | valid iff every row links to the one before and hashes to its payload; otherwise names the first row that does not |
| AuditLog.AgentStore.ListEventPage | src/agent-control/agent-store.ts:146-174 | the newest matching rows below the cursor, and a cursor iff more are left |
| AuditLog.Sha256Covers | src/agent-control/agent-store.ts:105-107 | the hash of an event pins down every field of its payload |
| AuditLog.AppendedLogVerifies | src/agent-control/agent-store.ts:101-188 | a log built by appends verifies iff no event carried secret-shaped text outside its detail |
| AuditLog.AppendedLogBreaksAt | src/agent-control/agent-store.ts:176-188 | verification breaks at exactly the first event that did |
| AuditLog.TamperEvident | src/agent-control/agent-store.ts:176-188 | two logs that verify and share their last hash have equal length and agree on every hashed field |
| AuditLog.PrefixVerifies | src/agent-control/agent-store.ts:176-188 | every prefix of a log that verifies verifies |
| AuditLog.WalkComplete | src/agent-control/agent-store.ts:144-174 | following cursors, with appends between requests and any page sizes, yields what matched at the first request and nothing else, and ends |
| AuditLog.WalkOverAppends | src/agent-control/agent-store.ts:101-174 | ... in particular over a log the store itself keeps appending to |
| AuditLog.NewestFirstExact | src/agent-control/agent-store.ts:144-174 | that listing holds each matching event once, newest first |
| AgentPolicy.AllowedBecause | src/agent-control/policy-engine.ts:27-65 | a step is only allowed when enabled, in scope, not denied, not stopped, under a spend cap if it provisions, and matched by the allow list or by a list of an approved plan's session |
| AgentPolicy.ApprovalEffect | src/agent-control/policy-engine.ts:49-63 | approving a plan turns "approval required" into "allow" exactly for the listed capabilities, and changes nothing else |
| AgentPolicy.NarrowingNeverRaises | src/agent-control/agent-session-manager.ts:259-293 | taking capabilities away never raises a decision in deny < approval required < allow |
| AgentPolicy.NarrowingDenies | src/agent-control/agent-session-manager.ts:259-280 | what a narrowing takes away is denied |
| AgentPolicy.NarrowingNeverRaisesIff | src/agent-control/agent-session-manager.ts:259-293 | a narrowing raises no decision, for any request, plan or stop flag, iff its targets and its spend cap pass a check against the stored session |
| Operations.TransitionsDescend | src/agent-control/operation-manager.ts:7-22 | every edge of the transition graph goes down in rank |
| Operations.BoundedTransitions | src/agent-control/operation-manager.ts:7-22 | any run through the graph has at most rank + 1 states |
| Operations.CancelOutcome | src/agent-control/operation-manager.ts:83-94 | where a cancel request is refused, where it is recorded, and that it rules out success |
| PlanBodies.HashPlanCovers | src/agent-control/plan-engine.ts:189-196 | the plan hash pins down every field of the plan body, inputs up to their JSON meaning |
| PlanBodies.RecordedFields | src/agent-control/agent-store.ts:44-51 | the stored body is, field by field, what the redactor makes of the hashed record |
| PlanBodies.RecordedPlanKeepsHash | src/agent-control/agent-store.ts:44-51 | a stored body still matches the hash iff the redactor flagged nothing in it |
| AgentChanges.ProgramTrusted | src/agent-control/plan-engine.ts:189-196 | with an injective digest, the program's hash and redaction meet everything the results on the control plane ask of them |
| AgentChanges.SavedPlanMatchesHash | src/agent-control/plan-engine.ts:90-110 | the plan `create` saves matches its own hash iff nothing in it was flagged; otherwise it is stale at once |
| AgentChanges.PlannedBody | src/agent-control/plan-engine.ts:47-100 | a plan has one step a call, in order and under distinct ids; every step validates again to itself, holds no secret field and is not denied; and the plan is valid |
| AgentRuns.NewestFor | src/agent-control/approval-manager.ts:94-96 | the approval that counts is the last one asked for that plan, and none iff none was asked |
| AgentSafety.AgreementAlways | src/agent-control/action-broker.ts:95-162 | in every reachable state each run's counter, operation and plan status fit together, and no two runs share a plan |
| AgentSafety.AdvanceEffect | src/agent-control/action-broker.ts:116-161 | one await of a run is one local step of it and touches no other run, operation, plan or session limit |
| AgentSafety.StartEffect | src/agent-control/action-broker.ts:95-113 | starting a plan launches one run of a plan that counted as approved and matches its hash, or at most marks an approved plan |
| AgentSafety.FinishedRunsAgree | src/agent-control/action-broker.ts:116-161 | however cancels interleave, a run that is over left operation and plan both succeeded, failed or cancelled, iff it did not crash |
| AgentSafety.CrashesExactlyWhenCancelledInQueue | src/agent-control/action-broker.ts:106-113 | a run crashes iff a cancel reached its operation while still queued |
| AgentSafety.QueueCancelDisagrees | src/agent-control/action-broker.ts:106-113 | in that window a cancel always ends in a cancelled operation over a running plan |
| AgentSafety.CancelNeverSucceeds | src/agent-control/operation-manager.ts:83-94 | once a cancel is recorded the operation is cancelling, cancelled or failed, in every reachable state |
| AgentSafety.CancelStartsNothing | src/agent-control/action-broker.ts:117-128 | after a recorded cancel no further step begins; at most the one in flight completes |
| AgentNarrowing.CancelIsFinal | src/agent-control/action-broker.ts:116-161 | whatever happens after a recorded cancel, the run comes to no new step and the operation never succeeds |
| AgentSafety.RunsTerminate | src/agent-control/action-broker.ts:117-152 | every await that moves a run brings it closer to its end |
| AgentSafety.OperationsDescend | src/agent-control/operation-manager.ts:59-81 | whatever step the machine takes, an operation that changes state follows the graph and goes down in rank |
| AgentSafety.OperationsSettle | src/agent-control/operation-manager.ts:59-81 | over any run of the machine an operation follows the graph from queued and changes state at most seven times |
| AgentChanges.PermissionsEvolve | src/agent-control/agent-session-manager.ts:232-293 | a session's permission lists change by a narrowing or a granted expansion, exactly so, and in no other way |
| AgentChanges.ApprovalsEvolve | src/agent-control/approval-manager.ts:108-139 | approvals are only added, pending; only pending ones are decided; a grant is in time |
| AgentAuthority.PlansApprovedChange | src/agent-control/action-broker.ts:100-104 | a plan that needs approval leaves "awaiting approval" only once the user granted it in time |
| AgentAuthority.PlansSettledChange | src/agent-control/plan-engine.ts:64-112 | the steps of a plan that needed no approval stay allowed or denied, in the session and in every run's snapshot of it |
| AgentAuthority.AllowTracedChange | src/agent-control/agent-session-manager.ts:232-256 | every entry of an allow list was in the session's first grant or in an expansion the user granted in time |
| AgentAuthority.AllowedIffPermitted | src/agent-control/action-broker.ts:164-186 | a step of a run passes the policy iff its session snapshot permits it and, while the stop is on, it only reads |
| AgentAuthority.StepsPermittedStep | src/agent-control/action-broker.ts:164-186 | a run at a step went through the whole policy for it: scope, status, spend cap and lists |
| AgentAuthority.RecordedChange | src/agent-control/plan-engine.ts:140-179 | a run's body equals the body its plan was created with, even if the stored fields were edited with the hash left alone |
| AgentAuthority.Authorised | src/agent-control/action-broker.ts:95-186 | in every reachable state a step under way is the one its plan was created with, passes the whole policy but the stop by its session snapshot, and was allowed by the user's grants or is of a plan whose approval the user granted in time |
| AgentNarrowing.NarrowingIsDurable | src/agent-control/agent-session-manager.ts:259-293 | after a capability is narrowed away a run started later only comes to a step that needs it when it is the second half of a call to `invoke` that was under way, with the session of before; until the user grants it again |
| AgentNarrowing.SnapshotsIgnoreSessions | src/agent-control/action-broker.ts:36-56 | whatever becomes of the stored sessions, the second half of `invoke` starts its run and a run comes to its next step all the same |
| AgentNarrowing.NarrowingBudgetIff | src/agent-control/agent-session-manager.ts:184-293 | after a narrowing no amount can be booked that could not before iff the new cap is no higher or below what is spent |
| AgentNarrowing.NarrowingExpiryIff | src/agent-control/agent-session-manager.ts:101-293 | after a narrowing the session is let in at no time it was not before iff it is not let in anyway, or its new end is no later or past |
| AgentNarrowing.StopHoldsWrites | src/agent-control/policy-engine.ts:30-32 | while the emergency stop is on a run only comes to steps that read |
| AgentBudget.BudgetConserved | src/agent-control/agent-session-manager.ts:125-205 | in every reachable state spend is the sum of the commitments, the operation count is the number of operations and within its limit but for one each call to `invoke`, and each started server create had been booked, once |
| AgentBudget.LimitPassedIff | src/agent-control/action-broker.ts:36-56 | a step takes a session over its limit of operations iff it is the second half of a call to `invoke` whose plan can start, under a new operation id, and the session is at its limit by then |
| AgentBudget.LimitCanBePassed | src/agent-control/action-broker.ts:36-56 | of two calls to `invoke` under way with room for one, both go on |
| AgentBudget.SpendingRules | src/agent-control/agent-session-manager.ts:184-205 | a step commits nothing, or one amount under the cap in force; spend never goes down |
| ActionBroker.ControlPlane.constructor | src/agent-control/agent-store.ts:17-20 | an empty store |
| ActionBroker.ControlPlane.Authenticate | src/agent-control/agent-session-manager.ts:101-135 | who gets a session and which sessions become expired |
| ActionBroker.ControlPlane.Resume | src/agent-control/agent-session-manager.ts:157-163 | any session that has not expired becomes active |
| ActionBroker.ControlPlane.CreateSession | src/agent-control/agent-session-manager.ts:54-99 | a new session starts active and unspent, and its first allow list is remembered |
| ActionBroker.ControlPlane.SetStop | src/agent-control/agent-safety-state.ts:30-55 | the stop flag, and nothing else |
| ActionBroker.ControlPlane.CommitProviderSpend | src/agent-control/agent-session-manager.ts:184-205 | booked iff it fits the cap; refused without a trace otherwise |
| ActionBroker.ControlPlane.IncrementOperation | src/agent-control/agent-session-manager.ts:174-179 | one more operation on one session |
| ActionBroker.ControlPlane.GrantScope | src/agent-control/agent-session-manager.ts:232-257 | the session with the capability allowed and no longer denied |
| ActionBroker.ControlPlane.NarrowScope | src/agent-control/agent-session-manager.ts:262-293 | the session with the capabilities denied and its targets and limits replaced |
| ActionBroker.ControlPlane.RequestScopeExpansion | src/agent-control/action-broker.ts:72-93 | one pending approval for a known capability |
| ActionBroker.ControlPlane.Propose | src/agent-control/plan-engine.ts:45-78 | the loop over the calls: an error iff some call is unknown, invalid, secret or denied; approval iff some call needs it |
| ActionBroker.ControlPlane.CreatePlan | src/agent-control/plan-engine.ts:40-128 | what is stored of the plan, its hash, its first status, and an approval request iff it needs one; the caller gets the body as it was hashed |
| ActionBroker.ControlPlane.Decide | src/agent-control/approval-manager.ts:108-139 | the decision, or a lapse when it comes too late, and the grant it triggers |
| ActionBroker.ControlPlane.Validate | src/agent-control/plan-engine.ts:140-153 | valid iff the hash still matches and every step's input still validates |
| ActionBroker.ControlPlane.TransitionOperation | src/agent-control/operation-manager.ts:59-81 | the new state iff the graph has the edge; nothing, patch included, when already there |
| ActionBroker.ControlPlane.CancelOperation | src/agent-control/operation-manager.ts:83-90 | what a cancel request makes of the operation |
| ActionBroker.ControlPlane.StartPlan | src/agent-control/action-broker.ts:95-113 | the checks, the operation, the count and the running plan |
| ActionBroker.ControlPlane.Provision | src/agent-control/core-action-executor.ts:169-176 | a server is asked for iff its cost fits the cap, and every server asked for is on the books; an unaffordable one leaves no trace |
| ActionBroker.ControlPlane.TakeStep | src/agent-control/action-broker.ts:117-146 | one turn of the loop, with the others let in at every await |
| ActionBroker.ControlPlane.RunPlan | src/agent-control/action-broker.ts:113-162 | run to its end among any others, the plan and its operation agree, or it crashed with a cancelled operation over a running plan |
| ActionBroker.ControlPlane.ExecutePlan | src/agent-control/action-broker.ts:58-61 | ... from authentication on; a plan that does not start changes nothing else |
| ActionBroker.ControlPlane.Invoke | src/agent-control/action-broker.ts:36-56 | the plan is saved and, needing no approval, run to its end with the session of the first half, whatever the others do in between; otherwise nothing is started |
| HostPorts.AllocateIs | src/apps/app-parse.ts:232-250 | an allocated port was free, is the container's own or the lowest free of 20000-20999; none iff the preferred one is unusable and the range is taken |
| HostPorts.PortPool.AllocatePort | src/apps/app-parse.ts:237-250 | the search loop finds that port and marks it used |
| HostPorts.PlanHostDeploy | src/apps/app-plan.ts:44-76 | the planner's loops bind every exposed port in order, or none |
| HostPorts.PlanOrderly | src/apps/app-plan.ts:64-73 | a plan covers exactly the exposed ports, each kept or fresh |
| HostPorts.PlanIsSafe | src/apps/app-plan.ts:52-60 | a new port was not listening, owned or reserved; no ingress app on 80 or 443, no k3s app below 1024 |
| HostPorts.PlanIsDistinct | src/apps/app-plan.ts:64-138 | an app that asks once for each port gets distinct ports |
| HostPorts.PlanDistinctIff | src/apps/app-plan.ts:64-138 | whatever the app had, in any mode and with any list of ports, its ports are distinct iff no container port asked for twice is kept |
| HostPorts.KeysApart | src/apps/app-plan.ts:64-138 | two different container ports never share a host port |
| HostPorts.FirstDeployIsDistinct | src/apps/app-plan.ts:64-138 | a first deploy gets distinct ports, whatever it asks for twice |
| HostPorts.RedeployIsStable | src/apps/app-plan.ts:122-130 | a redeploy, whatever its list of ports, keeps a port iff the new mode allows it, and otherwise takes one nobody had |
| HostPorts.RedeployRepeats | src/apps/app-plan.ts:109-138 | in an unchanged mode a redeploy never fails for want of ports |
| HostPorts.RedeployDistinctIff | src/apps/app-plan.ts:132-142 | in an unchanged mode and with an unchanged list a redeploy never fails, and its ports are distinct iff no container port is asked for twice |
| InstallLedger.PortsStayDisjoint | src/apps/vops-apps.service.ts:324-335 | over every run of deploys, failures, interruptions, unexposes and removals no two installs share a port |
| InstallLedger.PortsStayDistinct | src/apps/app-plan.ts:44-95 | ... and within an install ports stay distinct while no app asks twice for one |
| InstallLedger.PortsStayKeyed | src/apps/app-plan.ts:44-95 | over every run no install publishes two different container ports on one host port |
| InstallLedger.PlannedDistinctIff | src/apps/app-plan.ts:44-95 | over any such ledger a deploy publishes distinct ports iff it keeps none that it asks for twice |
| InstallLedger.PortsStayDistinctIff | src/apps/app-plan.ts:44-95 | over every run the ports within each install have always been distinct iff no deploy on the way kept a port that it asked for twice |
| InstallLedger.RedeployKeepsPorts | src/apps/app-plan.ts:34-42 | an app redeployed in the same mode keeps every port it had, whatever listens and whatever the ledger became: exactly those, if it asks once for each |
| InstallLedger.RevertRestores | src/apps/install-ledger.ts:17-27 | reverting a claim gives back the ledger from before it |
| InstallLedger.Store.PortReservations | src/apps/vops-apps.service.ts:324-335 | own ports from the last row, everyone else's from their endpoints |
| InstallLedger.Store.DeployInstall | src/apps/vops-apps.service.ts:216-272 | the ledger after a deploy that ends in any of its ways |
| IngressDns.PlanIs | src/apps/ingress-dns-plan.ts:41-66 | when a name is free, already ours alone, taken by an alias or pointing elsewhere |
| IngressDns.UnforcedEnsure | src/apps/ingress-dns.ts:96-121 | unforced, the zone stays or gains one record at a free name; refused iff the name is taken |
| IngressDns.EnsureSpares | src/apps/ingress-dns.ts:109-120 | forced, only addresses at this name that point elsewhere are deleted |
| IngressDns.EnsurePoints | src/apps/ingress-dns.ts:114-120 | once written, no older record sends the name elsewhere, unless an alias was forced aside |
| IngressDns.EnsurePublishes | src/apps/ingress-dns.ts:96-121 | the record the answer names is in the zone: one already ours, adopted without a change, or the one just written |
| IngressDns.EnsureThenDiscard | src/apps/vops-ingress.service.ts:255-259 | writing and discarding gives back the zone, record for record |
| IngressDns.DiscardRestoresIff | src/apps/vops-ingress.service.ts:255-259 | ... iff no address was deleted to repoint the name and the provider does not refuse to delete what was added; if it does, one record more is left |
| IngressDns.DiscardedIs | src/apps/vops-ingress.service.ts:255-259 | what is gained is the run's own record, iff it was written over others or its delete is refused; what is lost went to a forced repoint |
| IngressDns.Zone.EnsureARecord | src/apps/ingress-dns.ts:96-121 | the zone and the answer after the deletes and the create, wherever the provider fails, and the zone after every single one of them |
| IngressDns.Zone.DiscardRecord | src/apps/vops-ingress.service.ts:255-259 | only a record this run created is deleted |
| DeploySaga.Host.DeployApp | src/apps/vops-apps.service.ts:227-268 | ledger, zone and data after a deploy, for every way its parts can fail, and after each effect on the way there; from the first to the last but one the ledger holds the claim |
| DeploySaga.Host.GateOrRollback | src/apps/app-rollback.ts:43-68 | units up and smoke green, or rolled back, or left running on purpose |
| DeploySaga.Host.RollbackDeploy | src/apps/app-rollback.ts:74-105 | a first install loses what it made, a redeploy loses nothing |
| DataProbe.TruncatedIsUnknown | src/apps/app-data-guard.ts:29-54 | however much of the probe's output arrived, it reads as exactly what the host holds, or as unknown iff the end marker is missing |
| DeploySaga.FailureRestoresLedger | src/apps/install-ledger.ts:21-44 | wherever a deploy fails the ledger is what it was, unless the app was left running |
| DeploySaga.FailureRestoresZone | src/apps/vops-apps.service.ts:313-322 | where a deploy fails the zone is what it was iff no address was deleted to repoint the name and the provider did not refuse to delete the record this run had added |
| DeploySaga.FailureDropsOwnRecord | src/apps/vops-apps.service.ts:313-322 | of a deploy that fails its own record stays iff it was written over other addresses or its delete is refused; nothing else is gained, and what is lost went to a forced repoint |
| DeploySaga.SagaIsLedgerStep | src/apps/vops-apps.service.ts:227-268 | to the ledger a deploy is the one step named after its ending, and a deploy that is cut short the step of an interrupted one |
| DeploySaga.PortsApartThroughout | src/apps/vops-apps.service.ts:227-335 | after any run, wherever a deploy is cut short, no two installs share a port and no two container ports of one install do |
| DeploySaga.DataIsNeverLost | src/apps/app-data-guard.ts:56-67 | no deploy removes data that was there before |
| DeploySaga.FirstInstallRestoresData | src/apps/app-rollback.ts:89-104 | a failed first install leaves the data as it found it iff it made nothing, or knew what it made and could remove it |
| DeploySaga.RedeployKeepsData | src/apps/app-rollback.ts:76-88 | a failed redeploy removes no data at all |
| DeploySaga.StagesAreEffects | src/apps/vops-apps.service.ts:227-268 | the states recorded are one ledger write, one record or one item of data apart, from the start of the deploy to its end |
| DeploySaga.InterruptionIsRecorded | src/apps/install-ledger.ts:16-19 | in each of them the claimed row is in the ledger, except the last, which confirms the claim or undoes it when everything else is undone; no data from before is missing |
| StartOrder.OrderServices | src/apps/app-plan.ts:199-209 | the rounds of ready components, or all that is left when none is |
| StartOrder.StartsEachOnce | src/apps/app-plan.ts:199-209 | every component is started, once |
| StartOrder.DependenciesFirst | src/apps/app-plan.ts:198-209 | a component that reaches no cycle starts after everything it depends on |
| StartOrder.TopologicalIffAcyclic | src/apps/app-plan.ts:198-209 | the order is topological iff the plan has no cycle |
| PortSpecs.CoversIsSound | src/host-firewall/nftables.ts:189-199 | a port is never claimed as covered by a spec that does not open it |
| PortSpecs.MixedListMissed | src/host-firewall/nftables.ts:194-198 | no port of a list with a range in it is ever recognised |
| PortSpecs.PortAndRangeMissed | src/host-firewall/nftables.ts:189-210 | a port with a range behind it opens that port, and is taken to cover none |
| PortSpecs.CoversEverythingIff | src/host-firewall/nftables.ts:189-210 | a well-formed spec is recognised for exactly the ports it opens iff it is a single range, or numbers all listed in canonical digits, or opens nothing at all |
| Nftables.SplitCidrs | src/host-firewall/nftables.ts:174-183 | the plain sources of each family, in order, without the "any" entries |
| Nftables.RenderNftables | src/host-firewall/nftables.ts:41-69 | the input chain, or nothing when a port spec is malformed |
| Nftables.RuleMeansIffPlain | src/host-firewall/nftables.ts:161-183 | a rule accepts what it says, for every packet, iff its sources are plain |
| Nftables.CompilationPreservesMeaning | src/host-firewall/nftables.ts:41-96 | the chain, run first match over any packet, accepts exactly what rules, options and policy denote, when ports, pings and SSH are as `ChainMeansIff` asks; SSH is denoted open to everyone always, or under a dropping policy when no rule opens its port to anyone |
| Nftables.ChainMeansIff | src/host-firewall/nftables.ts:41-96 | the chain means what rules, options and policy denote for every packet iff pings are as `PingMeansIff` asks, each port is rendered open to everyone exactly when some rule is for everyone of each family, and no rule about SSH goes unrecognised unless SSH is for everyone of both families anyway; given an address that no rule names |
| Nftables.AskedIsKept | src/host-firewall/nftables.ts:54-58 | the renderer keeps SSH open whenever that is asked for |
| Nftables.MissedSshWidens | src/host-firewall/nftables.ts:54-58 | when every rule about SSH goes unrecognised the port is open to everyone, though the rules open it only to whom they name |
| Nftables.MixedListOpensSsh | src/host-firewall/nftables.ts:188-199 | one rule for the SSH port and any range, from one source, opens SSH to everyone |
| Nftables.RecognisedIsNotMissed | src/host-firewall/nftables.ts:188-199 | a rule about SSH is never missed while all specs are ones the renderer recognises in full |
| Nftables.PlainRulesSuffice | src/host-firewall/nftables.ts:161-183 | plain sources in every port rule are enough for the ports |
| Nftables.PingMeansIff | src/host-firewall/nftables.ts:53-66 | pings are let in as rules, options and policy say iff no ping rule is needed or some ping rule is for everyone of each family |
| Nftables.PingIgnoresSources | src/host-firewall/nftables.ts:53-66 | any inbound ping rule lets everyone ping |
| Nftables.MalformedFailsClosed | src/host-firewall/nftables.ts:201-210 | rendering fails iff some port spec is malformed |
| Nftables.SshAlwaysOpens | src/host-firewall/nftables.ts:54-58 | in the managed mode every packet to the SSH port that is not invalid is accepted |
| Nftables.DroppingSshRulesChangesNothing | src/host-ops/vops-host-firewall.service.ts:83-86 | dropping explicit SSH rules first changes no verdict |
| Nftables.SoftGuardLeavesSshReachable | src/host-firewall/nftables.ts:54-58 | the softer guard leaves SSH reachable from somewhere, when every plain source of a rule names some address |
| Nftables.ManagedHost.Apply | src/host-ops/vops-host-firewall.service.ts:70-98 | the intent and the loaded chain, or both unchanged on failure |
| Nftables.ManagedHost.Clear | src/host-ops/vops-host-firewall.service.ts:100-123 | the intent is only forgotten once the table is gone |
| FirewallServices.RulesToServices | src/firewall/firewall-services.ts:98-116 | one service per protocol and port, first rule wins |
| FirewallServices.ServicesRoundTrip | src/firewall/firewall-services.ts:37-116 | services come back unchanged and in order iff canonical with distinct ports |
| FirewallServices.ReadingSettles | src/firewall/firewall-services.ts:37-116 | rules to services to rules to services gives the same services |
| FirewallServices.ProviderFirewall.ApplyProvider | src/firewall/vops-server-firewall.service.ts:239-262 | rules the simple model cannot show are kept, in front and in order, and the services read back are the ones set |
| FirewallServices.ApplyingTwice | src/firewall/vops-server-firewall.service.ts:242-245 | setting services again replaces the first ones and neither loses nor repeats a preserved rule |
| FirewallServices.AllowedMeansOpen | src/firewall/firewall-services.ts:37-95 | services that pass the lock-out check have an inbound rule that opens the port to a new connection from somewhere |
| FirewallServices.OpenIsShownIff | src/agent-control/core-action-executor.ts:178-184 | an opened port shows the sources asked for iff no row of that port goes by another id |
| FirewallServices.CloseShutsPort | src/agent-control/core-action-executor.ts:186-194 | after closing no row of the port is left |
| PosixShell.CommandReadsBack | src/apps/app-shell.ts:43-53 | a POSIX shell splits the command line into exactly the intended words, for any container, shell and arguments |
| PosixShell.QuotedRead | src/apps/app-scripts.ts:334-338 | a quoted text reads back as itself |
| PosixShell.CommandsDiffer | src/apps/app-shell.ts:43-53 | two different commands never share a command line |
| VirtualTwins.DedupeVirtualTwins | src/catalog/virtual-twins.ts:41-70 | the loops compute the bare metal, then per machine the best and its uncovered twins |
| VirtualTwins.DroppedHasTwin | src/catalog/virtual-twins.ts:58-68 | every dropped plan has a kept twin that serves all its regions and is no dearer by its cheapest monthly rate |
| VirtualTwins.NoDearerThereIff | src/catalog/virtual-twins.ts:11-17 | in a region a plan is no dearer than whatever may be dropped for it iff its rate there is its cheapest |
| VirtualTwins.NoDearerAnywhere | src/catalog/virtual-twins.ts:58-68 | where the kept twins have one rate each, a dropped plan has one that is no dearer in any of its regions |
| VirtualTwins.RegionsStay | src/catalog/virtual-twins.ts:33-40 | every region offered for a machine and hourly rate still is |
| VirtualTwins.DedupeSettles | src/catalog/virtual-twins.ts:41-70 | bare metal passes through in order, and a second pass changes nothing, not even the order |
| AuthorizedKeys.UpsertSettles | src/host-ops/authorized-keys.ts:48-57 | exactly one tagged line after an upsert, the others in order; a second upsert changes nothing |
| AuthorizedKeys.RemoveUndoesUpsert | src/host-ops/authorized-keys.ts:59-64 | removing after an upsert is removing alone |
| AuthorizedKeys.RemoveTakesOnlyOps | src/host-ops/authorized-keys.ts:59-64 | a removal leaves exactly the untagged lines, in order and without blank ones at the end, and counts what it took |
| AuthorizedKeys.UnchangedIsUpToDateIff | src/host-ops/authorized-keys.ts:43-57 | an upsert leaves the lines as they are iff the given line is the only tagged one and the last |
| AuthorizedKeys.SafeIff | src/host-ops/authorized-keys.ts:96-117 | the verdict on a removal is safe iff another key line remains or the verified key was never in the file; unsafe leaves no key line |

## Assumptions

- SHA-256 is an injective function of the text it is given; the collation is a total preorder of
  strings, with ties allowed where a statement says so. The regular expressions of the redactor
  are an abstract idempotent scrub and a test on keys.
- A manager call is atomic, and so is a plan's creation with its approval request. The awaits inside
  `appendEvent`, `transition` and the opening part of `executePlanForSession` (from authentication, or
  from its call by `invoke`, to the plan marked running) are not separate steps.
- A call to the ledger store of the installs never fails.
- A record read back from the store is the record that was written. What redaction makes of a plan
  when it is created is part of the model; a later change of its status redacts the stored body again,
  which changes nothing (`Redaction.RedactIdempotent`). Sessions, approvals and operations are taken
  to hold no secret-shaped text.
- The plan's own field names and the names of environments are left alone by the redactor, and the
  validator accepts what it returned without filling in more (`Stable`), where a statement says so.
- A provider call or a script that fails has no effect of its own, except where a parameter of the
  model says which effects it had. A provider gives a new DNS record an id of its own.
- White space is space, tab, carriage return and newline; letter case is folded for A to Z.

## Left out

- AgentChanges.PlannedBody: `estimatedEffects`, `rollback` and the trimmed objective of a plan come with the request instead of from the registry, because no decision reads them; they are hashed as they are.
- AgentAuthority.Authorised: a run checks the session it authenticated with; that a session paused or narrowed meanwhile does not stop a run already started follows the code, and only the emergency stop is read live.
- ActionBroker.ControlPlane.CreateSession: the clamping of limits and the default permission lists happen before the call; tokens and their hashes are the session's id.
- HostPorts.PlanHostDeploy: bind addresses, endpoint URLs, environment values and the rendered units are left out; the ports do not depend on them.
- DeploySaga.Host.DeployApp: the units and containers themselves are not part of the host's state, only the data they make; what follows the confirmed ledger row (the route, certificates, post-install steps) is outside the part that undoes itself.
- DeploySaga.FirstInstallRestoresData: in the saga the data probe is the fact whether it finished; how its text is read is `DataProbe`.
- InstallLedger.PortsStayDisjoint: deploys on one host follow one another; two at once read the same ledger and are not modelled.
- Nftables.RenderNftables: the chain is a list of lines with their meaning; how nftables reads the text of a line or of an address is not modelled, nor is the output chain.
- PosixShell.CommandReadsBack: the lexer gives no answer for anything a shell would expand; the words of the command never need it.
- VirtualTwins.DedupeVirtualTwins: prices are real numbers or missing, and the built-in sort is a stable sort by insertion.
- `validatePlan`: reads a plan and validates it.
- Choosing the DNS zone of a hostname across providers: the zone is given.
- The `extendForConditionalIntent`, `stopAll` and `list` calls of the session manager: the first changes one expiry, the others repeat steps the model has.
- Audit events of the control plane: every manager appends them, and none reads them.
- Local plan files, the SQL of the stores, SSH, HTTP and DNS transport, ACME polling and terminals: input and output.
- Quadlet, Caddy and Traefik texts, catalogue listing and manifest normalisation: field copying with little state.
- crontab editing: the same shape as the authorized_keys editing.
