/** Why every step that runs was allowed to run, over whole runs of the control plane. */
module AgentAuthority {
  import opened Optional
  import opened CanonicalJson
  import opened AgentPolicy
  import opened PlanBodies
  import opened AgentRuns
  import opened AgentSafety
  import opened AgentChanges

  /******* Approvals *******/

  /** Granted by the user, before it expired. */
  predicate GrantedInTime(a: Approval) {
    a.decision == Granted && a.decidedAt.Some? && a.decidedAt.value < a.expiresAt
  }

  ghost predicate Decided(s: State) {
    forall a :: a in s.approvals && a.decision == Granted ==> GrantedInTime(a)
  }

  ghost predicate PlanGranted(approvals: seq<Approval>, planId: Id) {
    exists a :: a in approvals && a.planId == Some(planId) && GrantedInTime(a)
  }

  ghost predicate CapabilityGranted(approvals: seq<Approval>, sessionId: Text, capability: Text) {
    exists a :: a in approvals && a.planId == None && a.sessionId == sessionId && a.capability == Some(capability) && GrantedInTime(a)
  }

  lemma DecidedGrow(now: nat, before: seq<Approval>, after: seq<Approval>)
    requires ApprovalsGrow(now, before, after)
    requires forall a :: a in before && a.decision == Granted ==> GrantedInTime(a)
    ensures forall a :: a in after && a.decision == Granted ==> GrantedInTime(a)
    ensures forall p :: PlanGranted(before, p) ==> PlanGranted(after, p)
    ensures forall id, c :: CapabilityGranted(before, id, c) ==> CapabilityGranted(after, id, c)
  {
    forall a | a in after && a.decision == Granted ensures GrantedInTime(a) {
      var i :| 0 <= i < |after| && after[i] == a;
      if i < |before| { assert ApprovalStep(now, before[i], after[i]); }
    }
    forall a | a in before && GrantedInTime(a) ensures a in after {
      var i :| 0 <= i < |before| && before[i] == a;
      assert ApprovalStep(now, before[i], after[i]);
      assert after[i] == a;
    }
  }

  /******* Plans as they were created *******/

  /** The stored plan is well formed, and carries the hash of the body it was created with. */
  predicate RecordedPlan(config: Config, plan: Plan, created: PlanBody) {
    WellFormedBody(plan.body) && WellFormedBody(created) && plan.hash == config.hash(created)
  }

  predicate RecordedRun(run: Run, created: PlanBody) {
    SameBody(run.body, created) && run.body.sessionId == run.session.id
  }

  ghost predicate PlansRecorded(config: Config, plans: map<Id, Plan>, created: map<Id, PlanBody>) {
    plans.Keys == created.Keys && forall p :: p in plans ==> RecordedPlan(config, plans[p], created[p])
  }

  ghost predicate RunsRecorded(runs: map<Id, Run>, created: map<Id, PlanBody>) {
    forall id :: id in runs ==> runs[id].planId in created && RecordedRun(runs[id], created[runs[id].planId])
  }

  ghost predicate Recorded(config: Config, s: State) {
    && PlansRecorded(config, s.plans, s.history.created) && RunsRecorded(s.runs, s.history.created)
    && s.history.approvalNeeded.Keys == s.plans.Keys
  }

  lemma RecordedPlanStepped(config: Config, approvals: seq<Approval>, p: Id, before: Plan, after: Plan, created: PlanBody)
    requires PlanStepped(approvals, p, before, after) && RecordedPlan(config, before, created)
    ensures RecordedPlan(config, after, created)
  {
  }

  lemma RecordedLaunch(config: Config, plan: Plan, created: PlanBody, run: Run)
    requires Trusted(config) && RecordedPlan(config, plan, created)
    requires run.body == plan.body && config.hash(run.body) == plan.hash && run.body.sessionId == run.session.id
    ensures RecordedRun(run, created)
  {
  }

  lemma RecordedPlans(config: Config, s: State, t: State)
    requires PlansRecorded(config, s.plans, s.history.created) && PlansKept(s, t)
    ensures PlansRecorded(config, t.plans, t.history.created)
  {
    forall p | p in t.plans ensures RecordedPlan(config, t.plans[p], t.history.created[p]) {
      RecordedPlanStepped(config, s.approvals, p, s.plans[p], t.plans[p], s.history.created[p]);
    }
  }

  lemma RecordedRuns(s: State, t: State)
    requires RunsRecorded(s.runs, s.history.created) && RunsKept(s, t) && t.history.created == s.history.created
    ensures RunsRecorded(t.runs, t.history.created)
  {
    forall id | id in t.runs ensures t.runs[id].planId in t.history.created && RecordedRun(t.runs[id], t.history.created[t.runs[id].planId]) {
      assert RecordedRun(s.runs[id], s.history.created[s.runs[id].planId]);
    }
  }

  lemma StoredRecorded(config: Config, body: PlanBody, status: PlanStatus)
    requires StoresWellFormed(config) && WellFormedBody(body)
    ensures RecordedPlan(config, Plan(config.record(body), config.hash(body), status), body)
  {
  }

  lemma PlannedRecorded(config: Config, plans: map<Id, Plan>, created: map<Id, PlanBody>, runs: map<Id, Run>, planId: Id, plan: Plan, body: PlanBody)
    requires PlansRecorded(config, plans, created) && RunsRecorded(runs, created)
    requires planId !in plans && RecordedPlan(config, plan, body)
    ensures PlansRecorded(config, plans[planId := plan], created[planId := body]) && RunsRecorded(runs, created[planId := body])
  {
  }

  lemma LaunchedRecorded(runs: map<Id, Run>, created: map<Id, PlanBody>, operationId: Id, run: Run)
    requires RunsRecorded(runs, created) && run.planId in created && RecordedRun(run, created[run.planId])
    ensures RunsRecorded(runs[operationId := run], created)
  {
  }

  lemma RecordedLaunched(config: Config, s: State, t: State, operationId: Id, run: Run)
    requires Trusted(config) && Recorded(config, s) && Changed(config, s, t, Launched(operationId, run))
    ensures Recorded(config, t)
  {
    assert RecordedPlan(config, s.plans[run.planId], s.history.created[run.planId]);
    RecordedLaunch(config, s.plans[run.planId], s.history.created[run.planId], run);
    RecordedPlans(config, s, t);
    LaunchedRecorded(s.runs, s.history.created, operationId, run);
  }

  lemma RecordedChange(config: Config, s: State, t: State, change: Change)
    requires Trusted(config) && Recorded(config, s) && Changed(config, s, t, change)
    ensures Recorded(config, t)
  {
    match change
    case Kept => RecordedKept(config, s, t);
    case Planned(planId, session, body, needed) => RecordedPlanned(config, s, t, planId, session, body, needed);
    case Launched(operationId, run) => RecordedLaunched(config, s, t, operationId, run);
  }

  lemma RecordedKept(config: Config, s: State, t: State)
    requires Recorded(config, s) && PlansKept(s, t) && RunsKept(s, t)
    ensures Recorded(config, t)
  {
    RecordedPlans(config, s, t);
    RecordedRuns(s, t);
  }

  lemma RecordedPlanned(config: Config, s: State, t: State, planId: Id, session: Session, body: PlanBody, needed: bool)
    requires StoresWellFormed(config) && Recorded(config, s) && NewPlan(config, s, t, planId, session, body, needed) && t.runs == s.runs
    ensures Recorded(config, t)
  {
    StoredRecorded(config, body, t.plans[planId].status);
    PlannedRecorded(config, s.plans, s.history.created, s.runs, planId, t.plans[planId], body);
  }

  /******* A plan that needs approval does not leave `AwaitingApproval` without one *******/

  predicate StillAwaiting(plan: Plan, needed: bool) {
    needed ==> plan.status == AwaitingApproval
  }

  ghost predicate PlansApproved(s: State) {
    forall p :: p in s.plans && p in s.history.approvalNeeded ==>
      StillAwaiting(s.plans[p], s.history.approvalNeeded[p]) || PlanGranted(s.approvals, p)
  }

  lemma ApprovedMeansGranted(approvals: seq<Approval>, p: Id)
    requires forall a :: a in approvals && a.decision == Granted ==> GrantedInTime(a)
    requires ApprovedForPlan(approvals, p)
    ensures PlanGranted(approvals, p)
  {
    assert NewestFor(approvals, p).value in approvals;
  }

  lemma PlansApprovedKept(s: State, t: State)
    requires Decided(s) && PlansApproved(s) && ApprovalsGrow(s.now, s.approvals, t.approvals) && PlansKept(s, t)
    ensures PlansApproved(t)
  {
    DecidedGrow(s.now, s.approvals, t.approvals);
    forall p | p in t.plans && p in t.history.approvalNeeded
      ensures StillAwaiting(t.plans[p], t.history.approvalNeeded[p]) || PlanGranted(t.approvals, p)
    {
      assert PlanStepped(s.approvals, p, s.plans[p], t.plans[p]);
      if ApprovedForPlan(s.approvals, p) { ApprovedMeansGranted(s.approvals, p); }
    }
  }

  lemma PlansApprovedPlanned(config: Config, s: State, t: State, planId: Id, session: Session, body: PlanBody, needed: bool)
    requires Decided(s) && PlansApproved(s) && ApprovalsGrow(s.now, s.approvals, t.approvals)
    requires NewPlan(config, s, t, planId, session, body, needed)
    ensures PlansApproved(t)
  {
    DecidedGrow(s.now, s.approvals, t.approvals);
  }

  lemma PlansApprovedChange(config: Config, s: State, t: State, change: Change)
    requires Decided(s) && PlansApproved(s) && ApprovalsGrow(s.now, s.approvals, t.approvals) && Changed(config, s, t, change)
    ensures PlansApproved(t)
  {
    match change
    case Kept => PlansApprovedKept(s, t);
    case Planned(planId, session, body, needed) => PlansApprovedPlanned(config, s, t, planId, session, body, needed);
    case Launched(_, _) => PlansApprovedKept(s, t);
  }

  /******* A plan that needs no approval stays matched by allow, or by deny *******/

  ghost predicate StepsSettled(p: Permissions, steps: seq<Step>) {
    forall step :: step in steps ==> Settled(p, step.capability)
  }

  ghost predicate PlanSettled(s: State, p: Id)
    requires p in s.history.created
  {
    var body := s.history.created[p];
    body.sessionId in s.sessions && StepsSettled(s.sessions[body.sessionId].permissions, body.steps)
  }

  ghost predicate RunSettled(s: State, run: Run) {
    && run.planId in s.history.created && run.planId in s.history.approvalNeeded
    && (!s.history.approvalNeeded[run.planId] ==> StepsSettled(run.session.permissions, s.history.created[run.planId].steps))
  }

  /** An invocation between its halves keeps a session that needs no approval for its plan. */
  ghost predicate InvokedSettled(invoked: map<Id, Session>, created: map<Id, PlanBody>) {
    forall p :: p in invoked ==> p in created && StepsSettled(invoked[p].permissions, created[p].steps)
  }

  ghost predicate PlansSettled(s: State) {
    && InvokedSettled(s.invoked, s.history.created)
    && (forall p :: p in s.history.created ==> p in s.history.approvalNeeded && (s.history.approvalNeeded[p] || PlanSettled(s, p)))
    && (forall id :: id in s.runs ==> RunSettled(s, s.runs[id]))
  }

  ghost predicate SettledKept(s: State, t: State) {
    forall id, c :: id in s.sessions && Settled(s.sessions[id].permissions, c) ==> id in t.sessions && Settled(t.sessions[id].permissions, c)
  }

  lemma SettledEvolves(config: Config, s: State, a: Action)
    requires SessionsKeyed(s) && Agreement(s)
    ensures SettledKept(s, Apply(config, s, a))
    ensures s.sessions.Keys <= Apply(config, s, a).sessions.Keys
  {
    forall id | id in s.sessions
      ensures id in Apply(config, s, a).sessions
      ensures forall c :: Settled(s.sessions[id].permissions, c) ==> Settled(Apply(config, s, a).sessions[id].permissions, c)
    {
      PermissionsEvolve(config, s, a, id);
      PermissionsAfterSettled(s, a, id);
    }
  }

  lemma PermissionsAfterSettled(s: State, a: Action, id: Text)
    requires id in s.sessions
    ensures forall c :: Settled(s.sessions[id].permissions, c) ==> Settled(PermissionsAfter(s, a, id), c)
  {
    forall c | Settled(s.sessions[id].permissions, c) ensures Settled(PermissionsAfter(s, a, id), c) {
      match a
      case NarrowA(_, n) => NarrowKeepsSettled(s.sessions[id].permissions, n.capabilities, c);
      case DecideA(i, decision) =>
        if Expands(s, i, decision, id) { GrantKeepsSettled(s.sessions[id], s.approvals[i].capability.value, None, None, c); }
      case _ =>
    }
  }

  lemma PlanSettledKept(s: State, t: State, p: Id)
    requires p in s.history.created && p in t.history.created && t.history.created[p] == s.history.created[p]
    requires PlanSettled(s, p) && SettledKept(s, t) && s.sessions.Keys <= t.sessions.Keys
    ensures PlanSettled(t, p)
  {
  }

  lemma RunSettledKept(s: State, t: State, run: Run, after: Run)
    requires RunSettled(s, run) && after == run.(pc := after.pc)
    requires run.planId in t.history.created && t.history.created[run.planId] == s.history.created[run.planId]
    requires run.planId in t.history.approvalNeeded && t.history.approvalNeeded[run.planId] == s.history.approvalNeeded[run.planId]
    ensures RunSettled(t, after)
  {
  }

  lemma AllPlansSettledKept(s: State, t: State)
    requires PlansSettled(s) && SettledKept(s, t) && s.sessions.Keys <= t.sessions.Keys
    requires t.history.created == s.history.created && t.history.approvalNeeded == s.history.approvalNeeded
    ensures forall p :: p in t.history.created ==> p in t.history.approvalNeeded && (t.history.approvalNeeded[p] || PlanSettled(t, p))
  {
    forall p | p in t.history.created ensures p in t.history.approvalNeeded && (t.history.approvalNeeded[p] || PlanSettled(t, p)) {
      if !s.history.approvalNeeded[p] { PlanSettledKept(s, t, p); }
    }
  }

  lemma PlansSettledKept(s: State, t: State)
    requires PlansSettled(s) && SettledKept(s, t) && s.sessions.Keys <= t.sessions.Keys
    requires PlansKept(s, t) && RunsKept(s, t)
    ensures PlansSettled(t)
  {
    AllPlansSettledKept(s, t);
    forall id | id in t.runs ensures RunSettled(t, t.runs[id]) { RunSettledKept(s, t, s.runs[id], t.runs[id]); }
  }

  lemma MatchedSettled(session: Session, body: PlanBody)
    requires forall step :: step in body.steps ==> Matches(session.permissions.allow, step.capability)
    ensures StepsSettled(session.permissions, body.steps)
  {
  }

  lemma InvokedSettledPlanned(config: Config, s: State, t: State, planId: Id, session: Session, body: PlanBody, needed: bool)
    requires InvokedSettled(s.invoked, s.history.created) && Recorded(config, s)
    requires NewPlan(config, s, t, planId, session, body, needed)
    ensures InvokedSettled(t.invoked, t.history.created)
  {
    if !needed { MatchedSettled(session, body); }
  }

  lemma PlansSettledPlanned(config: Config, s: State, t: State, planId: Id, session: Session, body: PlanBody, needed: bool)
    requires PlansSettled(s) && SettledKept(s, t) && s.sessions.Keys <= t.sessions.Keys && Recorded(config, s)
    requires NewPlan(config, s, t, planId, session, body, needed) && t.runs == s.runs
    ensures PlansSettled(t)
  {
    InvokedSettledPlanned(config, s, t, planId, session, body, needed);
    forall p | p in t.history.created ensures p in t.history.approvalNeeded && (t.history.approvalNeeded[p] || PlanSettled(t, p)) {
      if p == planId {
        if !needed { NewPlanSettled(s, t, session, body); }
      } else if !s.history.approvalNeeded[p] { PlanSettledKept(s, t, p); }
    }
    RunsSettledPlanned(config, s, t, planId, session, body, needed);
  }

  lemma RunsSettledPlanned(config: Config, s: State, t: State, planId: Id, session: Session, body: PlanBody, needed: bool)
    requires Recorded(config, s) && NewPlan(config, s, t, planId, session, body, needed)
    requires forall id :: id in s.runs ==> RunSettled(s, s.runs[id])
    ensures forall id :: id in s.runs ==> RunSettled(t, s.runs[id])
  {
    forall id | id in s.runs ensures RunSettled(t, s.runs[id]) { RunSettledKept(s, t, s.runs[id], s.runs[id]); }
  }

  lemma NewPlanSettled(s: State, t: State, session: Session, body: PlanBody)
    requires SettledKept(s, t) && session.id in s.sessions && s.sessions[session.id] == session && body.sessionId == session.id
    requires s.sessions.Keys <= t.sessions.Keys
    requires forall step :: step in body.steps ==> Matches(session.permissions.allow, step.capability)
    ensures body.sessionId in t.sessions && StepsSettled(t.sessions[body.sessionId].permissions, body.steps)
  {
    forall step | step in body.steps ensures Settled(t.sessions[body.sessionId].permissions, step.capability) {
      assert Settled(s.sessions[session.id].permissions, step.capability);
    }
  }

  lemma PlansSettledLaunched(config: Config, s: State, t: State, operationId: Id, run: Run)
    requires PlansSettled(s) && SettledKept(s, t) && s.sessions.Keys <= t.sessions.Keys
    requires PlansKept(s, t) && InvokedWithin(s.invoked, t.invoked) && NewRun(config, s, t, operationId, run)
    requires run.planId in s.history.created && SameBody(run.body, s.history.created[run.planId])
    ensures PlansSettled(t)
  {
    AllPlansSettledKept(s, t);
    var created := s.history.created[run.planId];
    assert !s.history.approvalNeeded[run.planId] ==> PlanSettled(s, run.planId);
    assert created.sessionId == run.session.id;
    forall id | id in t.runs ensures RunSettled(t, t.runs[id]) {
      if id != operationId { RunSettledKept(s, t, s.runs[id], t.runs[id]); }
    }
  }

  lemma PlansSettledChange(config: Config, s: State, t: State, change: Change)
    requires Trusted(config) && Recorded(config, s) && PlansSettled(s) && SettledKept(s, t) && s.sessions.Keys <= t.sessions.Keys
    requires Changed(config, s, t, change)
    ensures PlansSettled(t)
  {
    match change
    case Kept => PlansSettledKept(s, t);
    case Planned(planId, session, body, needed) => PlansSettledPlanned(config, s, t, planId, session, body, needed);
    case Launched(operationId, run) =>
      assert RecordedPlan(config, s.plans[run.planId], s.history.created[run.planId]);
      RecordedLaunch(config, s.plans[run.planId], s.history.created[run.planId], run);
      PlansSettledLaunched(config, s, t, operationId, run);
  }

  /******* Where the allow list comes from *******/

  /** `c` was on the list the session was created with, or the user granted a request for it in time. */
  ghost predicate Traced(s: State, id: Text, c: Text) {
    (id in s.history.original && c in s.history.original[id]) || CapabilityGranted(s.approvals, id, c)
  }

  ghost predicate AllowTraced(s: State) {
    && s.history.original.Keys == s.sessions.Keys
    && (forall id, c :: id in s.sessions && c in s.sessions[id].permissions.allow ==> Traced(s, id, c))
    && (forall r, c :: r in s.runs && c in s.runs[r].session.permissions.allow ==> Traced(s, s.runs[r].session.id, c))
    && (forall p, c :: p in s.invoked && c in s.invoked[p].permissions.allow ==> Traced(s, s.invoked[p].id, c))
  }

  /** An allowed capability was allowed before, or its session is new, or this very step grants it. */
  ghost predicate AllowStep(s: State, t: State) {
    && s.history.original.Keys == s.sessions.Keys <= t.sessions.Keys == t.history.original.Keys
    && (forall id :: id in s.sessions ==> t.history.original[id] == s.history.original[id])
    && (forall id, c :: id in t.sessions && c in t.sessions[id].permissions.allow ==>
          || (id in s.sessions && c in s.sessions[id].permissions.allow)
          || Traced(t, id, c))
  }

  lemma TracedGrows(s: State, t: State, id: Text, c: Text)
    requires Traced(s, id, c) && ApprovalsGrow(s.now, s.approvals, t.approvals) && Decided(s)
    requires id in s.history.original ==> id in t.history.original && t.history.original[id] == s.history.original[id]
    ensures Traced(t, id, c)
  {
    DecidedGrow(s.now, s.approvals, t.approvals);
  }

  lemma AllowTracedChange(config: Config, s: State, t: State, change: Change)
    requires AllowTraced(s) && Decided(s) && ApprovalsGrow(s.now, s.approvals, t.approvals) && AllowStep(s, t)
    requires Changed(config, s, t, change)
    ensures AllowTraced(t)
  {
    forall id, c | Traced(s, id, c) ensures Traced(t, id, c) { TracedGrows(s, t, id, c); }
    match change
    case Kept => AllowTracedRuns(s, t);
    case Planned(planId, session, body, needed) => AllowTracedPlanned(config, s, t, planId, session, body, needed);
    case Launched(operationId, run) =>
  }

  lemma AllowTracedRuns(s: State, t: State)
    requires AllowTraced(s) && RunsKept(s, t)
    requires forall id, c :: Traced(s, id, c) ==> Traced(t, id, c)
    ensures forall r, c :: r in t.runs && c in t.runs[r].session.permissions.allow ==> Traced(t, t.runs[r].session.id, c)
    ensures forall p, c :: p in t.invoked && c in t.invoked[p].permissions.allow ==> Traced(t, t.invoked[p].id, c)
  {
  }

  lemma AllowTracedPlanned(config: Config, s: State, t: State, planId: Id, session: Session, body: PlanBody, needed: bool)
    requires AllowTraced(s) && NewPlan(config, s, t, planId, session, body, needed) && t.runs == s.runs
    requires forall id, c :: Traced(s, id, c) ==> Traced(t, id, c)
    ensures forall r, c :: r in t.runs && c in t.runs[r].session.permissions.allow ==> Traced(t, t.runs[r].session.id, c)
    ensures forall p, c :: p in t.invoked && c in t.invoked[p].permissions.allow ==> Traced(t, t.invoked[p].id, c)
  {
  }

  predicate SessionsSame(s: State, t: State) {
    t.sessions.Keys == s.sessions.Keys && t.history.original == s.history.original
  }

  lemma CreatePlanSessions(config: Config, s: State, sessionId: Text, planId: Id, draft: Draft)
    ensures SessionsSame(s, CreatePlan(config, s, sessionId, planId, draft))
  {
  }

  lemma StartSessions(config: Config, s: State, caller: Caller, planId: Id, operationId: Id)
    requires SessionsKeyed(s)
    ensures SessionsSame(s, Start(config, s, caller, planId, operationId))
  {
    StartEffect(config, s, caller, planId, operationId);
    StartKeepsPermissions(config, s, caller, planId, operationId);
  }

  lemma AdvanceSessions(config: Config, s: State, id: Id, outcome: Outcome)
    requires Agreement(s)
    ensures SessionsSame(s, Advance(config, s, id, outcome))
  {
    AdvanceKeepsPermissions(config, s, id, outcome);
    if id in s.runs { var _, _ := CoherentAdvance(config, s, id, outcome); }
  }

  lemma DecideSessions(s: State, i: Id, decision: Decision)
    ensures SessionsSame(s, Decide(s, i, decision))
  {
  }

  lemma RequestSessions(config: Config, s: State, sessionId: Text, capability: Text, target: Option<Text>, environment: Option<Environment>)
    ensures SessionsSame(s, RequestScope(config, s, sessionId, capability, target, environment))
  {
  }

  lemma SettingSessions(s: State, sessionId: Text, status: SessionStatus, n: Narrowing)
    ensures SessionsSame(s, SetStatus(s, sessionId, status)) && SessionsSame(s, Resume(s, sessionId))
    ensures SessionsSame(s, NarrowScope(s, sessionId, n))
  {
  }

  lemma SessionsSameStep(config: Config, s: State, a: Action)
    requires SessionsKeyed(s) && Agreement(s) && !a.CreateSessionA?
    ensures SessionsSame(s, Apply(config, s, a))
  {
    match a
    case CreatePlanA(sessionId, planId, draft) => CreatePlanSessions(config, s, sessionId, planId, draft);
    case StartA(caller, planId, operationId) => StartSessions(config, s, caller, planId, operationId);
    case AdvanceA(run, outcome) => AdvanceSessions(config, s, run, outcome);
    case DecideA(i, decision) => DecideSessions(s, i, decision);
    case RequestScopeA(sessionId, c, target, environment) => RequestSessions(config, s, sessionId, c, target, environment);
    case SetStatusA(sessionId, status) => SettingSessions(s, sessionId, status, NarrowCapabilities({}));
    case ResumeA(sessionId) => SettingSessions(s, sessionId, Active, NarrowCapabilities({}));
    case NarrowA(sessionId, n) => SettingSessions(s, sessionId, Active, n);
    case _ =>
  }

  lemma ExpansionGranted(s: State, i: Id, decision: Decision, id: Text)
    requires id in s.sessions && Expands(s, i, decision, id)
    ensures CapabilityGranted(Decide(s, i, decision).approvals, id, s.approvals[i].capability.value)
  {
    var after := Decide(s, i, decision).approvals;
    assert after[i].decision == Granted && after[i].decidedAt == Some(s.now);
    assert after[i] in after;
  }

  lemma AllowAfter(config: Config, s: State, a: Action, id: Text, c: Text)
    requires SessionsKeyed(s) && id in s.sessions && c in PermissionsAfter(s, a, id).allow
    ensures c in s.sessions[id].permissions.allow || CapabilityGranted(Apply(config, s, a).approvals, id, c)
  {
    match a
    case DecideA(i, decision) => if Expands(s, i, decision, id) { ExpansionGranted(s, i, decision, id); }
    case _ =>
  }

  lemma AllowSteps(config: Config, s: State, a: Action)
    requires SessionsKeyed(s) && Agreement(s) && AllowTraced(s)
    ensures AllowStep(s, Apply(config, s, a))
  {
    var t := Apply(config, s, a);
    if !a.CreateSessionA? {
      SessionsSameStep(config, s, a);
      forall id, c | id in t.sessions && c in t.sessions[id].permissions.allow
        ensures (id in s.sessions && c in s.sessions[id].permissions.allow) || Traced(t, id, c)
      {
        PermissionsEvolve(config, s, a, id);
        AllowAfter(config, s, a, id, c);
      }
    } else {
      CreateSessionAllow(s, a.session);
    }
  }

  lemma CreateSessionAllow(s: State, session: Session)
    requires AllowTraced(s)
    ensures AllowStep(s, CreateSession(s, session))
  {
    var t := CreateSession(s, session);
    if t != s {
      assert t.sessions == s.sessions[session.id := session];
      assert t.history.original == s.history.original[session.id := session.permissions.allow];
    }
  }

  /******* A step is only reached through the policy *******/

  /** The step run `id` is at, once the policy has let it through. */
  function StepAt(pc: Pc): Option<nat> {
    match pc
    case Checked(i) => Some(i)
    case Executing(i) => Some(i)
    case Booked(i, _) => Some(i)
    case Creating(i) => Some(i)
    case _ => None
  }

  /** Everything the policy asks about step `i`, by the session the run authenticated with, but the
      emergency stop: nothing of it can change while the plan runs. */
  predicate Permitted(config: Config, run: Run, i: nat)
    requires i < |run.body.steps|
  {
    var step, session, p := run.body.steps[i], run.session, run.session.permissions;
    && step.capability in config.registry && config.registry[step.capability].enabled
    && session.status.Active?
    && !OutOfScope(session, Request(config.registry[step.capability], step.input, run.body.environment))
    && !Matches(p.deny, step.capability)
    && (step.capability == PROVISION ==> session.maxProviderSpend > 0.0)
    && (Matches(p.allow, step.capability) || Matches(p.allowWithinApprovedPlan, step.capability) || Matches(p.requireApproval, step.capability))
  }

  /** That is the whole policy: a step of a run is allowed iff it is permitted and, while the stop
      is on, only reads. */
  lemma AllowedIffPermitted(config: Config, s: State, run: Run, i: nat)
    requires WellKeyed(config) && i < |run.body.steps| && run.body.sessionId == run.session.id
    ensures StepAllowed(config, s, run, i)
            <==> Permitted(config, run, i) && (s.stopped ==> config.registry[run.body.steps[i].capability].access.ReadAccess?)
  {
  }

  predicate RunPermitted(config: Config, run: Run) {
    match StepAt(run.pc)
    case Some(i) => i < |run.body.steps| ==> Permitted(config, run, i)
    case None => true
  }

  ghost predicate StepsPermitted(config: Config, s: State) {
    forall id :: id in s.runs ==> RunPermitted(config, s.runs[id])
  }

  lemma AllowedPermitted(config: Config, s: State, run: Run, i: nat)
    requires WellKeyed(config) && i < |run.body.steps| && StepAllowed(config, s, run, i)
    ensures Permitted(config, run, i)
  {
    var step := run.body.steps[i];
    AllowedBecause(s.stopped, run.session, Request(config.registry[step.capability], step.input, run.body.environment),
                   run.body.sessionId == run.session.id);
  }

  /** Only from a loop head does a run come to a new step. */
  lemma LocalStepAt(l: Local, n: nat, m: Local)
    requires LocalStep(l, n, m) && StepAt(m.pc).Some?
    ensures StepAt(m.pc) == StepAt(l.pc) || (l.pc.LoopHead? && m.pc == Checked(l.pc.i))
  {
  }

  lemma AdvancePermitted(config: Config, s: State, id: Id, outcome: Outcome)
    requires WellKeyed(config) && Agreement(s) && id in s.runs && RunPermitted(config, s.runs[id])
    ensures id in Advance(config, s, id, outcome).runs && RunPermitted(config, Advance(config, s, id, outcome).runs[id])
  {
    var t, run := Advance(config, s, id, outcome), s.runs[id];
    var l, m := CoherentAdvance(config, s, id, outcome);
    if StepAt(m.pc).Some? {
      LocalStepAt(l, |run.body.steps|, m);
      if l.pc.LoopHead? {
        LoopHeadEffect(config, s, id, l.pc.i);
        AllowedPermitted(config, s, run, l.pc.i);
      }
    }
  }

  lemma StepsPermittedAdvance(config: Config, s: State, id: Id, outcome: Outcome)
    requires WellKeyed(config) && Agreement(s) && StepsPermitted(config, s)
    ensures StepsPermitted(config, Advance(config, s, id, outcome))
  {
    if id in s.runs {
      AdvancePermitted(config, s, id, outcome);
      var _, _ := CoherentAdvance(config, s, id, outcome);
    }
  }

  lemma StepsPermittedLaunched(config: Config, s: State, t: State, operationId: Id, run: Run)
    requires StepsPermitted(config, s) && t.runs == s.runs[operationId := run] && run.pc == Launch
    ensures StepsPermitted(config, t)
  {
  }

  lemma StepsPermittedStart(config: Config, s: State, caller: Caller, planId: Id, operationId: Id)
    requires SessionsKeyed(s) && StepsPermitted(config, s)
    ensures StepsPermitted(config, Start(config, s, caller, planId, operationId))
  {
    StartEffect(config, s, caller, planId, operationId);
    var t := Start(config, s, caller, planId, operationId);
    match LaunchedBy(config, s, caller, planId, operationId)
    case NotLaunched => StepsPermittedSame(config, s, t);
    case LaunchedRun(run) => StepsPermittedLaunched(config, s, t, operationId, run);
  }

  lemma StepsPermittedSame(config: Config, s: State, t: State)
    requires StepsPermitted(config, s) && t.runs == s.runs
    ensures StepsPermitted(config, t)
  {
  }

  lemma StepsPermittedStep(config: Config, s: State, a: Action)
    requires WellKeyed(config) && Agreement(s) && SessionsKeyed(s) && StepsPermitted(config, s)
    ensures StepsPermitted(config, Apply(config, s, a))
  {
    if a.AdvanceA? {
      StepsPermittedAdvance(config, s, a.operationId, a.outcome);
    } else if a.StartA? {
      StepsPermittedStart(config, s, a.caller, a.planId, a.operationId);
    } else {
      OtherActionsKeepRuns(config, s, a);
      StepsPermittedSame(config, s, Apply(config, s, a));
    }
  }

  /******* The whole invariant *******/

  ghost predicate Sound(config: Config, s: State) {
    && Agreement(s) && SessionsKeyed(s) && Decided(s) && Recorded(config, s) && PlansApproved(s) && PlansSettled(s)
    && AllowTraced(s) && StepsPermitted(config, s)
  }

  lemma DecidedStep(config: Config, s: State, a: Action)
    requires SessionsKeyed(s) && Agreement(s) && Decided(s)
    ensures Decided(Apply(config, s, a))
  {
    ApprovalsEvolve(config, s, a);
    DecidedGrow(s.now, s.approvals, Apply(config, s, a).approvals);
  }

  lemma SoundStep(config: Config, s: State, a: Action)
    requires Trusted(config) && Sound(config, s)
    ensures Sound(config, Apply(config, s, a))
  {
    var t := Apply(config, s, a);
    AgreementStep(config, s, a);
    SessionsKeyedStep(config, s, a);
    DecidedStep(config, s, a);
    ApprovalsEvolve(config, s, a);
    SettledEvolves(config, s, a);
    AllowSteps(config, s, a);
    StepsPermittedStep(config, s, a);
    var change := StepChange(config, s, a);
    RecordedChange(config, s, t, change);
    PlansApprovedChange(config, s, t, change);
    PlansSettledChange(config, s, t, change);
    AllowTracedChange(config, s, t, change);
  }

  lemma {:induction false} SoundFrom(config: Config, s: State, actions: seq<Action>)
    requires Trusted(config) && Sound(config, s)
    ensures Sound(config, ApplyAll(config, s, actions))
  {
    if actions != [] {
      SoundFrom(config, s, actions[..|actions| - 1]);
      SoundStep(config, ApplyAll(config, s, actions[..|actions| - 1]), actions[|actions| - 1]);
    }
  }

  lemma {:induction false} SoundAlways(config: Config, actions: seq<Action>)
    requires Trusted(config)
    ensures Sound(config, ApplyAll(config, INITIAL, actions))
  {
    SoundFrom(config, INITIAL, actions);
  }

  /** Allowed by a pattern of the session's first allow list, or by one the user granted in time. */
  ghost predicate AllowedByUser(s: State, sessionId: Text, capability: Text) {
    Traced(s, sessionId, capability) || Traced(s, sessionId, EVERY_CAPABILITY)
  }

  /** In every reachable state: a step that the policy has let through is, in name, capability, risk
      and input, the step the plan was created with, even if someone edited the stored plan since;
      it passes the whole policy but the stop; and either the user allowed its capability in that
      session, or granted that plan in time. */
  lemma {:induction false} Authorised(config: Config, actions: seq<Action>, id: Id, i: nat)
    requires Trusted(config)
    requires var s := ApplyAll(config, INITIAL, actions);
             id in s.runs && i < |s.runs[id].body.steps| && StepAt(s.runs[id].pc) == Some(i)
    ensures var s := ApplyAll(config, INITIAL, actions); var run := s.runs[id];
            && run.planId in s.history.created && i < |s.history.created[run.planId].steps|
            && SameStep(run.body.steps[i], s.history.created[run.planId].steps[i])
            && run.body.environment == s.history.created[run.planId].environment
            && run.session.id == s.history.created[run.planId].sessionId
            && Permitted(config, run, i)
            && (AllowedByUser(s, run.session.id, run.body.steps[i].capability) || PlanGranted(s.approvals, run.planId))
  {
    SoundAlways(config, actions);
    AuthorisedIn(config, ApplyAll(config, INITIAL, actions), id, i);
  }

  /** A run at a step the allow list does not match runs a plan that the user granted in time. */
  lemma UnlistedStepGranted(s: State, id: Id, i: nat)
    requires Agreement(s) && PlansApproved(s) && PlansSettled(s) && id in s.runs
    requires s.runs[id].planId in s.history.created && i < |s.history.created[s.runs[id].planId].steps|
    requires !Settled(s.runs[id].session.permissions, s.history.created[s.runs[id].planId].steps[i].capability)
    ensures PlanGranted(s.approvals, s.runs[id].planId)
  {
    UnsettledNeeded(s, s.runs[id], i);
    NeededRunGranted(s, id);
  }

  lemma UnsettledNeeded(s: State, run: Run, i: nat)
    requires RunSettled(s, run) && i < |s.history.created[run.planId].steps|
    requires !Settled(run.session.permissions, s.history.created[run.planId].steps[i].capability)
    ensures s.history.approvalNeeded[run.planId]
  {
    assert s.history.created[run.planId].steps[i] in s.history.created[run.planId].steps;
  }

  lemma NeededRunGranted(s: State, id: Id)
    requires Agreement(s) && PlansApproved(s) && id in s.runs
    requires s.runs[id].planId in s.history.approvalNeeded && s.history.approvalNeeded[s.runs[id].planId]
    ensures PlanGranted(s.approvals, s.runs[id].planId)
  {
    RunPlanRunning(s, id);
    assert StillAwaiting(s.plans[s.runs[id].planId], true) || PlanGranted(s.approvals, s.runs[id].planId);
  }

  lemma SoundRun(config: Config, s: State, id: Id)
    requires Recorded(config, s) && StepsPermitted(config, s) && id in s.runs
    ensures var run := s.runs[id];
            run.planId in s.history.created && RecordedRun(run, s.history.created[run.planId]) && RunPermitted(config, run)
  {
  }

  lemma RecordedStep(run: Run, created: PlanBody, i: nat)
    requires RecordedRun(run, created) && i < |run.body.steps|
    ensures i < |created.steps| && SameStep(run.body.steps[i], created.steps[i])
    ensures run.body.environment == created.environment && run.session.id == created.sessionId
  {
  }

  lemma AuthorisedIn(config: Config, s: State, id: Id, i: nat)
    requires Sound(config, s) && id in s.runs && i < |s.runs[id].body.steps| && StepAt(s.runs[id].pc) == Some(i)
    ensures var run := s.runs[id];
            && run.planId in s.history.created && i < |s.history.created[run.planId].steps|
            && SameStep(run.body.steps[i], s.history.created[run.planId].steps[i])
            && run.body.environment == s.history.created[run.planId].environment
            && run.session.id == s.history.created[run.planId].sessionId
            && Permitted(config, run, i)
            && (AllowedByUser(s, run.session.id, run.body.steps[i].capability) || PlanGranted(s.approvals, run.planId))
  {
    var run := s.runs[id];
    SoundRun(config, s, id);
    RecordedStep(run, s.history.created[run.planId], i);
    if !Matches(run.session.permissions.allow, run.body.steps[i].capability) {
      UnlistedStepGranted(s, id, i);
    } else {
      ListedStepTraced(s, id, run.body.steps[i].capability);
    }
  }

  lemma ListedStepTraced(s: State, id: Id, c: Text)
    requires AllowTraced(s) && id in s.runs && Matches(s.runs[id].session.permissions.allow, c)
    ensures AllowedByUser(s, s.runs[id].session.id, c)
  {
  }
}
