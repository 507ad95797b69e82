/** What one step of the control plane can change, action by action. */
module AgentChanges {
  import opened Optional
  import opened CanonicalJson
  import opened AgentPolicy
  import opened PlanBodies
  import opened Redaction
  import opened AgentRuns
  import opened AgentSafety

  /******* Permission lists and approvals *******/

  /** The permission lists of session `id` after the step. */
  function PermissionsAfter(s: State, a: Action, id: Text): Permissions
    requires id in s.sessions
  {
    var p := s.sessions[id].permissions;
    match a
    case NarrowA(sessionId, n) => if sessionId == id then NarrowPermissions(p, n.capabilities) else p
    case DecideA(i, decision) => if Expands(s, i, decision, id) then Grant(s.sessions[id], s.approvals[i].capability.value, None, None).permissions else p
    case _ => p
  }

  /** The user grants, in time, a request to add a capability to session `id`. */
  predicate Expands(s: State, i: Id, decision: Decision, id: Text) {
    && i < |s.approvals| && s.approvals[i].decision == Pending && decision == Granted && s.now < s.approvals[i].expiresAt
    && s.approvals[i].capability.Some? && s.approvals[i].planId.None? && s.approvals[i].sessionId == id
  }

  predicate PermissionsKept(s: State, t: State) {
    forall id :: id in s.sessions ==> id in t.sessions && t.sessions[id].permissions == s.sessions[id].permissions
  }

  lemma AuthenticateKeepsPermissions(s: State, sessionId: Text)
    ensures PermissionsKept(s, Authenticate(s, sessionId).state)
    ensures Authenticate(s, sessionId).state.sessions.Keys == s.sessions.Keys
    ensures var a := Authenticate(s, sessionId);
            a.session.Some? ==> a.state == s && sessionId in s.sessions && a.session.value == s.sessions[sessionId]
  {
  }

  lemma StartKeepsPermissions(config: Config, s: State, caller: Caller, planId: Id, operationId: Id)
    requires SessionsKeyed(s)
    ensures PermissionsKept(s, Start(config, s, caller, planId, operationId))
    ensures Start(config, s, caller, planId, operationId).sessions.Keys == s.sessions.Keys
  {
    if caller.Token? { AuthenticateKeepsPermissions(s, caller.sessionId); }
  }

  lemma CreatePlanKeepsPermissions(config: Config, s: State, sessionId: Text, planId: Id, draft: Draft)
    ensures PermissionsKept(s, CreatePlan(config, s, sessionId, planId, draft))
    ensures CreatePlan(config, s, sessionId, planId, draft).sessions.Keys == s.sessions.Keys
  {
    AuthenticateKeepsPermissions(s, sessionId);
  }

  lemma RequestKeepsPermissions(config: Config, s: State, sessionId: Text, capability: Text, target: Option<Text>, environment: Option<Environment>)
    ensures PermissionsKept(s, RequestScope(config, s, sessionId, capability, target, environment))
    ensures RequestScope(config, s, sessionId, capability, target, environment).sessions.Keys == s.sessions.Keys
  {
    AuthenticateKeepsPermissions(s, sessionId);
  }

  lemma AdvanceKeepsPermissions(config: Config, s: State, id: Id, outcome: Outcome)
    requires Agreement(s)
    ensures PermissionsKept(s, Advance(config, s, id, outcome))
    ensures Advance(config, s, id, outcome).sessions.Keys == s.sessions.Keys
  {
    if id in s.runs { var _, _ := CoherentAdvance(config, s, id, outcome); }
  }

  lemma DecidePermissions(s: State, i: Id, decision: Decision, id: Text)
    requires id in s.sessions
    ensures id in Decide(s, i, decision).sessions
    ensures Decide(s, i, decision).sessions.Keys == s.sessions.Keys
    ensures Decide(s, i, decision).sessions[id].permissions == PermissionsAfter(s, DecideA(i, decision), id)
  {
    DecidedSessions(s, i, decision);
  }

  /** A decision changes the one session whose request it grants, if any. */
  lemma DecidedSessions(s: State, i: Id, decision: Decision)
    ensures Decide(s, i, decision).sessions
            == if i < |s.approvals| && Expands(s, i, decision, s.approvals[i].sessionId)
               then var a := s.approvals[i];
                    GrantScope(s, a.sessionId, a.capability.value, a.target, a.environment).sessions
               else s.sessions
  {
  }

  lemma SettingKeepsPermissions(s: State, sessionId: Text, status: SessionStatus)
    ensures PermissionsKept(s, SetStatus(s, sessionId, status))
  {
  }

  lemma ResumeKeepsPermissions(s: State, sessionId: Text)
    ensures PermissionsKept(s, Resume(s, sessionId))
  {
    SettingKeepsPermissions(s, sessionId, Active);
  }

  lemma QuietKeepsPermissions(config: Config, s: State, a: Action)
    requires a.CancelA? || a.StopA? || a.WaitA? || a.EditA?
    ensures Apply(config, s, a).sessions == s.sessions
  {
  }

  lemma NarrowedPermissions(s: State, sessionId: Text, n: Narrowing, id: Text)
    requires id in s.sessions
    ensures id in NarrowScope(s, sessionId, n).sessions
    ensures NarrowScope(s, sessionId, n).sessions[id].permissions == PermissionsAfter(s, NarrowA(sessionId, n), id)
  {
  }

  lemma CreatingKeepsPermissions(s: State, session: Session)
    ensures PermissionsKept(s, CreateSession(s, session))
  {
  }

  lemma KeptPermissions(s: State, t: State, a: Action, id: Text)
    requires PermissionsKept(s, t) && id in s.sessions && !a.NarrowA? && !a.DecideA?
    ensures id in t.sessions && t.sessions[id].permissions == PermissionsAfter(s, a, id)
  {
  }

  lemma OthersKeepPermissions(config: Config, s: State, a: Action)
    requires SessionsKeyed(s) && Agreement(s) && !a.NarrowA? && !a.DecideA?
    ensures PermissionsKept(s, Apply(config, s, a))
  {
    match a
    case CreateSessionA(session) => CreatingKeepsPermissions(s, session);
    case CreatePlanA(sessionId, planId, draft) => CreatePlanKeepsPermissions(config, s, sessionId, planId, draft);
    case StartA(caller, planId, operationId) => StartKeepsPermissions(config, s, caller, planId, operationId);
    case RequestScopeA(sessionId, c, target, environment) => RequestKeepsPermissions(config, s, sessionId, c, target, environment);
    case AdvanceA(run, outcome) => AdvanceKeepsPermissions(config, s, run, outcome);
    case SetStatusA(sessionId, status) => SettingKeepsPermissions(s, sessionId, status);
    case ResumeA(sessionId) => ResumeKeepsPermissions(s, sessionId);
    case _ => QuietKeepsPermissions(config, s, a);
  }

  /** A permission list changes by a narrowing or by a granted expansion, and in no other way. */
  lemma PermissionsEvolve(config: Config, s: State, a: Action, id: Text)
    requires SessionsKeyed(s) && Agreement(s) && id in s.sessions
    ensures id in Apply(config, s, a).sessions
    ensures Apply(config, s, a).sessions[id].permissions == PermissionsAfter(s, a, id)
  {
    if a.NarrowA? {
      NarrowedPermissions(s, a.sessionId, a.narrowing, id);
    } else if a.DecideA? {
      DecidePermissions(s, a.approval, a.decision, id);
    } else {
      OthersKeepPermissions(config, s, a);
      KeptPermissions(s, Apply(config, s, a), a, id);
    }
  }

  /** Approvals are only added, pending, and only a pending one is decided; a grant is in time. */
  predicate ApprovalStep(now: nat, a: Approval, b: Approval) {
    || b == a
    || (a.decision == Pending && b == a.(decision := b.decision, decidedAt := Some(now)) && (b.decision == Granted ==> now < a.expiresAt))
  }

  predicate ApprovalsGrow(now: nat, before: seq<Approval>, after: seq<Approval>) {
    && |before| <= |after|
    && (forall i :: 0 <= i < |before| ==> ApprovalStep(now, before[i], after[i]))
    && (forall i :: |before| <= i < |after| ==> after[i].decision == Pending)
  }

  lemma RequestGrows(config: Config, s: State, sessionId: Text, capability: Text, target: Option<Text>, environment: Option<Environment>)
    ensures ApprovalsGrow(s.now, s.approvals, RequestScope(config, s, sessionId, capability, target, environment).approvals)
  {
    QuietAuthenticate(s, sessionId);
  }

  lemma CreatePlanGrows(config: Config, s: State, sessionId: Text, planId: Id, draft: Draft)
    ensures ApprovalsGrow(s.now, s.approvals, CreatePlan(config, s, sessionId, planId, draft).approvals)
  {
    QuietAuthenticate(s, sessionId);
  }

  lemma ApprovalsEvolve(config: Config, s: State, a: Action)
    requires SessionsKeyed(s) && Agreement(s)
    ensures ApprovalsGrow(s.now, s.approvals, Apply(config, s, a).approvals)
  {
    match a
    case CreatePlanA(sessionId, planId, draft) => CreatePlanGrows(config, s, sessionId, planId, draft);
    case RequestScopeA(sessionId, c, target, environment) => RequestGrows(config, s, sessionId, c, target, environment);
    case StartA(caller, planId, operationId) => StartEffect(config, s, caller, planId, operationId);
    case AdvanceA(run, outcome) => AdvanceGrows(config, s, run, outcome);
    case DecideA(i, decision) => DecideGrows(s, i, decision);
    case _ => OthersKeepApprovals(config, s, a);
  }

  lemma OthersKeepApprovals(config: Config, s: State, a: Action)
    requires !a.CreatePlanA? && !a.RequestScopeA? && !a.StartA? && !a.AdvanceA? && !a.DecideA?
    ensures Apply(config, s, a).approvals == s.approvals
  {
  }

  lemma AdvanceGrows(config: Config, s: State, id: Id, outcome: Outcome)
    requires Agreement(s)
    ensures ApprovalsGrow(s.now, s.approvals, Advance(config, s, id, outcome).approvals)
  {
    if id in s.runs { var _, _ := CoherentAdvance(config, s, id, outcome); }
  }

  lemma DecideGrows(s: State, i: Id, decision: Decision)
    ensures ApprovalsGrow(s.now, s.approvals, Decide(s, i, decision).approvals)
  {
  }

  /******* Plans and runs across one step *******/

  predicate PlanStepped(approvals: seq<Approval>, p: Id, before: Plan, after: Plan) {
    && after.hash == before.hash
    && (WellFormedBody(before.body) ==> WellFormedBody(after.body))
    && (before.status == AwaitingApproval && after.status != AwaitingApproval ==> ApprovedForPlan(approvals, p))
  }

  ghost predicate PlansKept(s: State, t: State) {
    && t.plans.Keys == s.plans.Keys
    && (forall p :: p in s.plans ==> PlanStepped(s.approvals, p, s.plans[p], t.plans[p]))
    && t.history.created == s.history.created && t.history.approvalNeeded == s.history.approvalNeeded
  }

  ghost predicate RunsKept(s: State, t: State) {
    && InvokedWithin(s.invoked, t.invoked) && t.runs.Keys == s.runs.Keys
    && (forall id :: id in s.runs ==> t.runs[id] == s.runs[id].(pc := t.runs[id].pc))
  }

  /** What a step does to plans and runs: no more than statuses, stored bodies and counters; or
      one new plan; or one new run. */
  datatype Change = Kept | Planned(planId: Id, session: Session, body: PlanBody, needed: bool) | Launched(operationId: Id, run: Run)

  ghost predicate NewPlan(config: Config, s: State, t: State, planId: Id, session: Session, body: PlanBody, needed: bool) {
    && planId !in s.plans && session.id in s.sessions && s.sessions[session.id] == session
    && t.plans == s.plans[planId := Plan(config.record(body), config.hash(body), if needed then AwaitingApproval else Approved)]
    && t.history.created == s.history.created[planId := body]
    && t.history.approvalNeeded == s.history.approvalNeeded[planId := needed]
    && WellFormedBody(body) && body.sessionId == session.id
    && (!needed ==> forall step :: step in body.steps ==> Matches(session.permissions.allow, step.capability))
    && (t.invoked == s.invoked || (!needed && t.invoked == s.invoked[planId := session]))
  }

  ghost predicate NewRun(config: Config, s: State, t: State, operationId: Id, run: Run) {
    && operationId !in s.runs && t.runs == s.runs[operationId := run]
    && run.planId in s.plans && run.body == s.plans[run.planId].body && run.body.sessionId == run.session.id
    && config.hash(run.body) == s.plans[run.planId].hash
    && AdmittedRun(s, run) && run.pc == Launch
  }

  ghost predicate Changed(config: Config, s: State, t: State, change: Change) {
    match change
    case Kept => PlansKept(s, t) && RunsKept(s, t)
    case Planned(planId, session, body, needed) => NewPlan(config, s, t, planId, session, body, needed) && t.runs == s.runs
    case Launched(operationId, run) => PlansKept(s, t) && InvokedWithin(s.invoked, t.invoked) && NewRun(config, s, t, operationId, run)
  }

  lemma DraftWellFormed(config: Config, s: State, session: Session, draft: Draft)
    requires Plannable(config, s, session, draft)
    ensures WellFormedBody(DraftBody(config, s.stopped, session, draft))
  {
  }

  lemma UnneededMatches(config: Config, s: State, session: Session, draft: Draft)
    requires WellKeyed(config) && Plannable(config, s, session, draft)
    requires !AnyNeedsApproval(config, s.stopped, session, DraftEnvironment(session, draft), draft.calls)
    ensures forall step :: step in DraftBody(config, s.stopped, session, draft).steps ==> Matches(session.permissions.allow, step.capability)
  {
    var environment := DraftEnvironment(session, draft);
    var steps := DraftBody(config, s.stopped, session, draft).steps;
    forall step | step in steps ensures Matches(session.permissions.allow, step.capability) {
      var i :| 0 <= i < |steps| && steps[i] == step;
      var call := draft.calls[i];
      assert !NeedsApproval(config, s.stopped, session, environment, call);
      assert Admitted(config, s.stopped, session, environment, call).Some?;
      var request := Request(config.registry[call.capability], Admitted(config, s.stopped, session, environment, call).value, environment);
      AllowedBecause(s.stopped, session, request, false);
    }
  }

  /** The validator accepts what it returned, and fills in nothing more. */
  ghost predicate Stable(config: Config) {
    forall c, input :: config.validate(c, input).Some? ==>
      config.validate(c, config.validate(c, input).value) == config.validate(c, input)
  }

  lemma {:induction false} DigitsInjective(m: nat, n: nat)
    requires Digits(m) == Digits(n)
    ensures m == n
  {
    if m >= 10 && n >= 10 {
      var a, b := Digits(m), Digits(n);
      assert a[..|a| - 1] == Digits(m / 10) && b[..|b| - 1] == Digits(n / 10);
      assert a[|a| - 1] == b[|b| - 1];
      DigitsInjective(m / 10, n / 10);
    } else if m < 10 {
      DigitsLong(n);
    } else {
      DigitsLong(m);
    }
  }

  lemma DigitsLong(n: nat)
    ensures |Digits(n)| > 0 && (n >= 10 ==> |Digits(n)| > 1)
  {
    if n >= 10 { DigitsLong(n / 10); }
  }

  lemma StepIdsDiffer(i: nat, j: nat)
    requires i != j
    ensures StepId(i) != StepId(j)
  {
    if StepId(i) == StepId(j) {
      assert StepId(i)[5..] == Digits(i + 1) && StepId(j)[5..] == Digits(j + 1);
      DigitsInjective(i + 1, j + 1);
    }
  }

  /** A step as the policy will see it again when it runs. */
  predicate AcceptableStep(config: Config, s: State, session: Session, environment: Environment, step: Step) {
    && step.capability in config.registry && !config.secret(step.input)
    && config.validate(step.capability, step.input) == Some(step.input)
    && Evaluate(s.stopped, session, Request(config.registry[step.capability], step.input, environment), false) != Deny
  }

  lemma PlannedStep(config: Config, s: State, session: Session, draft: Draft, i: nat)
    requires WellKeyed(config) && Stable(config) && Plannable(config, s, session, draft) && i < |draft.calls|
    ensures var environment := DraftEnvironment(session, draft);
            AcceptableStep(config, s, session, environment, PlanStep(config, s.stopped, session, environment, draft.calls[i], i))
  {
    assert Admitted(config, s.stopped, session, DraftEnvironment(session, draft), draft.calls[i]).Some?;
  }

  /** A plan as it was drafted: one step a call, in order, under distinct names; every step validates
      again to itself, holds no secret field and is not denied; and the plan is valid. */
  lemma PlannedBody(config: Config, s: State, session: Session, draft: Draft, status: PlanStatus)
    requires WellKeyed(config) && Stable(config) && Plannable(config, s, session, draft)
    ensures var body := DraftBody(config, s.stopped, session, draft);
            && |body.steps| == |draft.calls|
            && (forall i, j :: 0 <= i < j < |body.steps| ==> body.steps[i].id != body.steps[j].id)
            && (forall i :: 0 <= i < |body.steps| ==>
                  body.steps[i].capability == draft.calls[i].capability && AcceptableStep(config, s, session, body.environment, body.steps[i]))
            && ValidPlan(config, Plan(body, config.hash(body), status))
  {
    var body := DraftBody(config, s.stopped, session, draft);
    forall i, j | 0 <= i < j < |body.steps| ensures body.steps[i].id != body.steps[j].id { StepIdsDiffer(i, j); }
    forall i | 0 <= i < |body.steps|
      ensures body.steps[i].capability == draft.calls[i].capability && AcceptableStep(config, s, session, body.environment, body.steps[i])
    {
      PlannedStep(config, s, session, draft, i);
    }
  }

  /** An injective digest and the redactor are all that is asked of the program's configuration. */
  lemma ProgramTrusted(digest: Text -> Text, le: (Text, Text) -> bool, scrubber: Scrubber, config: Config)
    requires Injective(digest) && WellKeyed(config)
    requires forall body :: config.hash(body) == HashPlan(digest, le, body)
    requires forall body :: config.record(body) == RecordedBody(scrubber, body)
    ensures Trusted(config)
  {
    forall a, b | WellFormedBody(a) && WellFormedBody(b) && config.hash(a) == config.hash(b) ensures SameBody(a, b) {
      BodyHashDetermines(digest, le, a, b);
    }
    forall body | WellFormedBody(body) ensures WellFormedBody(config.record(body)) { RecordedWellFormed(scrubber, body); }
  }

  /** Beside the steps a plan holds lists of strings and a fixed record: no secret-like field. */
  predicate NoSecretsAround(scrubber: Scrubber, draft: Draft) {
    && !ContainsSecretLikeField(scrubber, draft.successCriteria) && !ContainsSecretLikeField(scrubber, draft.estimatedEffects)
    && !ContainsSecretLikeField(scrubber, draft.excludedEffects) && !ContainsSecretLikeField(scrubber, draft.rollback)
  }

  lemma DraftNoSecrets(scrubber: Scrubber, config: Config, s: State, session: Session, draft: Draft)
    requires Plannable(config, s, session, draft) && NoSecretsAround(scrubber, draft)
    requires forall v :: config.secret(v) == ContainsSecretLikeField(scrubber, v)
    ensures NoSecretFields(scrubber, DraftBody(config, s.stopped, session, draft))
  {
    var steps := DraftBody(config, s.stopped, session, draft).steps;
    forall step | step in steps ensures !ContainsSecretLikeField(scrubber, step.input) {
      var i :| 0 <= i < |steps| && steps[i] == step;
      assert Admitted(config, s.stopped, session, DraftEnvironment(session, draft), draft.calls[i]).Some?;
    }
  }

  /** What is stored of a plan matches its hash iff the redactor flagged nothing in its body: a plan
      with secret-shaped text in it is stale as soon as it is saved. */
  lemma SavedPlanMatchesHash(digest: Text -> Text, le: (Text, Text) -> bool, scrubber: Scrubber, config: Config, s: State, session: Session, planId: Id, draft: Draft)
    requires Injective(digest) && PlainNames(scrubber) && Plannable(config, s, session, draft)
    requires forall body :: config.hash(body) == HashPlan(digest, le, body)
    requires forall body :: config.record(body) == RecordedBody(scrubber, body)
    requires forall v :: config.secret(v) == ContainsSecretLikeField(scrubber, v)
    requires NoSecretsAround(scrubber, draft)
    ensures var plan := SavePlan(config, s, session, planId, draft).plans[planId];
            var flagged := Applied(scrubber, Obj(BodyFields(DraftBody(config, s.stopped, session, draft))));
            && (config.hash(plan.body) == plan.hash <==> !flagged)
            && (flagged ==> !ValidPlan(config, plan))
  {
    DraftWellFormed(config, s, session, draft);
    DraftNoSecrets(scrubber, config, s, session, draft);
    RecordedPlanKeepsHash(digest, le, scrubber, DraftBody(config, s.stopped, session, draft));
  }

  lemma CreatePlanChange(config: Config, s: State, sessionId: Text, planId: Id, draft: Draft) returns (change: Change)
    requires WellKeyed(config) && SessionsKeyed(s)
    ensures Changed(config, s, CreatePlan(config, s, sessionId, planId, draft), change)
  {
    AuthenticateKeepsPermissions(s, sessionId);
    QuietAuthenticate(s, sessionId);
    var a := Authenticate(s, sessionId);
    change := Kept;
    if a.session.Some? && planId !in s.plans && Plannable(config, s, a.session.value, draft) {
      var session := a.session.value;
      var body := DraftBody(config, s.stopped, session, draft);
      var needed := AnyNeedsApproval(config, s.stopped, session, body.environment, draft.calls);
      DraftWellFormed(config, s, session, draft);
      if !needed { UnneededMatches(config, s, session, draft); }
      change := Planned(planId, session, body, needed);
    }
  }

  lemma LaunchedNewRun(config: Config, s: State, t: State, planId: Id, operationId: Id, run: Run)
    requires StartShape(s, t, planId, operationId, LaunchedRun(run)) && InvokedWithin(s.invoked, t.invoked)
    requires config.hash(s.plans[planId].body) == s.plans[planId].hash && t.history == s.history
    ensures Changed(config, s, t, Launched(operationId, run))
  {
  }

  lemma NotLaunchedKept(config: Config, s: State, t: State, planId: Id, operationId: Id)
    requires StartShape(s, t, planId, operationId, NotLaunched) && t.history == s.history && InvokedWithin(s.invoked, t.invoked)
    ensures Changed(config, s, t, Kept)
  {
  }

  lemma StartChange(config: Config, s: State, caller: Caller, planId: Id, operationId: Id) returns (change: Change)
    requires SessionsKeyed(s)
    ensures Changed(config, s, Start(config, s, caller, planId, operationId), change)
  {
    StartEffect(config, s, caller, planId, operationId);
    var t := Start(config, s, caller, planId, operationId);
    match LaunchedBy(config, s, caller, planId, operationId)
    case NotLaunched =>
      NotLaunchedKept(config, s, t, planId, operationId);
      change := Kept;
    case LaunchedRun(run) =>
      LaunchedNewRun(config, s, t, planId, operationId, run);
      change := Launched(operationId, run);
  }

  lemma AdvanceChange(config: Config, s: State, id: Id, outcome: Outcome)
    requires Agreement(s)
    ensures Changed(config, s, Advance(config, s, id, outcome), Kept)
  {
    if id in s.runs {
      var l, m := CoherentAdvance(config, s, id, outcome);
      OnlyRunKept(config, s, Advance(config, s, id, outcome), id);
    }
  }

  lemma OnlyRunKept(config: Config, s: State, t: State, id: Id)
    requires Placed(s, id) && OnlyRun(s, t, id) && s.plans[s.runs[id].planId].status != AwaitingApproval
    ensures Changed(config, s, t, Kept)
  {
  }

  lemma QuietKept(config: Config, s: State, t: State)
    requires Quiet(s, t)
    ensures Changed(config, s, t, Kept)
  {
  }

  lemma StepChange(config: Config, s: State, a: Action) returns (change: Change)
    requires WellKeyed(config) && SessionsKeyed(s) && Agreement(s)
    ensures Changed(config, s, Apply(config, s, a), change)
  {
    change := Kept;
    match a
    case CreatePlanA(sessionId, planId, draft) => change := CreatePlanChange(config, s, sessionId, planId, draft);
    case StartA(caller, planId, operationId) => change := StartChange(config, s, caller, planId, operationId);
    case AdvanceA(id, outcome) => AdvanceChange(config, s, id, outcome);
    case EditA(planId, body) => EditKept(config, s, planId, body);
    case CancelA(id) => CancelKept(config, s, id);
    case _ => QuietActionKept(config, s, a);
  }

  lemma QuietActionKept(config: Config, s: State, a: Action)
    requires IsQuiet(a)
    ensures Changed(config, s, Apply(config, s, a), Kept)
  {
    QuietActions(config, s, a);
    QuietKept(config, s, Apply(config, s, a));
  }

  lemma EditKept(config: Config, s: State, planId: Id, body: PlanBody)
    ensures Changed(config, s, EditPlan(s, planId, body), Kept)
  {
  }

  lemma CancelKept(config: Config, s: State, id: Id)
    ensures Changed(config, s, RequestCancel(s, id), Kept)
  {
  }
}
