/** What holds in every reachable state of the agent control plane. */
module AgentSafety {
  import opened Optional
  import opened CanonicalJson
  import opened AgentPolicy
  import opened PlanBodies
  import opened AgentRuns
  import Operations

  /** The registry files every capability under its own id. */
  ghost predicate WellKeyed(config: Config) {
    forall c :: c in config.registry ==> config.registry[c].id == c
  }

  /** What is stored of a well-formed plan is well formed. */
  ghost predicate StoresWellFormed(config: Config) {
    forall body :: WellFormedBody(body) ==> WellFormedBody(config.record(body))
  }

  ghost predicate Trusted(config: Config) {
    WellKeyed(config) && Covers(config.hash) && StoresWellFormed(config)
  }

  /******* Runs, operations and plans agree *******/

  predicate InFlight(life: Operations.Life) {
    life == Operations.Life(Operations.Running, false) || life == Operations.Life(Operations.Cancelling, true)
  }

  /** Which operation and plan states go with a program counter, over a plan of `n` steps. */
  predicate Coherent(pc: Pc, n: nat, life: Operations.Life, plan: PlanStatus) {
    match pc
    case Launch => plan == Running && (life == Operations.Life(Operations.Queued, false) || life == Operations.Life(Operations.Cancelled, true))
    case LoopHead(i) => i <= n && plan == Running && InFlight(life)
    case Checked(i) => i < n && plan == Running && InFlight(life)
    case Executing(i) => i < n && plan == Running && InFlight(life)
    case Booked(i, _) => i < n && plan == Running && InFlight(life)
    case Creating(i) => i < n && plan == Running && InFlight(life)
    case Cancelling => plan == Running && life == Operations.Life(Operations.Cancelled, true)
    case Verified => plan == Running && (life == Operations.Life(Operations.Verifying, false) || life == Operations.Life(Operations.Cancelling, true))
    case Succeeding => plan == Running && life == Operations.Life(Operations.Succeeded, false)
    case Catching => plan == Running && (InFlight(life) || life == Operations.Life(Operations.Verifying, false))
    case Failing => plan == Running && life.state == Operations.Failed
    case Done =>
      || (plan == Succeeded && life == Operations.Life(Operations.Succeeded, false))
      || (plan == Failed && life.state == Operations.Failed)
      || (plan == Cancelled && life == Operations.Life(Operations.Cancelled, true))
    case Crashed => plan == Running && life == Operations.Life(Operations.Cancelled, true)
  }

  ghost predicate CoherentRun(s: State, id: Id)
    requires id in s.runs
  {
    var run := s.runs[id];
    && id in s.operations && run.planId in s.plans
    && s.operations[id].planId == run.planId
    && s.operations[id].sessionId == run.session.id
    && Coherent(run.pc, |run.body.steps|, s.operations[id].life, s.plans[run.planId].status)
  }

  ghost predicate Agreement(s: State) {
    && s.operations.Keys == s.runs.Keys
    && (forall id :: id in s.runs ==> CoherentRun(s, id))
    && (forall x, y :: x in s.runs && y in s.runs && x != y ==> s.runs[x].planId != s.runs[y].planId)
  }

  /** The step changes nothing a run depends on. */
  predicate Quiet(s: State, t: State) {
    t == s.(now := t.now, stopped := t.stopped, sessions := t.sessions, approvals := t.approvals,
            history := s.history.(original := t.history.original))
  }

  predicate IsQuiet(a: Action) {
    !a.CreatePlanA? && !a.CancelA? && !a.EditA? && !a.StartA? && !a.AdvanceA?
  }

  lemma QuietAuthenticate(s: State, sessionId: Text)
    ensures Quiet(s, Authenticate(s, sessionId).state)
    ensures Authenticate(s, sessionId).state.approvals == s.approvals
  {
  }

  lemma QuietDecide(s: State, i: Id, decision: Decision)
    ensures Quiet(s, Decide(s, i, decision))
  {
    var t := Decide(s, i, decision);
    assert t == s.(approvals := t.approvals, sessions := t.sessions);
  }

  lemma QuietRequest(config: Config, s: State, sessionId: Text, capability: Text, target: Option<Text>, environment: Option<Environment>)
    ensures Quiet(s, RequestScope(config, s, sessionId, capability, target, environment))
  {
    QuietAuthenticate(s, sessionId);
  }

  lemma QuietStatus(s: State, sessionId: Text, status: SessionStatus)
    ensures Quiet(s, SetStatus(s, sessionId, status))
  {
  }

  lemma QuietNarrow(s: State, sessionId: Text, n: Narrowing)
    ensures Quiet(s, NarrowScope(s, sessionId, n))
  {
  }

  lemma QuietCreateSession(s: State, session: Session)
    ensures Quiet(s, CreateSession(s, session))
  {
  }

  lemma QuietSessions(config: Config, s: State, a: Action)
    requires a.CreateSessionA? || a.SetStatusA? || a.ResumeA? || a.NarrowA?
    ensures Quiet(s, Apply(config, s, a))
  {
    match a
    case CreateSessionA(session) => QuietCreateSession(s, session);
    case SetStatusA(sessionId, status) => QuietStatus(s, sessionId, status);
    case ResumeA(sessionId) => QuietStatus(s, sessionId, Active);
    case NarrowA(sessionId, n) => QuietNarrow(s, sessionId, n);
  }

  lemma QuietActions(config: Config, s: State, a: Action)
    requires IsQuiet(a)
    ensures Quiet(s, Apply(config, s, a))
  {
    match a
    case RequestScopeA(sessionId, c, target, environment) => QuietRequest(config, s, sessionId, c, target, environment);
    case DecideA(approval, decision) => QuietDecide(s, approval, decision);
    case StopA(_) =>
    case WaitA(_) =>
    case _ => QuietSessions(config, s, a);
  }

  /******* What one await of a run can do *******/

  /** The three things an await may move: the program counter, the operation, the plan. */
  datatype Local = Local(pc: Pc, life: Operations.Life, plan: PlanStatus)

  function Moved(l: Local, state: Operations.OperationState, next: Pc, otherwise: Pc): Local {
    SettledTo(l, Operations.Transition(l.life, state, false), next, otherwise)
  }

  function SettledTo(l: Local, outcome: Operations.Outcome, next: Pc, otherwise: Pc): Local {
    match outcome
    case Ok(life) => l.(pc := next, life := life)
    case Refused => l.(pc := otherwise)
  }

  predicate LocalStep(l: Local, n: nat, m: Local) {
    match l.pc
    case Launch => m == Moved(l, Operations.Running, LoopHead(0), Crashed)
    case LoopHead(i) =>
      if i >= n then m == Moved(l, Operations.Verifying, Verified, Catching)
      else if l.life.cancelRequested then m == Moved(l, Operations.Cancelled, Cancelling, Catching)
      else m == l.(pc := Checked(i)) || m == l.(pc := Catching)
    case Checked(i) => m == Moved(l, Operations.Running, Executing(i), Catching)
    case Executing(i) =>
      m == l || m == l.(pc := LoopHead(i + 1)) || m == l.(pc := Catching) || (m.pc.Booked? && m == l.(pc := Booked(i, m.pc.amount)))
    case Booked(i, _) => m == l.(pc := Creating(i))
    case Creating(i) => m == l || m == l.(pc := LoopHead(i + 1)) || m == l.(pc := Catching)
    case Cancelling => m == l.(pc := Done, plan := Cancelled)
    case Verified => m == Moved(l, Operations.Succeeded, Succeeding, Catching)
    case Succeeding => m == l.(pc := Done, plan := Succeeded)
    case Catching => m == Moved(l, Operations.Failed, Failing, Crashed)
    case Failing => m == l.(pc := Done, plan := Failed)
    case Done => m == l
    case Crashed => m == l
  }

  predicate Placed(s: State, id: Id) {
    id in s.runs && id in s.operations && s.runs[id].planId in s.plans
  }

  function LocalOf(s: State, id: Id): Local
    requires Placed(s, id)
  {
    Local(s.runs[id].pc, s.operations[id].life, s.plans[s.runs[id].planId].status)
  }

  /** No session changed but in what it has spent. */
  predicate SpendOnly(before: map<Text, Session>, after: map<Text, Session>) {
    && after.Keys == before.Keys
    && (forall x :: x in before ==> after[x] == before[x].(providerSpend := after[x].providerSpend))
  }

  /** Nothing but run `id`, its operation, its plan's status and a session's spend changed. */
  predicate OnlyRun(s: State, t: State, id: Id)
    requires Placed(s, id)
  {
    && SpendOnly(s.sessions, t.sessions)
    && t.runs.Keys == s.runs.Keys && t.operations.Keys == s.operations.Keys && t.plans.Keys == s.plans.Keys
    && (forall x :: x in s.runs && x != id ==> t.runs[x] == s.runs[x])
    && (forall x :: x in s.operations && x != id ==> t.operations[x] == s.operations[x])
    && (forall p :: p in s.plans && p != s.runs[id].planId ==> t.plans[p] == s.plans[p])
    && t.runs[id] == s.runs[id].(pc := t.runs[id].pc)
    && t.operations[id] == s.operations[id].(life := t.operations[id].life)
    && t.plans[s.runs[id].planId] == s.plans[s.runs[id].planId].(status := t.plans[s.runs[id].planId].status)
    && t.approvals == s.approvals && t.now == s.now && t.stopped == s.stopped && t.invoked == s.invoked
    && t.history.(commitments := [], creates := []) == s.history.(commitments := [], creates := [])
  }

  lemma GotoEffect(s: State, id: Id, pc: Pc)
    requires Placed(s, id)
    ensures var t := Goto(s, id, pc);
            OnlyRun(s, t, id) && LocalOf(t, id) == LocalOf(s, id).(pc := pc)
            && t.sessions == s.sessions && t.history == s.history
  {
  }

  lemma SetLifeGotoEffect(s: State, id: Id, life: Operations.Life, pc: Pc)
    requires Placed(s, id)
    ensures var t := Goto(SetLife(s, id, life), id, pc);
            OnlyRun(s, t, id) && LocalOf(t, id) == LocalOf(s, id).(pc := pc, life := life)
            && t.sessions == s.sessions && t.history == s.history
  {
  }

  lemma MoveEffect(s: State, id: Id, state: Operations.OperationState, next: Pc, otherwise: Pc)
    requires Placed(s, id)
    ensures var t := Move(s, id, state, next, otherwise);
            OnlyRun(s, t, id) && LocalOf(t, id) == Moved(LocalOf(s, id), state, next, otherwise)
            && t.sessions == s.sessions && t.history == s.history
  {
    SettleEffect(s, id, Operations.Transition(s.operations[id].life, state, false), next, otherwise);
  }

  lemma SettleEffect(s: State, id: Id, outcome: Operations.Outcome, next: Pc, otherwise: Pc)
    requires Placed(s, id)
    ensures var t := Settle(s, id, outcome, next, otherwise);
            OnlyRun(s, t, id) && LocalOf(t, id) == SettledTo(LocalOf(s, id), outcome, next, otherwise)
            && t.sessions == s.sessions && t.history == s.history
  {
    match outcome
    case Ok(life) => SetLifeGotoEffect(s, id, life, next);
    case Refused => GotoEffect(s, id, otherwise);
  }

  lemma FinishEffect(s: State, id: Id, status: PlanStatus)
    requires Placed(s, id)
    ensures var t := Finish(s, id, status);
            OnlyRun(s, t, id) && LocalOf(t, id) == LocalOf(s, id).(pc := Done, plan := status)
            && t.sessions == s.sessions && t.history == s.history
  {
  }

  lemma CommitEffect(s: State, id: Id, i: nat, amount: real)
    requires Placed(s, id)
    ensures var t := Commit(s, id, i, amount);
            && OnlyRun(s, t, id)
            && LocalOf(t, id) == LocalOf(s, id).(pc :=
                 if Affordable(s, s.runs[id].session.id, amount) then Booked(i, Positive(amount)) else Catching)
  {
  }

  lemma StartCreateEffect(s: State, id: Id, i: nat, amount: real)
    requires Placed(s, id)
    ensures var t := StartCreate(s, id, i, amount);
            OnlyRun(s, t, id) && LocalOf(t, id) == LocalOf(s, id).(pc := Creating(i)) && t.sessions == s.sessions
  {
  }

  lemma LoopHeadEffect(config: Config, s: State, id: Id, i: nat)
    requires Placed(s, id) && s.runs[id].pc == LoopHead(i)
    ensures var t := AtLoopHead(config, s, id, i);
            && OnlyRun(s, t, id) && LocalStep(LocalOf(s, id), |s.runs[id].body.steps|, LocalOf(t, id))
            && t.sessions == s.sessions && t.history == s.history
            && (t.runs[id].pc == Checked(i) ==> i < |s.runs[id].body.steps| && StepAllowed(config, s, s.runs[id], i))
  {
    MoveEffect(s, id, Operations.Verifying, Verified, Catching);
    MoveEffect(s, id, Operations.Cancelled, Cancelling, Catching);
    GotoEffect(s, id, Checked(i));
    GotoEffect(s, id, Catching);
  }

  lemma ExecutingEffect(s: State, id: Id, i: nat, outcome: Outcome)
    requires Placed(s, id) && s.runs[id].pc == Executing(i)
    ensures var t := WhileExecuting(s, id, i, outcome);
            OnlyRun(s, t, id) && LocalStep(LocalOf(s, id), |s.runs[id].body.steps|, LocalOf(t, id))
  {
    match outcome
    case Book(amount) => CommitEffect(s, id, i, amount);
    case Returned => GotoEffect(s, id, LoopHead(i + 1));
    case Threw => GotoEffect(s, id, Catching);
  }

  lemma CreatingEffect(s: State, id: Id, i: nat, outcome: Outcome)
    requires Placed(s, id) && s.runs[id].pc == Creating(i)
    ensures var t := WhileCreating(s, id, i, outcome);
            OnlyRun(s, t, id) && LocalStep(LocalOf(s, id), |s.runs[id].body.steps|, LocalOf(t, id))
            && t.sessions == s.sessions && t.history == s.history
  {
    GotoEffect(s, id, LoopHead(i + 1));
    GotoEffect(s, id, Catching);
  }

  /** An await of run `id` is a local step of it, and leaves everything else alone. */
  lemma AdvanceEffect(config: Config, s: State, id: Id, outcome: Outcome)
    requires Placed(s, id)
    ensures OnlyRun(s, Advance(config, s, id, outcome), id)
    ensures LocalStep(LocalOf(s, id), |s.runs[id].body.steps|, LocalOf(Advance(config, s, id, outcome), id))
  {
    match s.runs[id].pc
    case Launch => MoveEffect(s, id, Operations.Running, LoopHead(0), Crashed);
    case LoopHead(i) => LoopHeadEffect(config, s, id, i);
    case Checked(i) => MoveEffect(s, id, Operations.Running, Executing(i), Catching);
    case Executing(i) => ExecutingEffect(s, id, i, outcome);
    case Booked(i, amount) => StartCreateEffect(s, id, i, amount);
    case Creating(i) => CreatingEffect(s, id, i, outcome);
    case Cancelling => FinishEffect(s, id, Cancelled);
    case Verified => MoveEffect(s, id, Operations.Succeeded, Succeeding, Catching);
    case Succeeding => FinishEffect(s, id, Succeeded);
    case Catching => MoveEffect(s, id, Operations.Failed, Failing, Crashed);
    case Failing => FinishEffect(s, id, Failed);
    case Done =>
    case Crashed =>
  }

  lemma LocalCoherent(l: Local, n: nat, m: Local)
    requires Coherent(l.pc, n, l.life, l.plan) && LocalStep(l, n, m)
    ensures Coherent(m.pc, n, m.life, m.plan)
  {
  }

  lemma OtherRunCoherent(s: State, t: State, id: Id, x: Id)
    requires Agreement(s) && id in s.runs && Placed(s, id) && OnlyRun(s, t, id) && x in s.runs && x != id
    ensures CoherentRun(t, x)
  {
    assert CoherentRun(s, x);
  }

  lemma AgreementOnlyRun(s: State, t: State, id: Id)
    requires Agreement(s) && id in s.runs && Placed(s, id) && OnlyRun(s, t, id)
    requires Coherent(t.runs[id].pc, |s.runs[id].body.steps|, t.operations[id].life, t.plans[s.runs[id].planId].status)
    ensures Agreement(t)
  {
    forall x | x in t.runs ensures CoherentRun(t, x) {
      if x != id { OtherRunCoherent(s, t, id, x); } else { ThisRunCoherent(s, t, id); }
    }
    OnlyRunPlans(s, t, id);
  }

  lemma OnlyRunPlans(s: State, t: State, id: Id)
    requires Placed(s, id) && OnlyRun(s, t, id) && s.operations.Keys == s.runs.Keys
    requires forall x, y :: x in s.runs && y in s.runs && x != y ==> s.runs[x].planId != s.runs[y].planId
    ensures forall x, y :: x in t.runs && y in t.runs && x != y ==> t.runs[x].planId != t.runs[y].planId
    ensures t.operations.Keys == t.runs.Keys
  {
    forall x | x in t.runs ensures t.runs[x].planId == s.runs[x].planId {}
  }

  lemma ThisRunCoherent(s: State, t: State, id: Id)
    requires Agreement(s) && Placed(s, id) && OnlyRun(s, t, id)
    requires Coherent(t.runs[id].pc, |s.runs[id].body.steps|, t.operations[id].life, t.plans[s.runs[id].planId].status)
    ensures CoherentRun(t, id)
  {
    assert CoherentRun(s, id);
  }

  lemma PlacedRun(s: State, id: Id)
    requires Agreement(s) && id in s.runs
    ensures Placed(s, id)
    ensures Coherent(LocalOf(s, id).pc, |s.runs[id].body.steps|, LocalOf(s, id).life, LocalOf(s, id).plan)
  {
    assert CoherentRun(s, id);
  }

  /** What an await does to a run, in a state where runs, operations and plans agree. */
  lemma CoherentAdvance(config: Config, s: State, id: Id, outcome: Outcome) returns (l: Local, m: Local)
    requires Agreement(s) && id in s.runs
    ensures Placed(s, id) && OnlyRun(s, Advance(config, s, id, outcome), id)
    ensures l == LocalOf(s, id) && m == LocalOf(Advance(config, s, id, outcome), id)
    ensures LocalStep(l, |s.runs[id].body.steps|, m)
    ensures Coherent(l.pc, |s.runs[id].body.steps|, l.life, l.plan)
    ensures Coherent(m.pc, |s.runs[id].body.steps|, m.life, m.plan)
  {
    PlacedRun(s, id);
    AdvanceEffect(config, s, id, outcome);
    l, m := LocalOf(s, id), LocalOf(Advance(config, s, id, outcome), id);
    LocalCoherent(l, |s.runs[id].body.steps|, m);
  }

  lemma AgreementAdvance(config: Config, s: State, id: Id, outcome: Outcome)
    requires Agreement(s)
    ensures Agreement(Advance(config, s, id, outcome))
  {
    if id in s.runs {
      var _, _ := CoherentAdvance(config, s, id, outcome);
      AgreementOnlyRun(s, Advance(config, s, id, outcome), id);
    }
  }

  lemma CancelledLife(pc: Pc, n: nat, life: Operations.Life, plan: PlanStatus)
    requires Coherent(pc, n, life, plan)
    ensures Operations.RequestCancel(life).Ok? ==> Coherent(pc, n, Operations.RequestCancel(life).life, plan)
  {
  }

  lemma AgreementLife(s: State, id: Id, life: Operations.Life)
    requires Agreement(s) && id in s.runs && Placed(s, id)
    requires Coherent(s.runs[id].pc, |s.runs[id].body.steps|, life, s.plans[s.runs[id].planId].status)
    ensures Agreement(SetLife(s, id, life))
  {
    forall x | x in s.runs ensures CoherentRun(SetLife(s, id, life), x) { assert CoherentRun(s, x); }
  }

  lemma AgreementCancel(s: State, id: Id)
    requires Agreement(s)
    ensures Agreement(RequestCancel(s, id))
  {
    if id in s.operations {
      PlacedRun(s, id);
      CancelledLife(s.runs[id].pc, |s.runs[id].body.steps|, s.operations[id].life, s.plans[s.runs[id].planId].status);
      match Operations.RequestCancel(s.operations[id].life)
      case Ok(life) => AgreementLife(s, id, life);
      case Refused =>
    }
  }

  /** A call to `Start` either changes at most one plan's status, from awaiting to approved, or
      launches one run of a plan that counted as approved. */
  datatype Launched = NotLaunched | LaunchedRun(run: Run)

  /** The session of a run is the one its token stands for, or the one its invocation kept. */
  predicate AdmittedRun(s: State, run: Run) {
    match run.caller
    case Token(_) => run.session.id in s.sessions && s.sessions[run.session.id] == run.session
    case Invocation => run.planId in s.invoked && s.invoked[run.planId] == run.session
  }

  predicate InvokedWithin(before: map<Id, Session>, after: map<Id, Session>) {
    forall p :: p in after ==> p in before && after[p] == before[p]
  }

  predicate StartShape(s: State, t: State, planId: Id, operationId: Id, launched: Launched) {
    match launched
    case NotLaunched =>
      && t.runs == s.runs && t.operations == s.operations && t.plans.Keys == s.plans.Keys
      && (forall p :: p in s.plans && p != planId ==> t.plans[p] == s.plans[p])
      && (planId in s.plans && t.plans[planId] != s.plans[planId] ==>
            && s.plans[planId].status == AwaitingApproval && ApprovedForPlan(s.approvals, planId)
            && t.plans[planId] == s.plans[planId].(status := Approved))
    case LaunchedRun(run) =>
      && operationId !in s.runs && operationId !in s.operations && planId in s.plans
      && t.runs == s.runs[operationId := run]
      && t.operations == s.operations[operationId := Operation(run.session.id, planId, Operations.Life(Operations.Queued, false))]
      && t.plans == s.plans[planId := s.plans[planId].(status := Running)]
      && run == Run(run.session, planId, s.plans[planId].body, run.caller, Launch)
      && AdmittedRun(s, run)
      && s.plans[planId].body.sessionId == run.session.id
      && (s.plans[planId].status == Approved
          || (s.plans[planId].status == AwaitingApproval && ApprovedForPlan(s.approvals, planId)))
  }

  ghost predicate SessionsKeyed(s: State) {
    forall id :: id in s.sessions ==> s.sessions[id].id == id
  }

  function LaunchedBy(config: Config, s: State, caller: Caller, planId: Id, operationId: Id): Launched {
    var t := Start(config, s, caller, planId, operationId);
    if operationId !in s.runs && operationId in t.runs then LaunchedRun(t.runs[operationId]) else NotLaunched
  }

  lemma StartEffect(config: Config, s: State, caller: Caller, planId: Id, operationId: Id)
    requires SessionsKeyed(s)
    ensures var t := Start(config, s, caller, planId, operationId);
            && StartShape(s, t, planId, operationId, LaunchedBy(config, s, caller, planId, operationId))
            && InvokedWithin(s.invoked, t.invoked)
            && t.approvals == s.approvals && t.history == s.history && t.now == s.now && t.stopped == s.stopped
            && (LaunchedBy(config, s, caller, planId, operationId).LaunchedRun? ==>
                  config.hash(s.plans[planId].body) == s.plans[planId].hash)
  {
    AdmitEffect(s, caller, planId);
    var a := Admit(s, caller, planId);
    if a.session.Some? && planId in s.plans && operationId !in s.operations && operationId !in s.runs {
      StartedForEffect(config, a.state, a.session.value, caller, planId, operationId);
    }
  }

  lemma StartedForEffect(config: Config, s: State, session: Session, caller: Caller, planId: Id, operationId: Id)
    requires planId in s.plans && operationId !in s.operations && operationId !in s.runs
    ensures var t := StartedFor(config, s, session, caller, planId, operationId);
            && t == s.(plans := t.plans, sessions := t.sessions, operations := t.operations, runs := t.runs)
            && if operationId in t.runs
               then && t.runs == s.runs[operationId := Run(session, planId, s.plans[planId].body, caller, Launch)]
                    && t.operations == s.operations[operationId := Operation(session.id, planId, Operations.Life(Operations.Queued, false))]
                    && t.plans == s.plans[planId := s.plans[planId].(status := Running)]
                    && t.sessions == Increment(s.sessions, session.id)
                    && Launches(config, s.plans[planId], ApprovedForPlan(s.approvals, planId), session)
               else && t == s.(plans := t.plans) && t.plans.Keys == s.plans.Keys
                    && (forall p :: p in s.plans && p != planId ==> t.plans[p] == s.plans[p])
                    && (t.plans[planId] != s.plans[planId] ==>
                          && s.plans[planId].status == AwaitingApproval && ApprovedForPlan(s.approvals, planId)
                          && t.plans[planId] == s.plans[planId].(status := Approved))
  {
  }

  lemma AdmitEffect(s: State, caller: Caller, planId: Id)
    ensures var a := Admit(s, caller, planId);
            && a.state == s.(sessions := a.state.sessions, invoked := a.state.invoked) && InvokedWithin(s.invoked, a.state.invoked)
            && a.state.sessions.Keys == s.sessions.Keys && (a.session.Some? ==> a.state.sessions == s.sessions)
    ensures var a := Admit(s, caller, planId);
            a.session.Some? ==> match caller
              case Token(id) => id in s.sessions && s.sessions[id] == a.session.value
              case Invocation => planId in s.invoked && s.invoked[planId] == a.session.value
  {
  }

  /** The plan is the session's, counts as approved, and is what its hash says. */
  predicate Launches(config: Config, plan: Plan, approved: bool, session: Session) {
    && plan.body.sessionId == session.id && ValidPlan(config, plan)
    && (plan.status == Approved || (plan.status == AwaitingApproval && approved))
  }

  lemma StartedRuns(config: Config, s: State, session: Session, caller: Caller, planId: Id, operationId: Id)
    requires planId in s.plans
    ensures StartedFor(config, s, session, caller, planId, operationId).runs
            == if Launches(config, s.plans[planId], ApprovedForPlan(s.approvals, planId), session)
               then s.runs[operationId := Run(session, planId, s.plans[planId].body, caller, Launch)] else s.runs
  {
  }

  lemma RunPlanRunning(s: State, x: Id)
    requires Agreement(s) && x in s.runs
    ensures s.runs[x].planId in s.plans && s.plans[s.runs[x].planId].status !in {Approved, AwaitingApproval}
  {
    assert CoherentRun(s, x);
  }

  lemma AgreementNotLaunched(s: State, t: State, planId: Id, operationId: Id)
    requires Agreement(s) && StartShape(s, t, planId, operationId, NotLaunched)
    ensures Agreement(t)
  {
    forall x | x in t.runs ensures CoherentRun(t, x) {
      assert CoherentRun(s, x);
      RunPlanRunning(s, x);
    }
  }

  lemma AgreementLaunched(s: State, t: State, planId: Id, operationId: Id, run: Run)
    requires Agreement(s) && StartShape(s, t, planId, operationId, LaunchedRun(run))
    ensures Agreement(t)
  {
    forall x | x in s.runs ensures s.runs[x].planId != planId { RunPlanRunning(s, x); }
    forall x | x in t.runs ensures CoherentRun(t, x) {
      if x != operationId { assert CoherentRun(s, x); }
    }
  }

  lemma AgreementStart(config: Config, s: State, caller: Caller, planId: Id, operationId: Id)
    requires Agreement(s) && SessionsKeyed(s)
    ensures Agreement(Start(config, s, caller, planId, operationId))
  {
    StartEffect(config, s, caller, planId, operationId);
    var t := Start(config, s, caller, planId, operationId);
    match LaunchedBy(config, s, caller, planId, operationId)
    case NotLaunched => AgreementNotLaunched(s, t, planId, operationId);
    case LaunchedRun(run) => AgreementLaunched(s, t, planId, operationId, run);
  }

  lemma CreatePlanEffect(config: Config, s: State, sessionId: Text, planId: Id, draft: Draft)
    ensures var t := CreatePlan(config, s, sessionId, planId, draft);
            && t.runs == s.runs && t.operations == s.operations
            && (forall p :: p in s.plans ==> p in t.plans && t.plans[p] == s.plans[p])
  {
    QuietAuthenticate(s, sessionId);
  }

  lemma OtherActionsKeepRuns(config: Config, s: State, a: Action)
    requires !a.AdvanceA? && !a.StartA?
    ensures Apply(config, s, a).runs == s.runs
  {
    match a
    case CreatePlanA(sessionId, planId, draft) => CreatePlanEffect(config, s, sessionId, planId, draft);
    case EditA(_, _) =>
    case CancelA(_) =>
    case _ => QuietActions(config, s, a);
  }

  lemma AgreementPlans(s: State, t: State)
    requires Agreement(s) && t.runs == s.runs && t.operations == s.operations
    requires forall p :: p in s.plans ==> p in t.plans && t.plans[p].status == s.plans[p].status
    ensures Agreement(t)
  {
    forall x | x in t.runs ensures CoherentRun(t, x) { assert CoherentRun(s, x); }
  }

  lemma AgreementCreatePlan(config: Config, s: State, sessionId: Text, planId: Id, draft: Draft)
    requires Agreement(s)
    ensures Agreement(CreatePlan(config, s, sessionId, planId, draft))
  {
    CreatePlanEffect(config, s, sessionId, planId, draft);
    AgreementPlans(s, CreatePlan(config, s, sessionId, planId, draft));
  }

  lemma AgreementEdit(s: State, planId: Id, body: PlanBody)
    requires Agreement(s)
    ensures Agreement(EditPlan(s, planId, body))
  {
    AgreementPlans(s, EditPlan(s, planId, body));
  }

  lemma AgreementStep(config: Config, s: State, a: Action)
    requires Agreement(s) && SessionsKeyed(s)
    ensures Agreement(Apply(config, s, a))
  {
    if IsQuiet(a) {
      QuietActions(config, s, a);
      AgreementPlans(s, Apply(config, s, a));
    } else {
      match a
      case CreatePlanA(sessionId, planId, draft) => AgreementCreatePlan(config, s, sessionId, planId, draft);
      case EditA(planId, body) => AgreementEdit(s, planId, body);
      case CancelA(id) => AgreementCancel(s, id);
      case StartA(caller, planId, operationId) => AgreementStart(config, s, caller, planId, operationId);
      case AdvanceA(id, outcome) => AgreementAdvance(config, s, id, outcome);
    }
  }

  lemma SessionsKeyedAuthenticate(s: State, sessionId: Text)
    requires SessionsKeyed(s)
    ensures SessionsKeyed(Authenticate(s, sessionId).state)
    ensures var a := Authenticate(s, sessionId); a.session.Some? ==> a.state == s && sessionId in s.sessions && a.session.value == s.sessions[sessionId]
  {
  }

  lemma SessionsKeyedStart(config: Config, s: State, caller: Caller, planId: Id, operationId: Id)
    requires SessionsKeyed(s)
    ensures SessionsKeyed(Start(config, s, caller, planId, operationId))
  {
    if caller.Token? { SessionsKeyedAuthenticate(s, caller.sessionId); }
  }

  lemma SessionsKeyedCreatePlan(config: Config, s: State, sessionId: Text, planId: Id, draft: Draft)
    requires SessionsKeyed(s)
    ensures SessionsKeyed(CreatePlan(config, s, sessionId, planId, draft))
  {
    SessionsKeyedAuthenticate(s, sessionId);
  }

  lemma SessionsKeyedRequest(config: Config, s: State, sessionId: Text, capability: Text, target: Option<Text>, environment: Option<Environment>)
    requires SessionsKeyed(s)
    ensures SessionsKeyed(RequestScope(config, s, sessionId, capability, target, environment))
  {
    SessionsKeyedAuthenticate(s, sessionId);
  }

  lemma SessionsKeyedDecide(s: State, i: Id, decision: Decision)
    requires SessionsKeyed(s)
    ensures SessionsKeyed(Decide(s, i, decision))
  {
  }

  lemma SessionsKeyedAdvance(config: Config, s: State, id: Id, outcome: Outcome)
    requires SessionsKeyed(s) && Agreement(s)
    ensures SessionsKeyed(Advance(config, s, id, outcome))
  {
    if id in s.runs { var _, _ := CoherentAdvance(config, s, id, outcome); }
  }

  lemma SessionsKeyedStep(config: Config, s: State, a: Action)
    requires SessionsKeyed(s) && Agreement(s)
    ensures SessionsKeyed(Apply(config, s, a))
  {
    match a
    case CreatePlanA(sessionId, planId, draft) => SessionsKeyedCreatePlan(config, s, sessionId, planId, draft);
    case StartA(caller, planId, operationId) => SessionsKeyedStart(config, s, caller, planId, operationId);
    case RequestScopeA(sessionId, capability, target, environment) => SessionsKeyedRequest(config, s, sessionId, capability, target, environment);
    case DecideA(approval, decision) => SessionsKeyedDecide(s, approval, decision);
    case AdvanceA(id, outcome) => SessionsKeyedAdvance(config, s, id, outcome);
    case NarrowA(sessionId, n) => SessionsKeyedNarrow(s, sessionId, n);
    case SetStatusA(sessionId, status) => SessionsKeyedStatus(s, sessionId, status);
    case ResumeA(sessionId) => SessionsKeyedStatus(s, sessionId, Active);
    case _ =>
  }

  lemma SessionsKeyedNarrow(s: State, sessionId: Text, n: Narrowing)
    requires SessionsKeyed(s)
    ensures SessionsKeyed(NarrowScope(s, sessionId, n))
  {
  }

  lemma SessionsKeyedStatus(s: State, sessionId: Text, status: SessionStatus)
    requires SessionsKeyed(s)
    ensures SessionsKeyed(SetStatus(s, sessionId, status)) && SessionsKeyed(Resume(s, sessionId))
  {
  }

  lemma {:induction false} AgreementAlways(config: Config, actions: seq<Action>)
    ensures Agreement(ApplyAll(config, INITIAL, actions)) && SessionsKeyed(ApplyAll(config, INITIAL, actions))
  {
    if actions != [] {
      var before, a := ApplyAll(config, INITIAL, actions[..|actions| - 1]), actions[|actions| - 1];
      AgreementAlways(config, actions[..|actions| - 1]);
      AgreementStep(config, before, a);
      SessionsKeyedStep(config, before, a);
    }
  }

  predicate Agrees(operation: Operations.OperationState, plan: PlanStatus) {
    || (operation == Operations.Succeeded && plan == Succeeded)
    || (operation == Operations.Failed && plan == Failed)
    || (operation == Operations.Cancelled && plan == Cancelled)
  }

  predicate Over(pc: Pc) { pc.Done? || pc.Crashed? }

  /** However cancels interleave with it, a run that is over left its operation and its plan in
      agreement, unless it crashed; and a crash leaves a cancelled operation over a running plan. */
  lemma {:induction false} FinishedRunsAgree(config: Config, actions: seq<Action>, id: Id)
    requires var s := ApplyAll(config, INITIAL, actions); id in s.runs && Over(s.runs[id].pc)
    ensures var s := ApplyAll(config, INITIAL, actions);
            && id in s.operations && s.runs[id].planId in s.plans
            && (Agrees(s.operations[id].life.state, s.plans[s.runs[id].planId].status) <==> s.runs[id].pc.Done?)
  {
    AgreementAlways(config, actions);
    assert CoherentRun(ApplyAll(config, INITIAL, actions), id);
  }

  lemma LocalCrash(l: Local, n: nat, m: Local)
    requires Coherent(l.pc, n, l.life, l.plan) && LocalStep(l, n, m) && !l.pc.Crashed?
    ensures m.pc.Crashed? <==> l.pc.Launch? && l.life.cancelRequested
  {
  }

  lemma LocalCancelled(l: Local, n: nat, m: Local)
    requires Coherent(l.pc, n, l.life, l.plan) && LocalStep(l, n, m) && l.life.cancelRequested
    ensures m.life.cancelRequested && !m.pc.Checked? && (m.pc.Executing? ==> m.pc == l.pc)
  {
  }

  /** A run crashes exactly when a cancel reaches its operation while it is still queued: the one
      window that lies outside the try block. */
  lemma CrashesExactlyWhenCancelledInQueue(config: Config, s: State, id: Id, outcome: Outcome)
    requires Agreement(s) && id in s.runs && !s.runs[id].pc.Crashed?
    ensures id in Advance(config, s, id, outcome).runs
    ensures Advance(config, s, id, outcome).runs[id].pc.Crashed?
            <==> s.runs[id].pc.Launch? && id in s.operations && s.operations[id].life.cancelRequested
  {
    var l, m := CoherentAdvance(config, s, id, outcome);
    LocalCrash(l, |s.runs[id].body.steps|, m);
  }

  lemma LocalQueueCancel(l: Local, n: nat, m: Local)
    requires l.pc == Launch && l.plan == Running && l.life == Operations.Life(Operations.Cancelled, true) && LocalStep(l, n, m)
    ensures m.pc.Crashed? && m.life.state == Operations.Cancelled && m.plan == Running
  {
  }

  /** In that window the plan and the operation do end up in disagreement, every time. */
  lemma QueueCancelDisagrees(config: Config, s: State, id: Id, outcome: Outcome)
    requires Agreement(s) && id in s.runs && s.runs[id].pc == Launch
    requires id in s.operations && !s.operations[id].life.cancelRequested
    ensures var t := Advance(config, RequestCancel(s, id), id, outcome);
            && id in t.runs && t.runs[id].pc.Crashed? && id in t.operations && t.runs[id].planId in t.plans
            && t.operations[id].life.state == Operations.Cancelled && t.plans[t.runs[id].planId].status == Running
  {
    PlacedRun(s, id);
    AgreementCancel(s, id);
    CancelledInQueue(s, RequestCancel(s, id), id);
    var l, m := CoherentAdvance(config, RequestCancel(s, id), id, outcome);
    LocalQueueCancel(l, |s.runs[id].body.steps|, m);
    LocalRead(Advance(config, RequestCancel(s, id), id, outcome), id, m);
  }

  lemma CancelledInQueue(s: State, t: State, id: Id)
    requires Placed(s, id) && s.runs[id].pc == Launch && t == RequestCancel(s, id) && !s.operations[id].life.cancelRequested
    requires Coherent(LocalOf(s, id).pc, |s.runs[id].body.steps|, LocalOf(s, id).life, LocalOf(s, id).plan)
    ensures Placed(t, id) && t.runs == s.runs
    ensures LocalOf(t, id) == Local(Launch, Operations.Life(Operations.Cancelled, true), Running)
  {
  }

  lemma LocalRead(t: State, id: Id, m: Local)
    requires Placed(t, id) && m == LocalOf(t, id)
    ensures t.runs[id].pc == m.pc && t.operations[id].life == m.life && t.plans[t.runs[id].planId].status == m.plan
  {
  }

  /** Once a cancel is recorded the operation is cancelling, cancelled or failed: it never succeeds. */
  lemma {:induction false} CancelNeverSucceeds(config: Config, actions: seq<Action>, id: Id)
    requires var s := ApplyAll(config, INITIAL, actions); id in s.operations && s.operations[id].life.cancelRequested
    ensures ApplyAll(config, INITIAL, actions).operations[id].life.state in
              {Operations.Cancelling, Operations.Cancelled, Operations.Failed}
  {
    AgreementAlways(config, actions);
    assert CoherentRun(ApplyAll(config, INITIAL, actions), id);
  }

  /** ... and no further step starts: at most the one in flight completes. */
  lemma CancelStartsNothing(config: Config, s: State, id: Id, outcome: Outcome)
    requires Agreement(s) && id in s.runs && id in s.operations && s.operations[id].life.cancelRequested
    ensures var t := Advance(config, s, id, outcome);
            && id in t.operations && t.operations[id].life.cancelRequested && id in t.runs
            && (t.runs[id].pc.Executing? ==> t.runs[id].pc == s.runs[id].pc)
            && !t.runs[id].pc.Checked?
  {
    var l, m := CoherentAdvance(config, s, id, outcome);
    LocalCancelled(l, |s.runs[id].body.steps|, m);
  }

  /** Awaits a run still has before it. */
  function Remaining(pc: Pc, n: nat): int {
    match pc
    case Launch => 5 * n + 10
    case LoopHead(i) => 5 * (n - i) + 9
    case Checked(i) => 5 * (n - i) + 8
    case Executing(i) => 5 * (n - i) + 7
    case Booked(i, _) => 5 * (n - i) + 6
    case Creating(i) => 5 * (n - i) + 5
    case Verified => 4
    case Succeeding => 1
    case Catching => 3
    case Failing => 1
    case Cancelling => 1
    case Done => 0
    case Crashed => 0
  }

  lemma LocalDecreases(l: Local, n: nat, m: Local)
    requires Coherent(l.pc, n, l.life, l.plan) && LocalStep(l, n, m)
    ensures m.pc == l.pc || 0 <= Remaining(m.pc, n) < Remaining(l.pc, n)
    ensures m.pc == l.pc ==> Over(l.pc) || l.pc.Executing? || l.pc.Creating?
  {
  }

  /** Every await the run takes brings it closer to its end, so a run takes boundedly many. */
  lemma RunsTerminate(config: Config, s: State, id: Id, outcome: Outcome)
    requires Agreement(s) && id in s.runs
    ensures id in Advance(config, s, id, outcome).runs
    ensures var run, next := s.runs[id], Advance(config, s, id, outcome).runs[id];
            && next.body == run.body
            && (next.pc == run.pc || 0 <= Remaining(next.pc, |run.body.steps|) < Remaining(run.pc, |run.body.steps|))
            && (next.pc == run.pc ==> Over(run.pc) || run.pc.Executing? || run.pc.Creating?)
  {
    var l, m := CoherentAdvance(config, s, id, outcome);
    LocalDecreases(l, |s.runs[id].body.steps|, m);
  }

  predicate Descends(s: State, t: State, id: Id)
    requires id in s.operations
  {
    && id in t.operations
    && (t.operations[id].life.state != s.operations[id].life.state ==>
          t.operations[id].life.state in Operations.Transitions(s.operations[id].life.state))
  }

  lemma SameOperationsDescend(s: State, t: State, id: Id)
    requires id in s.operations && id in t.operations && t.operations[id] == s.operations[id]
    ensures Descends(s, t, id)
  {
  }

  lemma StartDescends(config: Config, s: State, a: Action, id: Id)
    requires SessionsKeyed(s) && id in s.operations && a.StartA?
    ensures Descends(s, Apply(config, s, a), id)
  {
    StartEffect(config, s, a.caller, a.planId, a.operationId);
    SameOperationsDescend(s, Apply(config, s, a), id);
  }

  lemma OtherOperationsSame(config: Config, s: State, a: Action)
    requires !a.StartA? && !a.AdvanceA? && !a.CancelA?
    ensures Apply(config, s, a).operations == s.operations
  {
    match a
    case CreatePlanA(sessionId, planId, draft) => CreatePlanEffect(config, s, sessionId, planId, draft);
    case EditA(_, _) =>
    case _ => QuietActions(config, s, a);
  }

  lemma StepDescends(config: Config, s: State, a: Action, id: Id)
    requires Agreement(s) && SessionsKeyed(s) && id in s.operations
    ensures Descends(s, Apply(config, s, a), id)
  {
    if a.StartA? {
      StartDescends(config, s, a, id);
    } else if a.AdvanceA? {
      AdvanceDescends(config, s, a, id);
    } else if a.CancelA? {
      CancelDescends(config, s, a, id);
    } else {
      OtherOperationsSame(config, s, a);
      SameOperationsDescend(s, Apply(config, s, a), id);
    }
  }

  /** Whatever happens, an operation that changes state follows the graph, and so goes down in rank. */
  lemma OperationsDescend(config: Config, s: State, t: State, a: Action, id: Id)
    requires Agreement(s) && SessionsKeyed(s) && id in s.operations && t == Apply(config, s, a)
    ensures Descends(s, t, id)
    ensures t.operations[id].life.state != s.operations[id].life.state ==>
      Operations.Rank(t.operations[id].life.state) < Operations.Rank(s.operations[id].life.state)
  {
    StepDescends(config, s, a, id);
    DescendsInRank(s, t, id);
  }

  lemma DescendsInRank(s: State, t: State, id: Id)
    requires id in s.operations && Descends(s, t, id)
    ensures t.operations[id].life.state != s.operations[id].life.state ==>
      Operations.Rank(t.operations[id].life.state) < Operations.Rank(s.operations[id].life.state)
  {
    if t.operations[id].life.state != s.operations[id].life.state {
      Operations.TransitionsDescend(s.operations[id].life.state, t.operations[id].life.state);
    }
  }

  lemma CancelDescends(config: Config, s: State, a: Action, id: Id)
    requires id in s.operations && a.CancelA?
    ensures Descends(s, Apply(config, s, a), id)
  {
  }

  lemma AdvanceDescends(config: Config, s: State, a: Action, id: Id)
    requires Agreement(s) && id in s.operations && a.AdvanceA?
    ensures Descends(s, Apply(config, s, a), id)
  {
    if a.operationId in s.runs { RunDescends(config, s, a.operationId, a.outcome, id); }
  }

  lemma RunDescends(config: Config, s: State, run: Id, outcome: Outcome, id: Id)
    requires Agreement(s) && id in s.operations && run in s.runs
    ensures Descends(s, Advance(config, s, run, outcome), id)
  {
    var l, m := CoherentAdvance(config, s, run, outcome);
    if m.life.state != l.life.state { LocalDescends(l, |s.runs[run].body.steps|, m); }
  }

  lemma LocalDescends(l: Local, n: nat, m: Local)
    requires LocalStep(l, n, m) && m.life.state != l.life.state
    ensures m.life.state in Operations.Transitions(l.life.state)
  {
  }

  /** The states operation `id` went through, and the one it is in now if that is another. */
  function VisitedNow(earlier: seq<Operations.OperationState>, s: State, id: Id): seq<Operations.OperationState> {
    if id !in s.operations || (earlier != [] && earlier[|earlier| - 1] == s.operations[id].life.state) then earlier
    else earlier + [s.operations[id].life.state]
  }

  /** The states operation `id` goes through, from the one it is first stored in. */
  function Visited(config: Config, actions: seq<Action>, id: Id): seq<Operations.OperationState> {
    if actions == [] then []
    else VisitedNow(Visited(config, actions[..|actions| - 1], id), ApplyAll(config, INITIAL, actions), id)
  }

  /** A way through the transition graph. */
  predicate Path(states: seq<Operations.OperationState>) {
    forall i :: 0 < i < |states| ==> states[i] in Operations.Transitions(states[i - 1])
  }

  lemma NewOperationQueued(config: Config, s: State, a: Action, id: Id)
    requires Agreement(s) && SessionsKeyed(s) && id !in s.operations && id in Apply(config, s, a).operations
    ensures Apply(config, s, a).operations[id].life.state == Operations.Queued
  {
    if a.StartA? {
      StartEffect(config, s, a.caller, a.planId, a.operationId);
    } else if a.AdvanceA? {
      if a.operationId in s.runs { var _, _ := CoherentAdvance(config, s, a.operationId, a.outcome); }
      assert false;
    } else if !a.CancelA? {
      OtherOperationsSame(config, s, a);
      assert false;
    }
  }

  /** A path from `Queued` to the state the operation is in; none while there is no operation. */
  predicate LeadsTo(v: seq<Operations.OperationState>, s: State, id: Id) {
    && (id in s.operations <==> v != []) && Path(v)
    && (v != [] ==> v[0] == Operations.Queued && v[|v| - 1] == s.operations[id].life.state)
  }

  lemma LeadsOn(v: seq<Operations.OperationState>, s: State, t: State, id: Id)
    requires LeadsTo(v, s, id)
    requires if id in s.operations then Descends(s, t, id) else id in t.operations ==> t.operations[id].life.state == Operations.Queued
    ensures LeadsTo(VisitedNow(v, t, id), t, id)
  {
  }

  lemma VisitedStep(config: Config, v: seq<Operations.OperationState>, s: State, a: Action, id: Id)
    requires Agreement(s) && SessionsKeyed(s) && LeadsTo(v, s, id)
    ensures LeadsTo(VisitedNow(v, Apply(config, s, a), id), Apply(config, s, a), id)
  {
    if id in s.operations {
      StepDescends(config, s, a, id);
    } else if id in Apply(config, s, a).operations {
      NewOperationQueued(config, s, a, id);
    }
    LeadsOn(v, s, Apply(config, s, a), id);
  }

  lemma {:induction false} VisitedPath(config: Config, actions: seq<Action>, id: Id)
    ensures LeadsTo(Visited(config, actions, id), ApplyAll(config, INITIAL, actions), id)
  {
    if actions != [] {
      var earlier := actions[..|actions| - 1];
      VisitedPath(config, earlier, id);
      AgreementAlways(config, earlier);
      VisitedStep(config, Visited(config, earlier, id), ApplyAll(config, INITIAL, earlier), actions[|actions| - 1], id);
    }
  }

  /** Over any run of the machine an operation follows the graph from `Queued`, and so changes its
      state at most seven times. */
  lemma OperationsSettle(config: Config, actions: seq<Action>, id: Id)
    ensures Path(Visited(config, actions, id)) && |Visited(config, actions, id)| <= 8
  {
    VisitedPath(config, actions, id);
    if Visited(config, actions, id) != [] { Operations.BoundedTransitions(Visited(config, actions, id)); }
  }
}
