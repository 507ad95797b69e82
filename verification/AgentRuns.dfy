/** The agent control plane as a state machine. Every manager call is one step; a running plan
    advances one await at a time, so any other step can fall between two of its own. */
module AgentRuns {
  import opened Optional
  import opened CanonicalJson
  import opened AgentPolicy
  import opened PlanBodies
  import Operations

  type Id = nat

  const APPROVAL_WINDOW: nat := 60 * 60_000

  datatype PlanStatus = AwaitingApproval | Approved | Running | Succeeded | Failed | Cancelled

  datatype Plan = Plan(body: PlanBody, hash: Text, status: PlanStatus)

  datatype Decision = Pending | Granted | Denied | Lapsed

  /** A request to approve one plan, or to add one capability to a session. */
  datatype Approval = Approval(
    sessionId: Text, planId: Option<Id>, capability: Option<Text>, target: Option<Text>,
    environment: Option<Environment>, decision: Decision, expiresAt: nat, decidedAt: Option<nat>)

  datatype Operation = Operation(sessionId: Text, planId: Id, life: Operations.Life)

  /** Where a running plan stands; `i` is the step it is at. `Crashed` is an exception that left
      the run outside its try block. */
  datatype Pc =
    | Launch
    | LoopHead(i: nat)
    | Checked(i: nat)
    | Executing(i: nat)
    | Booked(i: nat, amount: real)
    | Creating(i: nat)
    | Cancelling
    | Verified
    | Succeeding
    | Catching
    | Failing
    | Done
    | Crashed

  /** Who starts a plan: a request that shows the token of a session, or the second half of a call
      to `invoke`, which goes on with the session its first half authenticated. */
  datatype Caller = Token(sessionId: Text) | Invocation

  /** A run keeps the session it authenticated with and the plan it checked. */
  datatype Run = Run(session: Session, planId: Id, body: PlanBody, caller: Caller, pc: Pc)

  datatype Commitment = Commitment(sessionId: Text, operationId: Id, step: nat, amount: real)

  /** Facts about the past that the program does not keep. */
  datatype History = History(
    original: map<Text, set<Text>>,
    created: map<Id, PlanBody>,
    approvalNeeded: map<Id, bool>,
    commitments: seq<Commitment>,
    creates: seq<Commitment>)

  /** `invoked` holds the calls to `invoke` that are between their two halves: the session each
      authenticated with, by the plan it created. */
  datatype State = State(
    now: nat, stopped: bool, sessions: map<Text, Session>, plans: map<Id, Plan>, approvals: seq<Approval>,
    operations: map<Id, Operation>, runs: map<Id, Run>, invoked: map<Id, Session>, history: History)

  /** The registry, the plan hash, what the store keeps of a plan body, the input validator (which
      fills in defaults, or refuses), and the secret-field test. */
  datatype Config = Config(
    registry: map<Text, Capability>, hash: PlanBody -> Text, record: PlanBody -> PlanBody,
    validate: (Text, Json) -> Option<Json>, secret: Json -> bool)

  const INITIAL := State(0, false, map[], map[], [], map[], map[], map[], History(map[], map[], map[], [], []))

  /******* Sessions *******/

  function SetStatus(s: State, id: Text, status: SessionStatus): State {
    if id in s.sessions then s.(sessions := s.sessions[id := s.sessions[id].(status := status)]) else s
  }

  function Resume(s: State, id: Text): State {
    if id in s.sessions && s.now < s.sessions[id].expiresAt then SetStatus(s, id, Active) else s
  }

  /** Every session created is new, active and unspent, with its limits clamped. */
  function CreateSession(s: State, session: Session): State {
    if session.id in s.sessions || !session.status.Active? || session.operationCount != 0 || session.providerSpend != 0.0
      || session.maxOperations < 1 || session.maxProviderSpend < 0.0 then s
    else
      s.(sessions := s.sessions[session.id := session],
         history := s.history.(original := s.history.original[session.id := session.permissions.allow]))
  }

  datatype Authenticated = Authenticated(state: State, session: Option<Session>)

  function Authenticate(s: State, id: Text): Authenticated {
    if id !in s.sessions then Authenticated(s, None)
    else
      var session := s.sessions[id];
      if session.expiresAt <= s.now then Authenticated(SetStatus(s, id, Expired), None)
      else if !session.status.Active? || session.operationCount >= session.maxOperations then Authenticated(s, None)
      else Authenticated(s, Some(session))
  }

  function GrantScope(s: State, id: Text, capability: Text, target: Option<Text>, environment: Option<Environment>): State {
    if id in s.sessions then s.(sessions := s.sessions[id := Grant(s.sessions[id], capability, target, environment)]) else s
  }

  function NarrowScope(s: State, id: Text, n: Narrowing): State {
    if id in s.sessions then s.(sessions := s.sessions[id := Narrow(s.sessions[id], n)]) else s
  }

  function Positive(amount: real): real {
    if amount < 0.0 then 0.0 else amount
  }

  predicate Affordable(s: State, id: Text, amount: real) {
    id in s.sessions && s.sessions[id].providerSpend + Positive(amount) <= s.sessions[id].maxProviderSpend
  }

  /******* Plans *******/

  datatype Call = Call(capability: Text, input: Json)

  /** With `invoke` the plan is to be run at once, if it needs no approval. */
  datatype Draft = Draft(
    objective: Text, environment: Option<Environment>, target: Option<Text>, calls: seq<Call>,
    successCriteria: Json, estimatedEffects: Json, excludedEffects: Json, rollback: Json, invoke: bool)

  function Digits(n: nat): Text {
    if n < 10 then [(48 + n) as CodeUnit] else Digits(n / 10) + [(48 + n % 10) as CodeUnit]
  }

  function StepId(i: nat): Text {
    Ascii("step_") + Digits(i + 1)
  }

  function DraftEnvironment(session: Session, draft: Draft): Environment {
    if draft.environment.Some? then draft.environment.value
    else if session.environments != [] then session.environments[0]
    else Staging
  }

  /** The call's input with its defaults, when the call may be part of a plan at all. */
  function Admitted(config: Config, stopped: bool, session: Session, environment: Environment, call: Call): Option<Json> {
    if call.capability !in config.registry then None
    else
      match config.validate(call.capability, call.input)
      case None => None
      case Some(input) =>
        if config.secret(input) || !WellFormed(input)
          || Evaluate(stopped, session, Request(config.registry[call.capability], input, environment), false) == Deny
        then None else Some(input)
  }

  predicate NeedsApproval(config: Config, stopped: bool, session: Session, environment: Environment, call: Call)
    requires Admitted(config, stopped, session, environment, call).Some?
  {
    var input := Admitted(config, stopped, session, environment, call).value;
    Evaluate(stopped, session, Request(config.registry[call.capability], input, environment), false) == ApprovalRequired
  }

  predicate AllAdmitted(config: Config, stopped: bool, session: Session, environment: Environment, calls: seq<Call>) {
    forall i :: 0 <= i < |calls| ==> Admitted(config, stopped, session, environment, calls[i]).Some?
  }

  function PlanStep(config: Config, stopped: bool, session: Session, environment: Environment, call: Call, i: nat): Step
    requires Admitted(config, stopped, session, environment, call).Some?
  {
    Step(StepId(i), config.registry[call.capability].id, Admitted(config, stopped, session, environment, call).value,
         config.registry[call.capability].risk)
  }

  function PlanSteps(config: Config, stopped: bool, session: Session, environment: Environment, calls: seq<Call>): (steps: seq<Step>)
    requires AllAdmitted(config, stopped, session, environment, calls)
    ensures |steps| == |calls|
    ensures forall i :: 0 <= i < |calls| ==> steps[i] == PlanStep(config, stopped, session, environment, calls[i], i)
  {
    seq(|calls|, i requires 0 <= i < |calls| => PlanStep(config, stopped, session, environment, calls[i], i))
  }

  predicate AnyNeedsApproval(config: Config, stopped: bool, session: Session, environment: Environment, calls: seq<Call>)
    requires AllAdmitted(config, stopped, session, environment, calls)
  {
    exists i :: 0 <= i < |calls| && NeedsApproval(config, stopped, session, environment, calls[i])
  }

  function DraftBody(config: Config, stopped: bool, session: Session, draft: Draft): PlanBody
    requires AllAdmitted(config, stopped, session, DraftEnvironment(session, draft), draft.calls)
  {
    var environment := DraftEnvironment(session, draft);
    PlanBody(session.id, draft.objective, environment, draft.target,
             PlanSteps(config, stopped, session, environment, draft.calls),
             draft.successCriteria, draft.estimatedEffects, draft.excludedEffects, draft.rollback)
  }

  predicate Plannable(config: Config, s: State, session: Session, draft: Draft) {
    && draft.calls != []
    && AllAdmitted(config, s.stopped, session, DraftEnvironment(session, draft), draft.calls)
    && WellFormed(draft.successCriteria) && WellFormed(draft.estimatedEffects)
    && WellFormed(draft.excludedEffects) && WellFormed(draft.rollback)
  }

  /** Hashes the plan, saves what the store keeps of it, and asks for approval when some step needs it. */
  function SavePlan(config: Config, s: State, session: Session, planId: Id, draft: Draft): State
    requires Plannable(config, s, session, draft)
  {
    var body := DraftBody(config, s.stopped, session, draft);
    var needed := AnyNeedsApproval(config, s.stopped, session, body.environment, draft.calls);
    var plan := Plan(config.record(body), config.hash(body), if needed then AwaitingApproval else Approved);
    s.(plans := s.plans[planId := plan],
       approvals := if needed then s.approvals + [PlanRequest(s, session.id, planId, body)] else s.approvals,
       invoked := if draft.invoke && !needed then s.invoked[planId := session] else s.invoked,
       history := s.history.(created := s.history.created[planId := body],
                             approvalNeeded := s.history.approvalNeeded[planId := needed]))
  }

  function PlanRequest(s: State, sessionId: Text, planId: Id, body: PlanBody): Approval {
    Approval(sessionId, Some(planId), None, body.target, Some(body.environment), Pending, s.now + APPROVAL_WINDOW, None)
  }

  function CreatePlan(config: Config, s: State, sessionId: Text, planId: Id, draft: Draft): State {
    var a := Authenticate(s, sessionId);
    if a.session.None? || planId in s.plans || !Plannable(config, a.state, a.session.value, draft) then a.state
    else SavePlan(config, a.state, a.session.value, planId, draft)
  }

  function SetPlanStatus(s: State, planId: Id, status: PlanStatus): State {
    if planId in s.plans then s.(plans := s.plans[planId := s.plans[planId].(status := status)]) else s
  }

  /** Someone edits the stored fields of a plan and leaves its hash alone. */
  function EditPlan(s: State, planId: Id, body: PlanBody): State {
    if planId in s.plans && WellFormedBody(body) then s.(plans := s.plans[planId := s.plans[planId].(body := body)]) else s
  }

  /******* Approvals *******/

  function RequestScope(config: Config, s: State, sessionId: Text, capability: Text, target: Option<Text>, environment: Option<Environment>): State {
    var a := Authenticate(s, sessionId);
    if a.session.None? || capability !in config.registry then a.state
    else
      a.state.(approvals := a.state.approvals +
        [Approval(sessionId, None, Some(capability), target, environment, Pending, s.now + APPROVAL_WINDOW, None)])
  }

  /** A decision on a pending approval; an approval that comes too late lapses instead, and
      nothing lapses before its time. */
  function Decide(s: State, i: Id, decision: Decision): State {
    if i >= |s.approvals| || s.approvals[i].decision != Pending || decision == Pending then s
    else if decision == Lapsed && s.now < s.approvals[i].expiresAt then s
    else
      var a := s.approvals[i];
      var final := if decision == Granted && a.expiresAt <= s.now then Lapsed else decision;
      var decided := s.(approvals := s.approvals[i := a.(decision := final, decidedAt := Some(s.now))]);
      if final == Granted && a.capability.Some? && a.planId.None?
      then GrantScope(decided, a.sessionId, a.capability.value, a.target, a.environment)
      else decided
  }

  predicate IsNewest(approvals: seq<Approval>, planId: Id, i: nat) {
    && i < |approvals| && approvals[i].planId == Some(planId)
    && (forall j :: i < j < |approvals| ==> approvals[j].planId != Some(planId))
  }

  /** The newest approval asked for a plan. */
  function NewestFor(approvals: seq<Approval>, planId: Id): (r: Option<Approval>)
    ensures r.None? <==> forall a :: a in approvals ==> a.planId != Some(planId)
    ensures r.Some? ==> exists i: nat :: IsNewest(approvals, planId, i) && approvals[i] == r.value
  {
    if approvals == [] then None
    else
      var last := approvals[|approvals| - 1];
      if last.planId == Some(planId) then
        assert IsNewest(approvals, planId, |approvals| - 1);
        Some(last)
      else
        var earlier := approvals[..|approvals| - 1];
        assert approvals == earlier + [last];
        assert forall i: nat :: IsNewest(earlier, planId, i) ==> IsNewest(approvals, planId, i);
        NewestFor(earlier, planId)
  }

  predicate ApprovedForPlan(approvals: seq<Approval>, planId: Id) {
    var a := NewestFor(approvals, planId);
    a.Some? && a.value.decision == Granted
  }

  /******* Running a plan *******/

  predicate ValidPlan(config: Config, plan: Plan) {
    && config.hash(plan.body) == plan.hash
    && forall step :: step in plan.body.steps ==> config.validate(step.capability, step.input).Some?
  }

  /** One more operation on the session as it is stored by then. */
  function Increment(sessions: map<Text, Session>, id: Text): map<Text, Session> {
    if id in sessions then sessions[id := sessions[id].(operationCount := sessions[id].operationCount + 1)] else sessions
  }

  /** The checks on the plan, then the operation, the count, and the stored `running` plan. */
  function StartedFor(config: Config, s: State, session: Session, caller: Caller, planId: Id, operationId: Id): State
    requires planId in s.plans
  {
    var plan := s.plans[planId];
    if plan.body.sessionId != session.id then s
    else if plan.status == AwaitingApproval && !ApprovedForPlan(s.approvals, planId) then s
    else
      var status := if plan.status == AwaitingApproval then Approved else plan.status;
      if !ValidPlan(config, plan) || status != Approved then s.(plans := s.plans[planId := plan.(status := status)])
      else
        s.(plans := s.plans[planId := plan.(status := Running)],
           sessions := Increment(s.sessions, session.id),
           operations := s.operations[operationId := Operation(session.id, planId, Operations.Life(Operations.Queued, false))],
           runs := s.runs[operationId := Run(session, planId, plan.body, caller, Launch)])
  }

  /** A token is authenticated; an invocation goes on once, with the session it has. */
  function Admit(s: State, caller: Caller, planId: Id): Authenticated {
    match caller
    case Token(sessionId) => Authenticate(s, sessionId)
    case Invocation =>
      if planId in s.invoked then Authenticated(s.(invoked := s.invoked - {planId}), Some(s.invoked[planId]))
      else Authenticated(s, None)
  }

  function Start(config: Config, s: State, caller: Caller, planId: Id, operationId: Id): State {
    var a := Admit(s, caller, planId);
    if a.session.None? || planId !in s.plans || operationId in s.operations || operationId in s.runs then a.state
    else StartedFor(config, a.state, a.session.value, caller, planId, operationId)
  }

  /** What the executor does next: ask to book a server's cost, come back, or throw. */
  datatype Outcome = Book(amount: real) | Returned | Threw

  /** The policy, asked again for step `i`: the run's own session snapshot, the live stop flag. */
  predicate StepAllowed(config: Config, s: State, run: Run, i: nat)
    requires i < |run.body.steps|
  {
    var step := run.body.steps[i];
    && step.capability in config.registry
    && Evaluate(s.stopped, run.session, Request(config.registry[step.capability], step.input, run.body.environment),
                run.body.sessionId == run.session.id) == Allow
  }

  function Goto(s: State, id: Id, pc: Pc): State
    requires id in s.runs
  {
    s.(runs := s.runs[id := s.runs[id].(pc := pc)])
  }

  function SetLife(s: State, id: Id, life: Operations.Life): State
    requires id in s.operations
  {
    s.(operations := s.operations[id := s.operations[id].(life := life)])
  }

  /** After a transition that worked the run goes on to `next`, after one that threw to `otherwise`. */
  function Settle(s: State, id: Id, outcome: Operations.Outcome, next: Pc, otherwise: Pc): State
    requires id in s.runs && id in s.operations
  {
    match outcome
    case Ok(life) => Goto(SetLife(s, id, life), id, next)
    case Refused => Goto(s, id, otherwise)
  }

  function Move(s: State, id: Id, state: Operations.OperationState, next: Pc, otherwise: Pc): State
    requires id in s.runs && id in s.operations
  {
    Settle(s, id, Operations.Transition(s.operations[id].life, state, false), next, otherwise)
  }

  function Finish(s: State, id: Id, status: PlanStatus): State
    requires id in s.runs
  {
    Goto(SetPlanStatus(s, s.runs[id].planId, status), id, Done)
  }

  function Commit(s: State, id: Id, i: nat, amount: real): State
    requires id in s.runs
  {
    var sessionId := s.runs[id].session.id;
    if !Affordable(s, sessionId, amount) then Goto(s, id, Catching)
    else
      var session := s.sessions[sessionId];
      var booked := s.(
        sessions := s.sessions[sessionId := session.(providerSpend := session.providerSpend + Positive(amount))],
        history := s.history.(commitments := s.history.commitments + [Commitment(sessionId, id, i, Positive(amount))]));
      Goto(booked, id, Booked(i, Positive(amount)))
  }

  function AtLoopHead(config: Config, s: State, id: Id, i: nat): State
    requires id in s.runs && id in s.operations
  {
    var run := s.runs[id];
    if i >= |run.body.steps| then Move(s, id, Operations.Verifying, Verified, Catching)
    else if s.operations[id].life.cancelRequested then Move(s, id, Operations.Cancelled, Cancelling, Catching)
    else if StepAllowed(config, s, run, i) then Goto(s, id, Checked(i))
    else Goto(s, id, Catching)
  }

  function WhileExecuting(s: State, id: Id, i: nat, outcome: Outcome): State
    requires id in s.runs
  {
    var run := s.runs[id];
    var provisioning := i < |run.body.steps| && run.body.steps[i].capability == PROVISION;
    match outcome
    case Book(amount) => if provisioning then Commit(s, id, i, amount) else s
    case Returned => if provisioning then s else Goto(s, id, LoopHead(i + 1))
    case Threw => Goto(s, id, Catching)
  }

  function StartCreate(s: State, id: Id, i: nat, amount: real): State
    requires id in s.runs
  {
    Goto(s.(history := s.history.(creates := s.history.creates + [Commitment(s.runs[id].session.id, id, i, amount)])), id, Creating(i))
  }

  function WhileCreating(s: State, id: Id, i: nat, outcome: Outcome): State
    requires id in s.runs
  {
    match outcome
    case Book(_) => s
    case Returned => Goto(s, id, LoopHead(i + 1))
    case Threw => Goto(s, id, Catching)
  }

  /** One await of one running plan. */
  function Advance(config: Config, s: State, id: Id, outcome: Outcome): State {
    if id !in s.runs || id !in s.operations then s
    else
      match s.runs[id].pc
      case Launch => Move(s, id, Operations.Running, LoopHead(0), Crashed)
      case LoopHead(i) => AtLoopHead(config, s, id, i)
      case Checked(i) => Move(s, id, Operations.Running, Executing(i), Catching)
      case Executing(i) => WhileExecuting(s, id, i, outcome)
      case Booked(i, amount) => StartCreate(s, id, i, amount)
      case Creating(i) => WhileCreating(s, id, i, outcome)
      case Cancelling => Finish(s, id, Cancelled)
      case Verified => Move(s, id, Operations.Succeeded, Succeeding, Catching)
      case Succeeding => Finish(s, id, Succeeded)
      case Catching => Move(s, id, Operations.Failed, Failing, Crashed)
      case Failing => Finish(s, id, Failed)
      case Done => s
      case Crashed => s
  }

  function RequestCancel(s: State, id: Id): State {
    if id !in s.operations then s
    else
      match Operations.RequestCancel(s.operations[id].life)
      case Ok(life) => SetLife(s, id, life)
      case Refused => s
  }

  /******* Steps and runs of the whole machine *******/

  datatype Action =
    | CreateSessionA(session: Session)
    | CreatePlanA(sessionId: Text, planId: Id, draft: Draft)
    | RequestScopeA(sessionId: Text, capability: Text, target: Option<Text>, environment: Option<Environment>)
    | DecideA(approval: Id, decision: Decision)
    | SetStatusA(sessionId: Text, status: SessionStatus)
    | ResumeA(sessionId: Text)
    | NarrowA(sessionId: Text, narrowing: Narrowing)
    | CancelA(operationId: Id)
    | StopA(stopped: bool)
    | WaitA(milliseconds: nat)
    | EditA(planId: Id, body: PlanBody)
    | StartA(caller: Caller, planId: Id, operationId: Id)
    | AdvanceA(operationId: Id, outcome: Outcome)

  function Apply(config: Config, s: State, a: Action): State {
    match a
    case CreateSessionA(session) => CreateSession(s, session)
    case CreatePlanA(sessionId, planId, draft) => CreatePlan(config, s, sessionId, planId, draft)
    case RequestScopeA(sessionId, capability, target, environment) => RequestScope(config, s, sessionId, capability, target, environment)
    case DecideA(approval, decision) => Decide(s, approval, decision)
    case SetStatusA(sessionId, status) => if status.Active? then s else SetStatus(s, sessionId, status)
    case ResumeA(sessionId) => Resume(s, sessionId)
    case NarrowA(sessionId, narrowing) => NarrowScope(s, sessionId, narrowing)
    case CancelA(operationId) => RequestCancel(s, operationId)
    case StopA(stopped) => s.(stopped := stopped)
    case WaitA(milliseconds) => s.(now := s.now + milliseconds)
    case EditA(planId, body) => EditPlan(s, planId, body)
    case StartA(caller, planId, operationId) => Start(config, s, caller, planId, operationId)
    case AdvanceA(operationId, outcome) => Advance(config, s, operationId, outcome)
  }

  function ApplyAll(config: Config, s: State, actions: seq<Action>): State {
    if actions == [] then s else Apply(config, ApplyAll(config, s, actions[..|actions| - 1]), actions[|actions| - 1])
  }
}
