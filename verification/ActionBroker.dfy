/** The control plane as the program runs it: one store that every manager reads and writes, and a
    plan runner that gives way to everyone else at each await. */
module ActionBroker {
  import opened Optional
  import opened CanonicalJson
  import opened AgentPolicy
  import opened PlanBodies
  import opened AgentRuns
  import opened AgentSafety
  import opened AgentBudget
  import Operations

  lemma {:induction false} Chained(config: Config, s: State, first: seq<Action>, second: seq<Action>)
    ensures ApplyAll(config, s, first + second) == ApplyAll(config, ApplyAll(config, s, first), second)
  {
    if second == [] {
      assert first + second == first;
    } else {
      var n := |second| - 1;
      assert (first + second)[..|first + second| - 1] == first + second[..n];
      Chained(config, s, first, second[..n]);
    }
  }

  /** What the world decides while a plan runs: what everyone else does at the `k`th await, and how
      the executor fares at step `i`. */
  datatype World = World(others: nat -> seq<Action>, fails: nat -> bool, cost: nat -> Option<real>, createFails: nat -> bool)

  /** The others leave this run's own awaits to it. */
  predicate LeavesRun(actions: seq<Action>, id: Id) {
    forall a :: a in actions && a.AdvanceA? ==> a.operationId != id
  }

  lemma OtherRunKept(config: Config, s: State, a: Action, id: Id)
    requires Agreement(s) && SessionsKeyed(s) && id in s.runs && LeavesRun([a], id)
    ensures id in Apply(config, s, a).runs && Apply(config, s, a).runs[id] == s.runs[id]
  {
    if a.AdvanceA? {
      assert a in [a];
      AdvanceKeepsOther(config, s, a.operationId, a.outcome, id);
    } else if a.StartA? {
      StartKeepsRun(config, s, a.caller, a.planId, a.operationId, id);
    } else {
      OtherActionsKeepRuns(config, s, a);
    }
  }

  lemma AdvanceKeepsOther(config: Config, s: State, other: Id, outcome: Outcome, id: Id)
    requires Agreement(s) && id in s.runs && other != id
    ensures id in Advance(config, s, other, outcome).runs && Advance(config, s, other, outcome).runs[id] == s.runs[id]
  {
    if other in s.runs { var _, _ := CoherentAdvance(config, s, other, outcome); }
  }

  lemma StartKeepsRun(config: Config, s: State, caller: Caller, planId: Id, operationId: Id, id: Id)
    requires SessionsKeyed(s) && id in s.runs
    ensures var t := Start(config, s, caller, planId, operationId); id in t.runs && t.runs[id] == s.runs[id]
  {
    StartEffect(config, s, caller, planId, operationId);
  }

  lemma {:induction false} OthersKeepRun(config: Config, s: State, actions: seq<Action>, id: Id)
    requires Agreement(s) && SessionsKeyed(s) && id in s.runs && LeavesRun(actions, id)
    ensures Agreement(ApplyAll(config, s, actions)) && SessionsKeyed(ApplyAll(config, s, actions))
    ensures id in ApplyAll(config, s, actions).runs && ApplyAll(config, s, actions).runs[id] == s.runs[id]
  {
    if actions != [] {
      var n := |actions| - 1;
      OthersKeepRun(config, s, actions[..n], id);
      var before := ApplyAll(config, s, actions[..n]);
      assert actions[n] in actions;
      OtherRunKept(config, before, actions[n], id);
      AgreementStep(config, before, actions[n]);
      SessionsKeyedStep(config, before, actions[n]);
    }
  }

  /** After the others took their steps the run is where it was. */
  lemma GivenWay(config: Config, log: seq<Action>, actions: seq<Action>, id: Id)
    requires id in ApplyAll(config, INITIAL, log).runs && LeavesRun(actions, id)
    ensures var s := ApplyAll(config, INITIAL, log); var t := ApplyAll(config, s, actions);
            && t == ApplyAll(config, INITIAL, log + actions)
            && id in t.runs && t.runs[id] == s.runs[id] && Placed(t, id)
  {
    AgreementAlways(config, log);
    OthersKeepRun(config, ApplyAll(config, INITIAL, log), actions, id);
    Chained(config, INITIAL, log, actions);
    PlacedRun(ApplyAll(config, ApplyAll(config, INITIAL, log), actions), id);
  }

  lemma CrashedState(config: Config, log: seq<Action>, id: Id)
    requires var s := ApplyAll(config, INITIAL, log); id in s.runs && s.runs[id].pc == Crashed
    ensures var s := ApplyAll(config, INITIAL, log);
            && id in s.operations && s.runs[id].planId in s.plans
            && s.plans[s.runs[id].planId].status == Running && s.operations[id].life.state == Operations.Cancelled
  {
    AgreementAlways(config, log);
    assert CoherentRun(ApplyAll(config, INITIAL, log), id);
  }

  lemma MoreAdmitted(config: Config, stopped: bool, session: Session, environment: Environment, calls: seq<Call>, i: nat)
    requires i < |calls|
    ensures AllAdmitted(config, stopped, session, environment, calls[..i + 1])
            <==> AllAdmitted(config, stopped, session, environment, calls[..i]) && Admitted(config, stopped, session, environment, calls[i]).Some?
  {
    var fewer, more := calls[..i], calls[..i + 1];
    assert more[i] == calls[i] && forall k :: 0 <= k < i ==> more[k] == fewer[k];
    if AllAdmitted(config, stopped, session, environment, more) {
      forall k | 0 <= k < i ensures Admitted(config, stopped, session, environment, fewer[k]).Some? { assert fewer[k] == more[k]; }
    }
  }

  lemma MoreApproval(config: Config, stopped: bool, session: Session, environment: Environment, calls: seq<Call>, i: nat)
    requires i < |calls|
    requires AllAdmitted(config, stopped, session, environment, calls[..i]) && AllAdmitted(config, stopped, session, environment, calls[..i + 1])
    ensures Admitted(config, stopped, session, environment, calls[i]).Some?
    ensures AnyNeedsApproval(config, stopped, session, environment, calls[..i + 1])
            <==> AnyNeedsApproval(config, stopped, session, environment, calls[..i]) || NeedsApproval(config, stopped, session, environment, calls[i])
  {
    var fewer, more := calls[..i], calls[..i + 1];
    assert more[i] == calls[i] && forall k :: 0 <= k < i ==> more[k] == fewer[k];
    if AnyNeedsApproval(config, stopped, session, environment, fewer) {
      var k :| 0 <= k < i && NeedsApproval(config, stopped, session, environment, fewer[k]);
      assert NeedsApproval(config, stopped, session, environment, more[k]);
    }
  }

  lemma MoreSteps(config: Config, stopped: bool, session: Session, environment: Environment, calls: seq<Call>, i: nat)
    requires i < |calls|
    requires AllAdmitted(config, stopped, session, environment, calls[..i]) && AllAdmitted(config, stopped, session, environment, calls[..i + 1])
    requires Admitted(config, stopped, session, environment, calls[i]).Some?
    ensures PlanSteps(config, stopped, session, environment, calls[..i + 1])
            == PlanSteps(config, stopped, session, environment, calls[..i]) + [PlanStep(config, stopped, session, environment, calls[i], i)]
  {
    var fewer, more := calls[..i], calls[..i + 1];
    assert more[i] == calls[i] && forall k :: 0 <= k < i ==> more[k] == fewer[k];
  }

  lemma MoveFields(s: State, id: Id, state: Operations.OperationState, next: Pc, otherwise: Pc)
    requires id in s.runs && id in s.operations
    ensures var outcome := Operations.Transition(s.operations[id].life, state, false);
            Move(s, id, state, next, otherwise)
            == s.(operations := if outcome.Ok? then s.operations[id := s.operations[id].(life := outcome.life)] else s.operations,
                  runs := s.runs[id := s.runs[id].(pc := if outcome.Ok? then next else otherwise)])
  {
  }

  /** The transitions a run asks for, and where it goes when they work or throw. */
  predicate Awaits(pc: Pc, n: nat, cancelRequested: bool, state: Operations.OperationState, next: Pc, otherwise: Pc) {
    match pc
    case Launch => state == Operations.Running && next == LoopHead(0) && otherwise == Crashed
    case LoopHead(i) =>
      && otherwise == Catching
      && if i >= n then state == Operations.Verifying && next == Verified
         else cancelRequested && state == Operations.Cancelled && next == Cancelling
    case Checked(i) => state == Operations.Running && next == Executing(i) && otherwise == Catching
    case Verified => state == Operations.Succeeded && next == Succeeding && otherwise == Catching
    case Catching => state == Operations.Failed && next == Failing && otherwise == Crashed
    case _ => false
  }

  /** The status a run stores last. */
  predicate Finishes(pc: Pc, status: PlanStatus) {
    || (status == PlanStatus.Succeeded && pc == Succeeding)
    || (status == PlanStatus.Failed && pc == Failing)
    || (status == PlanStatus.Cancelled && pc == Cancelling)
  }

  lemma AwaitIsMove(config: Config, s: State, id: Id, state: Operations.OperationState, next: Pc, otherwise: Pc)
    requires id in s.runs && id in s.operations
    requires Awaits(s.runs[id].pc, |s.runs[id].body.steps|, s.operations[id].life.cancelRequested, state, next, otherwise)
    ensures Apply(config, s, AdvanceA(id, Returned)) == Move(s, id, state, next, otherwise)
  {
  }

  /** A plan awaiting approval is marked approved once it is. */
  predicate Marked(s: State, t: State, planId: Id)
    requires planId in s.plans
  {
    t == if s.plans[planId].status == AwaitingApproval then AgentRuns.SetPlanStatus(s, planId, Approved) else s
  }

  predicate Startable(s: State, session: Session, planId: Id)
    requires planId in s.plans
  {
    s.plans[planId].body.sessionId == session.id && (s.plans[planId].status == AwaitingApproval ==> ApprovedForPlan(s.approvals, planId))
  }

  /** The operation, the count, the stored `running` plan, and the run itself. */
  function Launching(s: State, session: Session, caller: Caller, planId: Id, operationId: Id): State
    requires planId in s.plans
  {
    s.(plans := s.plans[planId := s.plans[planId].(status := Running)],
       sessions := Increment(s.sessions, session.id),
       operations := s.operations[operationId := Operation(session.id, planId, Operations.Life(Operations.Queued, false))],
       runs := s.runs[operationId := Run(session, planId, s.plans[planId].body, caller, AgentRuns.Launch)])
  }

  lemma NotStarted(config: Config, s: State, session: Session, caller: Caller, planId: Id, operationId: Id)
    requires planId in s.plans && !Startable(s, session, planId)
    ensures StartedFor(config, s, session, caller, planId, operationId) == s
  {
  }

  lemma OnlyMarked(config: Config, s: State, t: State, session: Session, caller: Caller, planId: Id, operationId: Id)
    requires planId in s.plans && Startable(s, session, planId) && Marked(s, t, planId)
    requires !ValidPlan(config, t.plans[planId]) || t.plans[planId].status != Approved
    ensures StartedFor(config, s, session, caller, planId, operationId) == t
  {
    assert ValidPlan(config, t.plans[planId]) == ValidPlan(config, s.plans[planId]);
    assert s.plans[planId := s.plans[planId].(status := s.plans[planId].status)] == s.plans;
  }

  lemma StartedRun(config: Config, s: State, t: State, session: Session, caller: Caller, planId: Id, operationId: Id)
    requires planId in s.plans && Startable(s, session, planId) && Marked(s, t, planId)
    requires ValidPlan(config, t.plans[planId]) && t.plans[planId].status == Approved
    ensures StartedFor(config, s, session, caller, planId, operationId) == Launching(t, session, caller, planId, operationId)
  {
    assert ValidPlan(config, t.plans[planId]) == ValidPlan(config, s.plans[planId]);
    assert t.plans[planId := t.plans[planId].(status := Running)] == s.plans[planId := s.plans[planId].(status := Running)];
  }

  lemma BookedInLog(config: Config, log: seq<Action>, id: Id)
    requires id in ApplyAll(config, INITIAL, log).runs && ApplyAll(config, INITIAL, log).runs[id].pc.Booked?
    ensures var s := ApplyAll(config, INITIAL, log); var run := s.runs[id];
            Commitment(run.session.id, id, run.pc.i, run.pc.amount) in s.history.commitments
  {
    BooksAlways(config, log);
  }

  lemma CreatesBookedInLog(config: Config, log: seq<Action>)
    ensures forall c :: c in ApplyAll(config, INITIAL, log).history.creates ==> c in ApplyAll(config, INITIAL, log).history.commitments
  {
    BooksAlways(config, log);
  }

  lemma CreatesOutlast(config: Config, log: seq<Action>, actions: seq<Action>, c: Commitment)
    requires c in ApplyAll(config, INITIAL, log).history.creates
    ensures c in ApplyAll(config, ApplyAll(config, INITIAL, log), actions).history.creates
  {
    AgreementAlways(config, log);
    CreatesGrow(config, ApplyAll(config, INITIAL, log), actions);
  }

  lemma RequestedScope(config: Config, s: State, t: State, found: Option<Session>, sessionId: Text, capability: Text, target: Option<Text>, environment: Option<Environment>)
    requires Authenticate(s, sessionId) == Authenticated(t, found)
    ensures RequestScope(config, s, sessionId, capability, target, environment)
            == if found.Some? && capability in config.registry
               then t.(approvals := t.approvals + [Approval(sessionId, None, Some(capability), target, environment, Pending, t.now + APPROVAL_WINDOW, None)])
               else t
  {
  }

  lemma CreatedPlan(config: Config, s: State, t: State, found: Option<Session>, sessionId: Text, planId: Id, draft: Draft)
    requires Authenticate(s, sessionId) == Authenticated(t, found) && planId !in s.plans
    ensures CreatePlan(config, s, sessionId, planId, draft)
            == if found.Some? && Plannable(config, t, found.value, draft) then SavePlan(config, t, found.value, planId, draft) else t
    ensures planId !in t.plans
  {
    QuietAuthenticate(s, sessionId);
  }

  lemma StartsFor(config: Config, s: State, t: State, found: Option<Session>, caller: Caller, planId: Id, operationId: Id)
    requires Admit(s, caller, planId) == Authenticated(t, found) && operationId !in s.operations && operationId !in s.runs
    ensures Start(config, s, caller, planId, operationId)
            == if found.Some? && planId in t.plans then StartedFor(config, t, found.value, caller, planId, operationId) else t
    ensures operationId !in t.operations && operationId !in t.runs
  {
    AdmitEffect(s, caller, planId);
  }

  lemma SavedFields(config: Config, s: State, session: Session, planId: Id, draft: Draft, body: PlanBody, needed: bool)
    requires Plannable(config, s, session, draft) && body == DraftBody(config, s.stopped, session, draft)
    requires needed == AnyNeedsApproval(config, s.stopped, session, body.environment, draft.calls)
    ensures SavePlan(config, s, session, planId, draft)
            == s.(plans := s.plans[planId := Plan(config.record(body), config.hash(body), if needed then AwaitingApproval else Approved)],
                  approvals := if needed then s.approvals + [PlanRequest(s, session.id, planId, body)] else s.approvals,
                  invoked := if draft.invoke && !needed then s.invoked[planId := session] else s.invoked,
                  history := s.history.(created := s.history.created[planId := body],
                                        approvalNeeded := s.history.approvalNeeded[planId := needed]))
  {
  }

  class ControlPlane {
    const config: Config
    var now: nat
    var stopped: bool
    var sessions: map<Text, Session>
    var plans: map<Id, Plan>
    var approvals: seq<Approval>
    var operations: map<Id, Operation>
    // The calls in flight, which the program keeps on its stack, and the facts it does not keep.
    var runs: map<Id, Run>
    var invoked: map<Id, Session>
    var history: History
    ghost var log: seq<Action>

    function View(): State
      reads this
    {
      State(now, stopped, sessions, plans, approvals, operations, runs, invoked, history)
    }

    /** The state is what the logged steps made of the initial one. */
    ghost predicate Valid()
      reads this
    {
      View() == ApplyAll(config, INITIAL, log)
    }

    constructor (config: Config)
      ensures this.config == config && View() == INITIAL && log == [] && Valid()
    {
      this.config := config;
      now, stopped, sessions, plans, approvals, operations, runs, invoked := 0, false, map[], map[], [], map[], map[], map[];
      history := History(map[], map[], map[], [], []);
      log := [];
    }

    ghost method Logged(a: Action, before: State)
      requires before == ApplyAll(config, INITIAL, log) && View() == Apply(config, before, a)
      modifies this`log
      ensures log == old(log) + [a] && Valid()
    {
      assert (log + [a])[..|log|] == log;
      log := log + [a];
    }

    /******* Sessions *******/

    method SetStatus(id: Text, status: SessionStatus)
      modifies this`sessions
      ensures View() == AgentRuns.SetStatus(old(View()), id, status)
    {
      if id in sessions {
        sessions := sessions[id := sessions[id].(status := status)];
      }
    }

    method Resume(id: Text) returns (ok: bool)
      requires Valid()
      modifies this`sessions, this`log
      ensures Valid() && log == old(log) + [ResumeA(id)]
      ensures View() == AgentRuns.Resume(old(View()), id)
      ensures ok <==> id in old(sessions) && old(now) < old(sessions)[id].expiresAt
    {
      ghost var before := View();
      ok := id in sessions && now < sessions[id].expiresAt;
      if ok { SetStatus(id, Active); }
      Logged(ResumeA(id), before);
    }

    method Authenticate(id: Text) returns (session: Option<Session>)
      modifies this`sessions
      ensures AgentRuns.Authenticate(old(View()), id) == Authenticated(View(), session)
    {
      if id !in sessions { return None; }
      var found := sessions[id];
      if found.expiresAt <= now {
        SetStatus(id, Expired);
        return None;
      }
      if found.status != Active || found.operationCount >= found.maxOperations { return None; }
      return Some(found);
    }

    method IncrementOperation(id: Text)
      modifies this`sessions
      ensures sessions == Increment(old(sessions), id)
    {
      if id in sessions {
        sessions := sessions[id := sessions[id].(operationCount := sessions[id].operationCount + 1)];
      }
    }

    method CommitProviderSpend(id: Text, monthly: real) returns (ok: bool)
      modifies this`sessions
      ensures ok == Affordable(old(View()), id, monthly)
      ensures !ok ==> sessions == old(sessions)
      ensures ok ==> sessions == old(sessions)[id := old(sessions)[id].(providerSpend := old(sessions)[id].providerSpend + Positive(monthly))]
    {
      if id !in sessions { return false; }
      var total := sessions[id].providerSpend + if monthly < 0.0 then 0.0 else monthly;
      if total > sessions[id].maxProviderSpend { return false; }
      sessions := sessions[id := sessions[id].(providerSpend := total)];
      return true;
    }

    method GrantScope(id: Text, capability: Text, target: Option<Text>, environment: Option<Environment>)
      modifies this`sessions
      ensures View() == AgentRuns.GrantScope(old(View()), id, capability, target, environment)
    {
      if id in sessions {
        sessions := sessions[id := Grant(sessions[id], capability, target, environment)];
      }
    }

    method NarrowScope(id: Text, narrowing: Narrowing)
      requires Valid()
      modifies this`sessions, this`log
      ensures Valid() && log == old(log) + [NarrowA(id, narrowing)]
      ensures View() == AgentRuns.NarrowScope(old(View()), id, narrowing)
    {
      ghost var before := View();
      if id in sessions {
        sessions := sessions[id := Narrow(sessions[id], narrowing)];
      }
      Logged(NarrowA(id, narrowing), before);
    }

    method CreateSession(session: Session)
      requires Valid()
      modifies this`sessions, this`history, this`log
      ensures Valid() && log == old(log) + [CreateSessionA(session)]
      ensures View() == AgentRuns.CreateSession(old(View()), session)
    {
      ghost var before := View();
      if session.id !in sessions && session.status.Active? && session.operationCount == 0 && session.providerSpend == 0.0
        && session.maxOperations >= 1 && session.maxProviderSpend >= 0.0
      {
        sessions := sessions[session.id := session];
        history := history.(original := history.original[session.id := session.permissions.allow]);
      }
      Logged(CreateSessionA(session), before);
    }

    /** The emergency stop, on or off. */
    method SetStop(active: bool)
      requires Valid()
      modifies this`stopped, this`log
      ensures Valid() && log == old(log) + [StopA(active)]
      ensures View() == old(View()).(stopped := active)
    {
      ghost var before := View();
      stopped := active;
      Logged(StopA(active), before);
    }

    /******* Plans and approvals *******/

    method RequestScopeExpansion(sessionId: Text, capability: Text, target: Option<Text>, environment: Option<Environment>)
      requires Valid()
      modifies this`sessions, this`approvals, this`log
      ensures Valid() && log == old(log) + [RequestScopeA(sessionId, capability, target, environment)]
      ensures View() == RequestScope(config, old(View()), sessionId, capability, target, environment)
    {
      ghost var before := View();
      RequestApproval(sessionId, capability, target, environment);
      Logged(RequestScopeA(sessionId, capability, target, environment), before);
    }

    method RequestApproval(sessionId: Text, capability: Text, target: Option<Text>, environment: Option<Environment>)
      modifies this`sessions, this`approvals
      ensures View() == RequestScope(config, old(View()), sessionId, capability, target, environment)
    {
      ghost var before := View();
      var session := Authenticate(sessionId);
      RequestedScope(config, before, View(), session, sessionId, capability, target, environment);
      if session.Some? && capability in config.registry {
        approvals := approvals + [Approval(sessionId, None, Some(capability), target, environment, Pending, now + APPROVAL_WINDOW, None)];
      }
    }

    method SetPlanStatus(id: Id, status: PlanStatus)
      modifies this`plans
      ensures View() == AgentRuns.SetPlanStatus(old(View()), id, status)
    {
      if id in plans {
        plans := plans[id := plans[id].(status := status)];
      }
    }

    /** Goes through the calls one by one; every one is checked, even after an error. */
    method Propose(session: Session, environment: Environment, calls: seq<Call>)
      returns (errors: bool, requiresApproval: bool, steps: seq<Step>)
      ensures errors <==> !AllAdmitted(config, stopped, session, environment, calls)
      ensures !errors ==> steps == PlanSteps(config, stopped, session, environment, calls)
      ensures !errors ==> requiresApproval == AnyNeedsApproval(config, stopped, session, environment, calls)
    {
      errors, requiresApproval, steps := false, false, [];
      var i := 0;
      while i < |calls|
        invariant 0 <= i <= |calls|
        invariant errors <==> !AllAdmitted(config, stopped, session, environment, calls[..i])
        invariant !errors ==> steps == PlanSteps(config, stopped, session, environment, calls[..i])
        invariant !errors ==> (requiresApproval <==> AnyNeedsApproval(config, stopped, session, environment, calls[..i]))
      {
        MoreAdmitted(config, stopped, session, environment, calls, i);
        if AllAdmitted(config, stopped, session, environment, calls[..i + 1]) {
          MoreSteps(config, stopped, session, environment, calls, i);
          MoreApproval(config, stopped, session, environment, calls, i);
        }
        var input := Admitted(config, stopped, session, environment, calls[i]);
        if input.None? {
          errors := true;
        } else {
          var capability := config.registry[calls[i].capability];
          var effect := Evaluate(stopped, session, Request(capability, input.value, environment), false);
          if effect == ApprovalRequired { requiresApproval := true; }
          steps := steps + [Step(StepId(i), capability.id, input.value, capability.risk)];
        }
        i := i + 1;
      }
      assert calls[..|calls|] == calls;
    }

    method CreatePlan(sessionId: Text, planId: Id, draft: Draft) returns (plan: Option<Plan>)
      requires Valid() && planId !in plans
      modifies this
      ensures Valid() && log == old(log) + [CreatePlanA(sessionId, planId, draft)]
      ensures View() == AgentRuns.CreatePlan(config, old(View()), sessionId, planId, draft)
      ensures plan.Some? <==> planId in plans
      ensures plan.Some? ==> planId in history.created && plan.value == plans[planId].(body := history.created[planId])
    {
      ghost var before := View();
      plan := SaveFor(sessionId, planId, draft);
      Logged(CreatePlanA(sessionId, planId, draft), before);
    }

    method SaveFor(sessionId: Text, planId: Id, draft: Draft) returns (plan: Option<Plan>)
      requires planId !in plans
      modifies this`sessions, this`plans, this`approvals, this`invoked, this`history
      ensures View() == AgentRuns.CreatePlan(config, old(View()), sessionId, planId, draft)
      ensures plan.Some? <==> planId in plans
      ensures plan.Some? ==> planId in history.created && plan.value == plans[planId].(body := history.created[planId])
    {
      ghost var before := View();
      var session := Authenticate(sessionId);
      CreatedPlan(config, before, View(), session, sessionId, planId, draft);
      plan := None;
      if session.Some? && draft.calls != [] {
        plan := Save(session.value, planId, draft);
      }
    }

    method Save(session: Session, planId: Id, draft: Draft) returns (plan: Option<Plan>)
      requires planId !in plans && draft.calls != []
      modifies this`plans, this`approvals, this`invoked, this`history
      ensures View() == if Plannable(config, old(View()), session, draft) then SavePlan(config, old(View()), session, planId, draft) else old(View())
      ensures plan.Some? <==> planId in plans
      ensures plan.Some? ==> planId in history.created && plan.value == plans[planId].(body := history.created[planId])
    {
      var environment := DraftEnvironment(session, draft);
      var errors, requiresApproval, steps := Propose(session, environment, draft.calls);
      if errors || !WellFormed(draft.successCriteria) || !WellFormed(draft.estimatedEffects)
        || !WellFormed(draft.excludedEffects) || !WellFormed(draft.rollback)
      {
        return None;
      }
      var body := PlanBody(session.id, draft.objective, environment, draft.target, steps,
                           draft.successCriteria, draft.estimatedEffects, draft.excludedEffects, draft.rollback);
      SavedFields(config, View(), session, planId, draft, body, requiresApproval);
      var saved := Store(session, planId, body, requiresApproval);
      if draft.invoke && !requiresApproval { invoked := invoked[planId := session]; }
      return Some(saved);
    }

    method Store(session: Session, planId: Id, body: PlanBody, requiresApproval: bool) returns (saved: Plan)
      modifies this`plans, this`approvals, this`history
      ensures saved == Plan(body, config.hash(body), if requiresApproval then AwaitingApproval else Approved)
      ensures plans == old(plans)[planId := saved.(body := config.record(body))]
      ensures approvals == if requiresApproval then old(approvals) + [PlanRequest(old(View()), session.id, planId, body)] else old(approvals)
      ensures history == old(history).(created := old(history).created[planId := body],
                                       approvalNeeded := old(history).approvalNeeded[planId := requiresApproval])
    {
      saved := Plan(body, config.hash(body), if requiresApproval then AwaitingApproval else Approved);
      plans := plans[planId := saved.(body := config.record(body))];
      if requiresApproval { approvals := approvals + [PlanRequest(View(), session.id, planId, body)]; }
      history := history.(created := history.created[planId := body], approvalNeeded := history.approvalNeeded[planId := requiresApproval]);
    }

    method SaveDecision(i: Id, decision: Decision)
      requires i < |approvals| && approvals[i].decision == Pending && decision != Pending
      requires decision == Lapsed ==> approvals[i].expiresAt <= now
      modifies this`approvals, this`sessions
      ensures View() == AgentRuns.Decide(old(View()), i, decision)
    {
      var final := decision;
      if decision == Granted && approvals[i].expiresAt <= now { final := Lapsed; }
      var decided := approvals[i].(decision := final, decidedAt := Some(now));
      approvals := approvals[i := decided];
      if final == Granted && decided.capability.Some? && decided.planId.None? {
        GrantScope(decided.sessionId, decided.capability.value, decided.target, decided.environment);
      }
    }

    method Decide(i: Id, decision: Decision)
      requires Valid()
      modifies this`approvals, this`sessions, this`log
      ensures Valid() && log == old(log) + [DecideA(i, decision)]
      ensures View() == AgentRuns.Decide(old(View()), i, decision)
    {
      ghost var before := View();
      if i < |approvals| && approvals[i].decision == Pending && decision != Pending {
        if decision != Lapsed || approvals[i].expiresAt <= now { SaveDecision(i, decision); }
      }
      Logged(DecideA(i, decision), before);
    }

    /** The hash first, then every step's input again. */
    method Validate(plan: Plan) returns (valid: bool)
      ensures valid == ValidPlan(config, plan)
    {
      valid := config.hash(plan.body) == plan.hash;
      for i := 0 to |plan.body.steps|
        invariant valid ==> config.hash(plan.body) == plan.hash
        invariant valid ==> forall k :: 0 <= k < i ==> config.validate(plan.body.steps[k].capability, plan.body.steps[k].input).Some?
        invariant !valid ==> !ValidPlan(config, plan)
      {
        var step := plan.body.steps[i];
        if config.validate(step.capability, step.input).None? { valid := false; }
      }
    }

    /******* Operations *******/

    method TransitionOperation(id: Id, state: Operations.OperationState, cancel: bool) returns (ok: bool)
      requires id in operations
      modifies this`operations
      ensures ok == Operations.Transition(old(operations)[id].life, state, cancel).Ok?
      ensures !ok ==> operations == old(operations)
      ensures ok ==> operations == old(operations)[id := old(operations)[id].(life := Operations.Transition(old(operations)[id].life, state, cancel).life)]
    {
      var life := operations[id].life;
      if life.state == state { return true; }
      if state !in Operations.Transitions(life.state) { return false; }
      operations := operations[id := operations[id].(life := Operations.Life(state, life.cancelRequested || cancel))];
      return true;
    }

    method CancelOperation(id: Id)
      requires Valid() && id in operations
      modifies this`operations, this`log
      ensures Valid() && log == old(log) + [CancelA(id)]
      ensures View() == AgentRuns.RequestCancel(old(View()), id)
    {
      ghost var before := View();
      CancelLive(id);
      Logged(CancelA(id), before);
    }

    method CancelLive(id: Id)
      requires id in operations
      modifies this`operations
      ensures View() == AgentRuns.RequestCancel(old(View()), id)
    {
      var state := operations[id].life.state;
      if state !in {Operations.Succeeded, Operations.Failed, Operations.Cancelled, Operations.RolledBack, Operations.RollbackFailed} {
        var _ := TransitionOperation(id, if state == Operations.Queued then Operations.Cancelled else Operations.Cancelling, true);
      }
    }

    /******* Running a plan *******/

    method StartPlan(caller: Caller, planId: Id, operationId: Id) returns (started: bool)
      requires Valid() && operationId !in operations && operationId !in runs
      modifies this
      ensures Valid() && log == old(log) + [StartA(caller, planId, operationId)]
      ensures View() == Start(config, old(View()), caller, planId, operationId)
      ensures started <==> operationId in runs
      ensures started ==> runs[operationId].pc == AgentRuns.Launch
    {
      ghost var before := View();
      var session := Admit(caller, planId);
      StartsFor(config, before, View(), session, caller, planId, operationId);
      started := false;
      if session.Some? && planId in plans {
        started := StartFor(session.value, caller, planId, operationId);
      }
      Logged(StartA(caller, planId, operationId), before);
    }

    /** A token is authenticated; an invocation goes on with the session it has. */
    method Admit(caller: Caller, planId: Id) returns (session: Option<Session>)
      modifies this`sessions, this`invoked
      ensures AgentRuns.Admit(old(View()), caller, planId) == Authenticated(View(), session)
    {
      match caller
      case Token(sessionId) => session := Authenticate(sessionId);
      case Invocation =>
        if planId !in invoked { return None; }
        session := Some(invoked[planId]);
        invoked := invoked - {planId};
    }

    method StartFor(session: Session, caller: Caller, planId: Id, operationId: Id) returns (started: bool)
      requires planId in plans
      requires operationId !in operations && operationId !in runs
      modifies this`plans, this`sessions, this`operations, this`runs
      ensures View() == StartedFor(config, old(View()), session, caller, planId, operationId)
      ensures started <==> operationId in runs
      ensures started ==> runs[operationId].pc == AgentRuns.Launch
    {
      ghost var before := View();
      started := false;
      if !Startable(before, session, planId) { NotStarted(config, before, session, caller, planId, operationId); }
      if plans[planId].body.sessionId != session.id { return; }
      if plans[planId].status == AwaitingApproval {
        if !ApprovedForPlan(approvals, planId) { return; }
        SetPlanStatus(planId, Approved);
      }
      ghost var marked := View();
      started := StartMarked(session, caller, planId, operationId);
      if started {
        StartedRun(config, before, marked, session, caller, planId, operationId);
      } else {
        OnlyMarked(config, before, marked, session, caller, planId, operationId);
      }
    }

    method StartMarked(session: Session, caller: Caller, planId: Id, operationId: Id) returns (started: bool)
      requires planId in plans && operationId !in operations && operationId !in runs
      modifies this`plans, this`sessions, this`operations, this`runs
      ensures started <==> ValidPlan(config, old(plans)[planId]) && old(plans)[planId].status == Approved
      ensures View() == if started then Launching(old(View()), session, caller, planId, operationId) else old(View())
    {
      var valid := Validate(plans[planId]);
      started := valid && plans[planId].status == Approved;
      if started { Launch(session, caller, planId, operationId); }
    }

    method Launch(session: Session, caller: Caller, planId: Id, operationId: Id)
      requires planId in plans
      modifies this`plans, this`sessions, this`operations, this`runs
      ensures View() == Launching(old(View()), session, caller, planId, operationId)
    {
      operations := operations[operationId := Operation(session.id, planId, Operations.Life(Operations.Queued, false))];
      IncrementOperation(session.id);
      SetPlanStatus(planId, Running);
      runs := runs[operationId := Run(session, planId, plans[planId].body, caller, AgentRuns.Launch)];
    }

    method Become(after: State)
      modifies this`now, this`stopped, this`sessions, this`plans, this`approvals, this`operations, this`runs, this`invoked, this`history
      ensures View() == after
    {
      now, stopped, sessions, plans, approvals := after.now, after.stopped, after.sessions, after.plans, after.approvals;
      operations, runs, invoked, history := after.operations, after.runs, after.invoked, after.history;
    }

    method OthersAct(actions: seq<Action>)
      requires Valid()
      modifies this
      ensures Valid() && log == old(log) + actions
      ensures View() == ApplyAll(config, old(View()), actions)
    {
      Chained(config, INITIAL, log, actions);
      Become(ApplyAll(config, View(), actions));
      log := log + actions;
    }

    /** The others take their steps, and leave the run where it is. */
    method GiveWay(actions: seq<Action>, id: Id)
      requires Valid() && id in runs && LeavesRun(actions, id)
      modifies this
      ensures Valid() && log == old(log) + actions
      ensures View() == ApplyAll(config, old(View()), actions)
      ensures id in runs && runs[id] == old(runs)[id] && id in operations && Placed(View(), id)
    {
      GivenWay(config, log, actions, id);
      OthersAct(actions);
    }

    method MoveOn(id: Id, state: Operations.OperationState, next: Pc, otherwise: Pc) returns (ok: bool)
      requires id in runs && id in operations
      modifies this`operations, this`runs
      ensures View() == Move(old(View()), id, state, next, otherwise)
      ensures id in runs && runs[id] == old(runs)[id].(pc := if ok then next else otherwise)
    {
      MoveFields(View(), id, state, next, otherwise);
      ok := TransitionOperation(id, state, false);
      runs := runs[id := runs[id].(pc := if ok then next else otherwise)];
    }

    method TransitionAwait(id: Id, state: Operations.OperationState, next: Pc, otherwise: Pc) returns (ok: bool)
      requires Valid() && id in runs && id in operations
      requires Awaits(runs[id].pc, |runs[id].body.steps|, operations[id].life.cancelRequested, state, next, otherwise)
      modifies this`operations, this`runs, this`log
      ensures Valid() && log == old(log) + [AdvanceA(id, Returned)]
      ensures id in runs && runs[id] == old(runs)[id].(pc := if ok then next else otherwise)
    {
      ghost var before := View();
      AwaitIsMove(config, before, id, state, next, otherwise);
      ok := MoveOn(id, state, next, otherwise);
      Logged(AdvanceA(id, Returned), before);
    }

    method FinishAwait(id: Id, status: PlanStatus)
      requires Valid() && id in runs && id in operations && Finishes(runs[id].pc, status)
      modifies this`plans, this`runs, this`log
      ensures Valid() && log == old(log) + [AdvanceA(id, Returned)]
      ensures View() == Finish(old(View()), id, status)
      ensures id in runs && runs[id] == old(runs)[id].(pc := Done)
    {
      ghost var before := View();
      SetPlanStatus(runs[id].planId, status);
      runs := runs[id := runs[id].(pc := Done)];
      Logged(AdvanceA(id, Returned), before);
    }

    method GoOn(id: Id, outcome: Outcome, pc: Pc)
      requires Valid() && id in runs
      requires Advance(config, View(), id, outcome) == Goto(View(), id, pc)
      modifies this`runs, this`log
      ensures Valid() && log == old(log) + [AdvanceA(id, outcome)]
      ensures View() == Goto(old(View()), id, pc)
      ensures id in runs && runs[id] == old(runs)[id].(pc := pc)
    {
      ghost var before := View();
      runs := runs[id := runs[id].(pc := pc)];
      Logged(AdvanceA(id, outcome), before);
    }

    method BookSpend(id: Id, i: nat, amount: real) returns (ok: bool)
      requires id in runs
      modifies this`sessions, this`history, this`runs
      ensures View() == Commit(old(View()), id, i, amount)
      ensures ok == Affordable(old(View()), old(runs)[id].session.id, amount)
      ensures !ok ==> history == old(history)
      ensures id in runs && runs[id] == old(runs)[id].(pc := if ok then Booked(i, Positive(amount)) else Catching)
    {
      var sessionId := runs[id].session.id;
      ok := CommitProviderSpend(sessionId, amount);
      if ok {
        history := history.(commitments := history.commitments + [Commitment(sessionId, id, i, Positive(amount))]);
      }
      runs := runs[id := runs[id].(pc := if ok then Booked(i, Positive(amount)) else Catching)];
    }

    /** Books the server's cost before it asks for the server. */
    method BookAwait(id: Id, i: nat, amount: real) returns (ok: bool)
      requires Valid() && id in runs && id in operations && runs[id].pc == Executing(i)
      requires i < |runs[id].body.steps| && runs[id].body.steps[i].capability == PROVISION
      modifies this`sessions, this`history, this`runs, this`log
      ensures Valid() && log == old(log) + [AdvanceA(id, Book(amount))]
      ensures id in runs && runs[id] == old(runs)[id].(pc := if ok then Booked(i, Positive(amount)) else Catching)
      ensures ok == Affordable(old(View()), old(runs)[id].session.id, amount)
      ensures !ok ==> history == old(history)
    {
      ghost var before := View();
      ok := BookSpend(id, i, amount);
      Logged(AdvanceA(id, Book(amount)), before);
    }

    /** Asks the provider for the server, whose cost is on the books by now. */
    method CreateAwait(id: Id, i: nat, amount: real)
      requires Valid() && id in runs && id in operations && runs[id].pc == Booked(i, amount)
      requires Commitment(runs[id].session.id, id, i, amount) in history.commitments
      modifies this`history, this`runs, this`log
      ensures Valid() && log == old(log) + [AdvanceA(id, Returned)]
      ensures View() == StartCreate(old(View()), id, i, amount)
      ensures id in runs && runs[id] == old(runs)[id].(pc := Creating(i))
    {
      ghost var before := View();
      history := history.(creates := history.creates + [Commitment(runs[id].session.id, id, i, amount)]);
      runs := runs[id := runs[id].(pc := Creating(i))];
      Logged(AdvanceA(id, Returned), before);
    }

    method RequestServer(id: Id, i: nat, amount: real, k: nat, world: World)
      requires Valid() && id in runs && id in operations && runs[id].pc == Booked(i, amount)
      requires forall n :: LeavesRun(world.others(n), id)
      modifies this
      ensures Valid() && old(log) <= log
      ensures id in runs && runs[id] == old(runs)[id].(pc := Creating(i))
      ensures Commitment(runs[id].session.id, id, i, amount) in history.creates
    {
      GiveWay(world.others(k), id);
      BookedInLog(config, log, id);
      CreateAwait(id, i, amount);
    }

    method AwaitServer(id: Id, ghost asked: Commitment, actions: seq<Action>)
      requires Valid() && id in runs && LeavesRun(actions, id) && asked in history.creates
      modifies this
      ensures Valid() && old(log) <= log && asked in history.creates
      ensures id in runs && runs[id] == old(runs)[id] && id in operations
    {
      CreatesOutlast(config, log, actions, asked);
      GiveWay(actions, id);
    }

    method CreateServer(id: Id, i: nat, amount: real, k: nat, world: World) returns (ok: bool)
      requires Valid() && id in runs && id in operations && runs[id].pc == Booked(i, amount)
      requires forall n :: LeavesRun(world.others(n), id)
      modifies this
      ensures Valid() && old(log) <= log
      ensures id in runs && runs[id] == old(runs)[id].(pc := if ok then LoopHead(i + 1) else Catching)
      ensures Commitment(runs[id].session.id, id, i, amount) in history.creates
    {
      RequestServer(id, i, amount, k, world);
      AwaitServer(id, Commitment(runs[id].session.id, id, i, amount), world.others(k + 1));
      ok := !world.createFails(i);
      GoOn(id, if ok then Returned else Threw, if ok then LoopHead(i + 1) else Catching);
    }

    /** A server is only asked for once its cost is booked: an unaffordable one leaves no trace. */
    method Provision(id: Id, i: nat, k: nat, world: World) returns (ok: bool)
      requires Valid() && id in runs && id in operations && runs[id].pc == Executing(i)
      requires i < |runs[id].body.steps| && runs[id].body.steps[i].capability == PROVISION
      requires forall n :: LeavesRun(world.others(n), id)
      modifies this
      ensures Valid() && old(log) <= log
      ensures id in runs && runs[id] == old(runs)[id].(pc := if ok then LoopHead(i + 1) else Catching)
      ensures forall c :: c in history.creates ==> c in history.commitments
      ensures if world.cost(i).Some? && Affordable(old(View()), runs[id].session.id, world.cost(i).value)
              then Commitment(runs[id].session.id, id, i, Positive(world.cost(i).value)) in history.creates
              else !ok && history == old(history)
    {
      if world.cost(i).None? {
        GoOn(id, Threw, Catching);
        ok := false;
      } else {
        ok := BookAwait(id, i, world.cost(i).value);
        if ok { ok := CreateServer(id, i, Positive(world.cost(i).value), k, world); }
      }
      CreatesBookedInLog(config, log);
    }

    method Execute(id: Id, i: nat, k: nat, world: World) returns (ok: bool, awaits: nat)
      requires Valid() && id in runs && id in operations && runs[id].pc == Executing(i) && i < |runs[id].body.steps|
      requires forall n :: LeavesRun(world.others(n), id)
      modifies this
      ensures Valid() && old(log) <= log
      ensures id in runs && runs[id] == old(runs)[id].(pc := if ok then LoopHead(i + 1) else Catching)
    {
      if runs[id].body.steps[i].capability == PROVISION {
        awaits := k + 2;
        ok := Provision(id, i, k, world);
      } else {
        ok, awaits := !world.fails(i), k;
        GoOn(id, if ok then Returned else Threw, if ok then LoopHead(i + 1) else Catching);
      }
    }

    method CallStep(id: Id, i: nat, k: nat, world: World) returns (ok: bool, awaits: nat)
      requires Valid() && id in runs && runs[id].pc == Checked(i) && i < |runs[id].body.steps|
      requires forall n :: LeavesRun(world.others(n), id)
      modifies this
      ensures Valid() && old(log) <= log
      ensures id in runs && runs[id] == old(runs)[id].(pc := if ok then LoopHead(i + 1) else Catching)
    {
      awaits := k + 1;
      GiveWay(world.others(k), id);
      ok := TransitionAwait(id, Operations.Running, Executing(i), Catching);
      if ok {
        GiveWay(world.others(k + 1), id);
        ok, awaits := Execute(id, i, k + 2, world);
      }
    }

    /** The cancel check and the policy. */
    method CheckStep(id: Id, i: nat, k: nat, world: World) returns (cancelled: bool, allowed: bool)
      requires Valid() && id in runs && runs[id].pc == LoopHead(i) && i < |runs[id].body.steps|
      requires forall n :: LeavesRun(world.others(n), id)
      modifies this
      ensures Valid() && old(log) <= log && !(cancelled && allowed)
      ensures id in runs
      ensures runs[id] == old(runs)[id].(pc := if cancelled then Cancelling else if allowed then Checked(i) else Catching)
    {
      cancelled, allowed := false, false;
      GiveWay(world.others(k), id);
      if operations[id].life.cancelRequested {
        cancelled := TransitionAwait(id, Operations.Cancelled, Cancelling, Catching);
      } else {
        allowed := StepAllowed(config, View(), runs[id], i);
        GoOn(id, Returned, if allowed then Checked(i) else Catching);
      }
    }

    /** One turn of the loop: the cancel check, the policy, the transition, the call. */
    method TakeStep(id: Id, i: nat, k: nat, world: World) returns (cancelled: bool, ok: bool, awaits: nat)
      requires Valid() && id in runs && runs[id].pc == LoopHead(i) && i < |runs[id].body.steps|
      requires forall n :: LeavesRun(world.others(n), id)
      modifies this
      ensures Valid() && old(log) <= log && !(cancelled && ok)
      ensures id in runs
      ensures runs[id] == old(runs)[id].(pc := if cancelled then Cancelling else if ok then LoopHead(i + 1) else Catching)
    {
      awaits := k + 1;
      cancelled, ok := CheckStep(id, i, k, world);
      if ok { ok, awaits := CallStep(id, i, k + 1, world); }
    }

    /** After the last step. */
    method Conclude(id: Id, k: nat, world: World) returns (ok: bool)
      requires Valid() && id in runs && runs[id].pc == LoopHead(|runs[id].body.steps|)
      requires forall n :: LeavesRun(world.others(n), id)
      modifies this
      ensures Valid() && old(log) <= log
      ensures id in runs && runs[id] == old(runs)[id].(pc := if ok then Succeeding else Catching)
    {
      GiveWay(world.others(k), id);
      ok := TransitionAwait(id, Operations.Verifying, Verified, Catching);
      if ok {
        GiveWay(world.others(k + 1), id);
        ok := TransitionAwait(id, Operations.Succeeded, Succeeding, Catching);
      }
    }

    method Close(id: Id, status: PlanStatus, k: nat, world: World)
      requires Valid() && id in runs
      requires Finishes(runs[id].pc, status)
      requires forall n :: LeavesRun(world.others(n), id)
      modifies this
      ensures Valid() && old(log) <= log
      ensures id in runs && runs[id].pc == Done
      ensures id in operations && runs[id].planId in plans && plans[runs[id].planId].status == status
      ensures Agrees(operations[id].life.state, status)
    {
      GiveWay(world.others(k), id);
      FinishAwait(id, status);
      FinishedRunsAgree(config, log, id);
    }

    /** The run is over and left the plan and the operation in agreement, or it crashed. */
    ghost predicate Ended(id: Id, status: Option<PlanStatus>)
      reads this
    {
      && id in runs
      && match status
         case None =>
           && runs[id].pc == Crashed && id in operations && runs[id].planId in plans
           && plans[runs[id].planId].status == Running && operations[id].life.state == Operations.Cancelled
         case Some(outcome) =>
           && runs[id].pc == Done && id in operations && runs[id].planId in plans
           && plans[runs[id].planId].status == outcome && Agrees(operations[id].life.state, outcome)
    }

    /** The catch block. */
    method Fail(id: Id, k: nat, world: World) returns (status: Option<PlanStatus>)
      requires Valid() && id in runs && runs[id].pc == Catching
      requires forall n :: LeavesRun(world.others(n), id)
      modifies this
      ensures Valid() && old(log) <= log && Ended(id, status)
    {
      GiveWay(world.others(k), id);
      var ok := TransitionAwait(id, Operations.Failed, Failing, Crashed);
      if !ok {
        CrashedState(config, log, id);
        return None;
      }
      Close(id, PlanStatus.Failed, k + 1, world);
      return Some(PlanStatus.Failed);
    }

    method TakeSteps(id: Id, world: World) returns (cancelled: bool, ok: bool, k: nat)
      requires Valid() && id in runs && runs[id].pc == LoopHead(0)
      requires forall n :: LeavesRun(world.others(n), id)
      modifies this
      ensures Valid() && old(log) <= log && !(cancelled && ok) && id in runs
      ensures runs[id] == old(runs)[id].(pc := if cancelled then Cancelling else if ok then LoopHead(|runs[id].body.steps|) else Catching)
    {
      cancelled, ok, k := false, true, 1;
      var i, n := 0, |runs[id].body.steps|;
      while ok && i < n
        invariant Valid() && old(log) <= log && !(cancelled && ok)
        invariant 0 <= i <= n && id in runs
        invariant runs[id] == old(runs)[id].(pc := if cancelled then Cancelling else if ok then LoopHead(i) else Catching)
        decreases n - i
      {
        cancelled, ok, k := TakeStep(id, i, k, world);
        i := i + 1;
      }
    }

    /** The loop over the plan's steps, and what follows it. */
    method RunSteps(id: Id, world: World) returns (status: Option<PlanStatus>)
      requires Valid() && id in runs && runs[id].pc == LoopHead(0)
      requires forall n :: LeavesRun(world.others(n), id)
      modifies this
      ensures Valid() && old(log) <= log && Ended(id, status)
    {
      var cancelled, ok, k := TakeSteps(id, world);
      if ok { ok := Conclude(id, k, world); }
      if cancelled {
        Close(id, PlanStatus.Cancelled, k, world);
        return Some(PlanStatus.Cancelled);
      }
      if ok {
        Close(id, PlanStatus.Succeeded, k + 2, world);
        return Some(PlanStatus.Succeeded);
      }
      status := Fail(id, k + 2, world);
    }

    /** Runs the plan of operation `id` to its end. However the others interleave, the run ends with
        the plan and its operation both succeeded, both failed or both cancelled, or it crashed. */
    method RunPlan(id: Id, world: World) returns (status: Option<PlanStatus>)
      requires Valid() && id in runs && runs[id].pc == AgentRuns.Launch
      requires forall n :: LeavesRun(world.others(n), id)
      modifies this
      ensures Valid() && old(log) <= log && Ended(id, status)
    {
      GiveWay(world.others(0), id);
      var ok := TransitionAwait(id, Operations.Running, LoopHead(0), Crashed);
      if !ok {
        CrashedState(config, log, id);
        return None;
      }
      status := RunSteps(id, world);
    }

    method ExecutePlan(caller: Caller, planId: Id, operationId: Id, world: World) returns (started: bool, status: Option<PlanStatus>)
      requires Valid() && operationId !in operations && operationId !in runs
      requires forall n :: LeavesRun(world.others(n), operationId)
      modifies this
      ensures Valid() && old(log) + [StartA(caller, planId, operationId)] <= log
      ensures started ==> Ended(operationId, status)
      ensures !started ==> View() == Start(config, old(View()), caller, planId, operationId)
    {
      status := None;
      started := StartPlan(caller, planId, operationId);
      if started { status := RunPlan(operationId, world); }
    }

    /** Saves a plan and, when it needs no approval, goes on to run it with the session it has; the
        others act in between. The operation's id is new by then. */
    method Invoke(sessionId: Text, planId: Id, operationId: Id, draft: Draft, others: seq<Action>, world: World)
      returns (plan: Option<Plan>, started: bool, status: Option<PlanStatus>)
      requires Valid() && planId !in plans && draft.invoke
      requires var t := ApplyAll(config, AgentRuns.CreatePlan(config, View(), sessionId, planId, draft), others);
               operationId !in t.operations && operationId !in t.runs
      requires forall n :: LeavesRun(world.others(n), operationId)
      modifies this
      ensures Valid()
      ensures if plan.Some? && plan.value.status == Approved
              then old(log) + [CreatePlanA(sessionId, planId, draft)] + others + [StartA(Invocation, planId, operationId)] <= log
              else !started && View() == AgentRuns.CreatePlan(config, old(View()), sessionId, planId, draft)
      ensures started ==> Ended(operationId, status)
    {
      started, status := false, None;
      plan := CreatePlan(sessionId, planId, draft);
      if plan.Some? && plan.value.status == Approved {
        OthersAct(others);
        started, status := ExecutePlan(Invocation, planId, operationId, world);
      }
    }
  }
}
