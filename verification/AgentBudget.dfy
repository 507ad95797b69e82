/** Money and operation counts over whole runs of the control plane. */
module AgentBudget {
  import opened Optional
  import opened CanonicalJson
  import opened AgentPolicy
  import opened AgentRuns
  import opened AgentSafety
  import Operations

  /** Everything session `id` ever committed to spend. */
  function Spent(commitments: seq<Commitment>, id: Text): real {
    if commitments == [] then 0.0
    else
      var last := commitments[|commitments| - 1];
      Spent(commitments[..|commitments| - 1], id) + if last.sessionId == id then last.amount else 0.0
  }

  function OperationsOf(operations: map<Id, Operation>, id: Text): set<Id> {
    set x | x in operations && operations[x].sessionId == id
  }

  /** The runs of session `id` that were started by a call to `invoke`. */
  function InvokedRuns(runs: map<Id, Run>, id: Text): set<Id> {
    set x | x in runs && runs[x].session.id == id && runs[x].caller.Invocation?
  }

  /** The counters of one session are what its history says they are. Only calls to `invoke` can
      take it over its limit, each by one. */
  ghost predicate Accounted(s: State, id: Text)
    requires id in s.sessions
  {
    var session := s.sessions[id];
    && session.providerSpend == Spent(s.history.commitments, id)
    && session.operationCount == |OperationsOf(s.operations, id)| <= session.maxOperations + |InvokedRuns(s.runs, id)|
  }

  /** Sessions that do not exist own nothing. */
  ghost predicate Owned(s: State) {
    && (forall c :: c in s.history.commitments ==> c.sessionId in s.sessions && c.amount >= 0.0)
    && (forall x :: x in s.operations ==> s.operations[x].sessionId in s.sessions)
    && (forall p :: p in s.invoked ==> s.invoked[p].id in s.sessions)
  }

  ghost predicate AllAccounted(s: State) {
    Owned(s) && forall id :: id in s.sessions ==> Accounted(s, id)
  }

  /******* What the other steps leave alone *******/

  predicate SameMoney(a: Session, b: Session) {
    a.providerSpend == b.providerSpend && a.operationCount == b.operationCount && a.maxOperations == b.maxOperations
  }

  ghost predicate CountersKept(s: State, t: State) {
    && t.history.commitments == s.history.commitments && t.sessions.Keys == s.sessions.Keys
    && (forall id :: id in s.sessions ==> SameMoney(s.sessions[id], t.sessions[id]))
  }

  ghost predicate MoneyKept(s: State, t: State) {
    CountersKept(s, t) && t.history.creates == s.history.creates
  }

  predicate OperationsKept(s: State, t: State) {
    && t.operations.Keys == s.operations.Keys
    && (forall x :: x in s.operations ==> t.operations[x].sessionId == s.operations[x].sessionId)
  }

  /** The runs keep what they were started with, and an invocation that is new is of a known session. */
  predicate CallersKept(s: State, t: State) {
    && t.runs.Keys == s.runs.Keys
    && (forall r :: r in s.runs ==> t.runs[r].session == s.runs[r].session && t.runs[r].caller == s.runs[r].caller)
    && (forall p :: p in t.invoked && !(p in s.invoked && t.invoked[p] == s.invoked[p]) ==> t.invoked[p].id in s.sessions)
  }

  lemma AuthenticateMoney(s: State, sessionId: Text)
    ensures MoneyKept(s, Authenticate(s, sessionId).state)
    ensures var a := Authenticate(s, sessionId);
            a.session.Some? ==> a.state == s && sessionId in s.sessions && a.session.value == s.sessions[sessionId]
                                && a.session.value.operationCount < a.session.value.maxOperations
  {
  }

  lemma CreatePlanMoney(config: Config, s: State, sessionId: Text, planId: Id, draft: Draft)
    ensures MoneyKept(s, CreatePlan(config, s, sessionId, planId, draft))
  {
    AuthenticateMoney(s, sessionId);
  }

  lemma RequestMoney(config: Config, s: State, sessionId: Text, capability: Text, target: Option<Text>, environment: Option<Environment>)
    ensures MoneyKept(s, RequestScope(config, s, sessionId, capability, target, environment))
  {
    AuthenticateMoney(s, sessionId);
  }

  lemma DecideMoney(s: State, i: Id, decision: Decision)
    ensures MoneyKept(s, Decide(s, i, decision))
  {
  }

  lemma SettingMoney(s: State, sessionId: Text, status: SessionStatus)
    ensures MoneyKept(s, SetStatus(s, sessionId, status))
  {
  }

  lemma ResumeMoney(s: State, sessionId: Text)
    ensures MoneyKept(s, Resume(s, sessionId))
  {
    SettingMoney(s, sessionId, Active);
  }

  lemma NarrowingMoney(s: State, sessionId: Text, n: Narrowing)
    ensures MoneyKept(s, NarrowScope(s, sessionId, n))
  {
  }

  predicate MovesMoney(a: Action) {
    a.CreateSessionA? || a.StartA? || a.AdvanceA?
  }

  lemma OthersKeepMoney(config: Config, s: State, a: Action)
    requires !MovesMoney(a)
    ensures MoneyKept(s, Apply(config, s, a))
  {
    match a
    case CreatePlanA(sessionId, planId, draft) => CreatePlanMoney(config, s, sessionId, planId, draft);
    case RequestScopeA(sessionId, c, target, environment) => RequestMoney(config, s, sessionId, c, target, environment);
    case DecideA(i, decision) => DecideMoney(s, i, decision);
    case SetStatusA(sessionId, status) => SettingMoney(s, sessionId, status);
    case ResumeA(sessionId) => ResumeMoney(s, sessionId);
    case NarrowA(sessionId, n) => NarrowingMoney(s, sessionId, n);
    case _ => SameSessionsMoney(config, s, a);
  }

  lemma SameSessionsMoney(config: Config, s: State, a: Action)
    requires a.CancelA? || a.StopA? || a.WaitA? || a.EditA?
    ensures MoneyKept(s, Apply(config, s, a))
  {
    var t := Apply(config, s, a);
    assert t == s.(now := t.now, stopped := t.stopped, plans := t.plans, operations := t.operations);
  }

  lemma OthersKeepOperations(config: Config, s: State, a: Action)
    requires !MovesMoney(a)
    ensures OperationsKept(s, Apply(config, s, a))
  {
    if !a.CancelA? { OtherOperationsSame(config, s, a); }
  }

  lemma CreatePlanCallers(config: Config, s: State, sessionId: Text, planId: Id, draft: Draft)
    requires SessionsKeyed(s)
    ensures CallersKept(s, CreatePlan(config, s, sessionId, planId, draft))
  {
    AuthenticateMoney(s, sessionId);
    QuietAuthenticate(s, sessionId);
  }

  lemma OthersKeepCallers(config: Config, s: State, a: Action)
    requires SessionsKeyed(s) && !MovesMoney(a)
    ensures CallersKept(s, Apply(config, s, a))
  {
    match a
    case CreatePlanA(sessionId, planId, draft) => CreatePlanCallers(config, s, sessionId, planId, draft);
    case EditA(_, _) =>
    case CancelA(_) =>
    case _ => QuietActions(config, s, a);
  }

  lemma SameRuns(s: State, t: State, id: Text)
    requires OperationsKept(s, t) && CallersKept(s, t)
    ensures OperationsOf(t.operations, id) == OperationsOf(s.operations, id) && InvokedRuns(t.runs, id) == InvokedRuns(s.runs, id)
  {
  }

  lemma OwnedKept(s: State, t: State)
    requires Owned(s) && s.sessions.Keys == t.sessions.Keys && OperationsKept(s, t) && CallersKept(s, t)
    requires forall c :: c in t.history.commitments ==> c.sessionId in t.sessions && c.amount >= 0.0
    ensures Owned(t)
  {
  }

  lemma AccountedKept(s: State, t: State)
    requires AllAccounted(s) && CountersKept(s, t) && OperationsKept(s, t) && CallersKept(s, t)
    ensures AllAccounted(t)
  {
    OwnedKept(s, t);
    forall id | id in t.sessions ensures Accounted(t, id) {
      assert Accounted(s, id) && SameMoney(s.sessions[id], t.sessions[id]);
      SameRuns(s, t, id);
    }
  }

  /******* The steps that do move money or start operations *******/

  lemma {:induction false} NothingSpent(commitments: seq<Commitment>, id: Text)
    requires forall c :: c in commitments ==> c.sessionId != id
    ensures Spent(commitments, id) == 0.0
  {
    if commitments != [] {
      assert commitments[|commitments| - 1] in commitments;
      NothingSpent(commitments[..|commitments| - 1], id);
    }
  }

  lemma AccountedNewSession(s: State, session: Session)
    requires AllAccounted(s) && Agreement(s)
    ensures AllAccounted(CreateSession(s, session))
  {
    var t := CreateSession(s, session);
    if t != s {
      NothingSpent(s.history.commitments, session.id);
      assert OperationsOf(s.operations, session.id) == {};
      forall id | id in t.sessions ensures Accounted(t, id) {
        if id != session.id { assert Accounted(s, id); }
      }
    }
  }

  /** Starting a run adds one operation and counts it; with a token there is room for it. */
  predicate Counted(s: State, t: State, operationId: Id, run: Run) {
    && operationId !in s.operations && operationId !in s.runs && run.session.id in s.sessions
    && (run.caller.Token? ==> s.sessions[run.session.id].operationCount < s.sessions[run.session.id].maxOperations)
    && t.operations == s.operations[operationId := Operation(run.session.id, run.planId, Operations.Life(Operations.Queued, false))]
    && t.runs == s.runs[operationId := run]
    && t.sessions == Increment(s.sessions, run.session.id)
    && t.history == s.history && InvokedWithin(s.invoked, t.invoked)
  }

  lemma AdmitMoney(s: State, caller: Caller, planId: Id)
    requires SessionsKeyed(s) && Owned(s)
    ensures var a := Admit(s, caller, planId);
            && MoneyKept(s, a.state) && OperationsKept(s, a.state) && CallersKept(s, a.state) && a.state.runs == s.runs
            && (a.session.Some? ==>
                  && a.session.value.id in s.sessions && a.state == s.(invoked := a.state.invoked)
                  && (caller.Token? ==> a.session.value == s.sessions[a.session.value.id]
                                        && a.session.value.operationCount < a.session.value.maxOperations))
  {
    AdmitEffect(s, caller, planId);
    if caller.Token? { AuthenticateMoney(s, caller.sessionId); }
  }

  lemma StartMoney(config: Config, s: State, caller: Caller, planId: Id, operationId: Id)
    requires SessionsKeyed(s) && Owned(s)
    ensures var t := Start(config, s, caller, planId, operationId);
            match LaunchedBy(config, s, caller, planId, operationId)
            case NotLaunched => MoneyKept(s, t) && OperationsKept(s, t) && CallersKept(s, t) && t.runs == s.runs
            case LaunchedRun(run) => Counted(s, t, operationId, run) && run.pc == Launch && run.caller == caller
  {
    AdmitMoney(s, caller, planId);
    AdmitEffect(s, caller, planId);
    var a, t := Admit(s, caller, planId), Start(config, s, caller, planId, operationId);
    if a.session.Some? && planId in s.plans && operationId !in s.operations && operationId !in s.runs {
      StartedForEffect(config, a.state, a.session.value, caller, planId, operationId);
    }
    if operationId !in s.runs && operationId in t.runs {
      AdmittedCounted(s, a.state, t, a.session.value, caller, planId, operationId);
    } else {
      AdmittedOnly(s, a.state, t);
    }
  }

  lemma AdmittedOnly(s: State, u: State, t: State)
    requires MoneyKept(s, u) && OperationsKept(s, u) && CallersKept(s, u) && t == u.(plans := t.plans)
    ensures MoneyKept(s, t) && OperationsKept(s, t) && CallersKept(s, t)
  {
  }

  lemma AdmittedCounted(s: State, u: State, t: State, session: Session, caller: Caller, planId: Id, operationId: Id)
    requires u == s.(invoked := u.invoked) && InvokedWithin(s.invoked, u.invoked) && planId in s.plans
    requires operationId !in s.operations && operationId !in s.runs && session.id in s.sessions
    requires caller.Token? ==> s.sessions[session.id].operationCount < s.sessions[session.id].maxOperations
    requires t == u.(plans := t.plans, sessions := Increment(u.sessions, session.id),
                     operations := u.operations[operationId := Operation(session.id, planId, Operations.Life(Operations.Queued, false))],
                     runs := u.runs[operationId := Run(session, planId, u.plans[planId].body, caller, Launch)])
    ensures Counted(s, t, operationId, t.runs[operationId])
  {
  }

  lemma AccountedCounted(s: State, t: State, operationId: Id, run: Run)
    requires AllAccounted(s) && Counted(s, t, operationId, run)
    ensures AllAccounted(t)
  {
    forall id | id in t.sessions ensures Accounted(t, id) {
      OneMoreOperation(s.operations, t.operations, operationId, t.operations[operationId], id);
      OneMoreRun(s.runs, t.runs, operationId, run, id);
      assert Accounted(s, id);
    }
  }

  lemma OneMoreRun(before: map<Id, Run>, after: map<Id, Run>, operationId: Id, run: Run, id: Text)
    requires operationId !in before && after == before[operationId := run]
    ensures |InvokedRuns(after, id)| == |InvokedRuns(before, id)| + if run.session.id == id && run.caller.Invocation? then 1 else 0
  {
    assert InvokedRuns(after, id) == InvokedRuns(before, id) + if run.session.id == id && run.caller.Invocation? then {operationId} else {};
  }

  lemma OneMoreOperation(before: map<Id, Operation>, after: map<Id, Operation>, operationId: Id, operation: Operation, id: Text)
    requires operationId !in before && after == before[operationId := operation]
    ensures OperationsOf(after, id) == OperationsOf(before, id) + if operation.sessionId == id then {operationId} else {}
    ensures |OperationsOf(after, id)| == |OperationsOf(before, id)| + if operation.sessionId == id then 1 else 0
  {
    assert OperationsOf(after, id) == OperationsOf(before, id) + if operation.sessionId == id then {operationId} else {};
  }

  /** What one await does to the books: nothing, one commitment, or one create that was booked. */
  datatype Entry = NoEntry | Commits(c: Commitment) | Creates(c: Commitment)

  predicate Books(s: State, t: State, id: Id, c: Commitment)
    requires id in s.runs && id in t.runs
  {
    && c.operationId == id && c.sessionId == s.runs[id].session.id && c.amount >= 0.0
    && s.runs[id].pc == Executing(c.step) && t.runs[id].pc == Booked(c.step, c.amount)
    && c.sessionId in s.sessions && s.sessions[c.sessionId].providerSpend + c.amount <= s.sessions[c.sessionId].maxProviderSpend
    && t.sessions == s.sessions[c.sessionId := s.sessions[c.sessionId].(providerSpend := s.sessions[c.sessionId].providerSpend + c.amount)]
    && t.history.commitments == s.history.commitments + [c] && t.history.creates == s.history.creates
  }

  predicate StartsCreate(s: State, t: State, id: Id, c: Commitment)
    requires id in s.runs && id in t.runs
  {
    && c.operationId == id && c.sessionId == s.runs[id].session.id
    && s.runs[id].pc == Booked(c.step, c.amount) && t.runs[id].pc == Creating(c.step)
    && t.sessions == s.sessions
    && t.history.commitments == s.history.commitments && t.history.creates == s.history.creates + [c]
  }

  ghost predicate Entered(s: State, t: State, id: Id, e: Entry)
    requires id in s.runs && id in t.runs
  {
    match e
    case NoEntry => t.sessions == s.sessions && t.history == s.history && (t.runs[id].pc.Booked? ==> t.runs[id].pc == s.runs[id].pc)
    case Commits(c) => Books(s, t, id, c)
    case Creates(c) => StartsCreate(s, t, id, c)
  }

  lemma ExecutingEntry(s: State, id: Id, i: nat, outcome: Outcome) returns (e: Entry)
    requires Placed(s, id) && s.runs[id].pc == Executing(i)
    ensures id in WhileExecuting(s, id, i, outcome).runs && Entered(s, WhileExecuting(s, id, i, outcome), id, e)
  {
    e := NoEntry;
    match outcome
    case Book(amount) => e := CommitEntry(s, id, i, amount);
    case Returned => GotoEffect(s, id, LoopHead(i + 1));
    case Threw => GotoEffect(s, id, Catching);
  }

  lemma CommitEntry(s: State, id: Id, i: nat, amount: real) returns (e: Entry)
    requires Placed(s, id) && s.runs[id].pc == Executing(i)
    ensures var run := s.runs[id];
            var provisioning := i < |run.body.steps| && run.body.steps[i].capability == PROVISION;
            var t := if provisioning then Commit(s, id, i, amount) else s;
            id in t.runs && Entered(s, t, id, e)
  {
    var run := s.runs[id];
    if i < |run.body.steps| && run.body.steps[i].capability == PROVISION && Affordable(s, run.session.id, amount) {
      e := Commits(Commitment(run.session.id, id, i, Positive(amount)));
    } else {
      e := NoEntry;
    }
  }

  lemma BookedEntry(s: State, id: Id, i: nat, amount: real) returns (e: Entry)
    requires Placed(s, id) && s.runs[id].pc == Booked(i, amount)
    ensures id in StartCreate(s, id, i, amount).runs && Entered(s, StartCreate(s, id, i, amount), id, e)
  {
    e := Creates(Commitment(s.runs[id].session.id, id, i, amount));
  }

  lemma MoveEntry(s: State, id: Id, state: Operations.OperationState, next: Pc, otherwise: Pc)
    requires Placed(s, id) && !next.Booked? && !otherwise.Booked?
    ensures var t := Move(s, id, state, next, otherwise); id in t.runs && Entered(s, t, id, NoEntry)
  {
    MoveEffect(s, id, state, next, otherwise);
  }

  lemma FinishEntry(s: State, id: Id, status: PlanStatus)
    requires Placed(s, id)
    ensures var t := Finish(s, id, status); id in t.runs && Entered(s, t, id, NoEntry)
  {
    FinishEffect(s, id, status);
  }

  lemma LoopHeadEntry(config: Config, s: State, id: Id, i: nat)
    requires Placed(s, id) && s.runs[id].pc == LoopHead(i)
    ensures var t := AtLoopHead(config, s, id, i); id in t.runs && Entered(s, t, id, NoEntry)
  {
    LoopHeadEffect(config, s, id, i);
  }

  lemma CreatingEntry(s: State, id: Id, i: nat, outcome: Outcome)
    requires Placed(s, id) && s.runs[id].pc == Creating(i)
    ensures var t := WhileCreating(s, id, i, outcome); id in t.runs && Entered(s, t, id, NoEntry)
  {
    CreatingEffect(s, id, i, outcome);
  }

  /** Only while it provisions a server does a run enter anything. */
  lemma NothingEntered(config: Config, s: State, id: Id, outcome: Outcome)
    requires Placed(s, id) && !s.runs[id].pc.Executing? && !s.runs[id].pc.Booked?
    ensures id in Advance(config, s, id, outcome).runs && Entered(s, Advance(config, s, id, outcome), id, NoEntry)
  {
    match s.runs[id].pc
    case Launch => MoveEntry(s, id, Operations.Running, LoopHead(0), Crashed);
    case LoopHead(i) => LoopHeadEntry(config, s, id, i);
    case Checked(i) => MoveEntry(s, id, Operations.Running, Executing(i), Catching);
    case Creating(i) => CreatingEntry(s, id, i, outcome);
    case Cancelling => FinishEntry(s, id, PlanStatus.Cancelled);
    case Verified => MoveEntry(s, id, Operations.Succeeded, Succeeding, Catching);
    case Succeeding => FinishEntry(s, id, PlanStatus.Succeeded);
    case Catching => MoveEntry(s, id, Operations.Failed, Failing, Crashed);
    case Failing => FinishEntry(s, id, PlanStatus.Failed);
    case Done =>
    case Crashed =>
  }

  lemma AdvanceEntry(config: Config, s: State, id: Id, outcome: Outcome) returns (e: Entry)
    requires Placed(s, id)
    ensures id in Advance(config, s, id, outcome).runs && Entered(s, Advance(config, s, id, outcome), id, e)
  {
    match s.runs[id].pc
    case Executing(i) => e := ExecutingEntry(s, id, i, outcome);
    case Booked(i, amount) => e := BookedEntry(s, id, i, amount);
    case _ =>
      NothingEntered(config, s, id, outcome);
      e := NoEntry;
  }

  lemma SpentSnoc(commitments: seq<Commitment>, c: Commitment, id: Text)
    ensures Spent(commitments + [c], id) == Spent(commitments, id) + if c.sessionId == id then c.amount else 0.0
  {
    assert (commitments + [c])[..|commitments|] == commitments;
  }

  lemma AccountedEntry(s: State, t: State, id: Id, e: Entry)
    requires AllAccounted(s) && id in s.runs && id in t.runs && Entered(s, t, id, e) && OperationsKept(s, t) && CallersKept(s, t)
    ensures AllAccounted(t)
  {
    if e.Commits? {
      OwnedKept(s, t);
      forall x | x in t.sessions ensures Accounted(t, x) {
        assert Accounted(s, x);
        SpentSnoc(s.history.commitments, e.c, x);
        SameRuns(s, t, x);
      }
    } else {
      AccountedKept(s, t);
    }
  }

  lemma OnlyRunKeepsCallers(s: State, t: State, id: Id)
    requires Placed(s, id) && OnlyRun(s, t, id)
    ensures OperationsKept(s, t) && CallersKept(s, t)
  {
  }

  lemma AccountedAdvance(config: Config, s: State, id: Id, outcome: Outcome)
    requires Agreement(s) && AllAccounted(s)
    ensures AllAccounted(Advance(config, s, id, outcome))
  {
    if id in s.runs {
      var _, _ := CoherentAdvance(config, s, id, outcome);
      OnlyRunKeepsCallers(s, Advance(config, s, id, outcome), id);
      var e := AdvanceEntry(config, s, id, outcome);
      AccountedEntry(s, Advance(config, s, id, outcome), id, e);
    }
  }

  lemma AccountedStart(config: Config, s: State, caller: Caller, planId: Id, operationId: Id)
    requires SessionsKeyed(s) && AllAccounted(s)
    ensures AllAccounted(Start(config, s, caller, planId, operationId))
  {
    StartMoney(config, s, caller, planId, operationId);
    var t := Start(config, s, caller, planId, operationId);
    match LaunchedBy(config, s, caller, planId, operationId)
    case NotLaunched => AccountedKept(s, t);
    case LaunchedRun(run) => AccountedCounted(s, t, operationId, run);
  }

  lemma AccountedStep(config: Config, s: State, a: Action)
    requires Agreement(s) && SessionsKeyed(s) && AllAccounted(s)
    ensures AllAccounted(Apply(config, s, a))
  {
    if !MovesMoney(a) {
      OthersKeepMoney(config, s, a);
      OthersKeepOperations(config, s, a);
      OthersKeepCallers(config, s, a);
      AccountedKept(s, Apply(config, s, a));
    } else {
      match a
      case CreateSessionA(session) => AccountedNewSession(s, session);
      case StartA(caller, planId, operationId) => AccountedStart(config, s, caller, planId, operationId);
      case AdvanceA(id, outcome) => AccountedAdvance(config, s, id, outcome);
    }
  }

  /******* Each step books at most once, before it creates *******/

  /** A run at `pc` has gone past the point where it books step `step`. */
  predicate PastBooking(step: nat, pc: Pc) {
    match pc
    case Launch => false
    case LoopHead(i) => step < i
    case Checked(i) => step < i
    case Executing(i) => step < i
    case Booked(i, _) => step <= i
    case Creating(i) => step <= i
    case _ => true
  }

  predicate PastCreating(step: nat, pc: Pc) {
    PastBooking(step, pc) && (pc.Booked? ==> step < pc.i)
  }

  /** No step of any run is entered twice. */
  ghost predicate Once(entries: seq<Commitment>) {
    forall j, k :: 0 <= j < k < |entries| ==> entries[j].operationId != entries[k].operationId || entries[j].step != entries[k].step
  }

  ghost predicate Past(s: State) {
    && (forall c :: c in s.history.commitments ==> c.operationId in s.runs && PastBooking(c.step, s.runs[c.operationId].pc))
    && (forall c :: c in s.history.creates ==> c.operationId in s.runs && PastCreating(c.step, s.runs[c.operationId].pc))
  }

  ghost predicate BookedFirst(s: State) {
    && (forall c :: c in s.history.creates ==> c in s.history.commitments)
    && (forall id :: id in s.runs && s.runs[id].pc.Booked? ==>
          Commitment(s.runs[id].session.id, id, s.runs[id].pc.i, s.runs[id].pc.amount) in s.history.commitments)
  }

  ghost predicate Ledger(s: State) {
    Once(s.history.commitments) && Once(s.history.creates) && Past(s) && BookedFirst(s)
  }

  lemma StaysPast(l: Local, n: nat, m: Local, step: nat)
    requires LocalStep(l, n, m)
    ensures PastBooking(step, l.pc) ==> PastBooking(step, m.pc)
    ensures PastCreating(step, l.pc) ==> PastCreating(step, m.pc)
  {
  }

  lemma OnceSnoc(entries: seq<Commitment>, c: Commitment)
    requires Once(entries) && forall d :: d in entries ==> d.operationId != c.operationId || d.step != c.step
    ensures Once(entries + [c])
  {
  }

  /** What an await keeps of the books' bounds, whatever it enters. */
  lemma PastKept(s: State, t: State, id: Id, entries: seq<Commitment>)
    requires Placed(s, id) && OnlyRun(s, t, id) && LocalStep(LocalOf(s, id), |s.runs[id].body.steps|, LocalOf(t, id))
    ensures forall c :: c in entries && c.operationId in s.runs && PastBooking(c.step, s.runs[c.operationId].pc) ==>
              c.operationId in t.runs && PastBooking(c.step, t.runs[c.operationId].pc)
    ensures forall c :: c in entries && c.operationId in s.runs && PastCreating(c.step, s.runs[c.operationId].pc) ==>
              c.operationId in t.runs && PastCreating(c.step, t.runs[c.operationId].pc)
  {
    forall c | c in entries && c.operationId in s.runs
      ensures c.operationId in t.runs
      ensures PastBooking(c.step, s.runs[c.operationId].pc) ==> PastBooking(c.step, t.runs[c.operationId].pc)
      ensures PastCreating(c.step, s.runs[c.operationId].pc) ==> PastCreating(c.step, t.runs[c.operationId].pc)
    {
      StaysPast(LocalOf(s, id), |s.runs[id].body.steps|, LocalOf(t, id), c.step);
    }
  }

  lemma PastEntry(s: State, t: State, id: Id, e: Entry)
    requires Ledger(s) && Placed(s, id) && OnlyRun(s, t, id)
    requires LocalStep(LocalOf(s, id), |s.runs[id].body.steps|, LocalOf(t, id)) && Entered(s, t, id, e)
    ensures Past(t)
  {
    PastKept(s, t, id, s.history.commitments);
    PastKept(s, t, id, s.history.creates);
  }

  lemma BookedFirstEntry(s: State, t: State, id: Id, e: Entry)
    requires Ledger(s) && Placed(s, id) && OnlyRun(s, t, id) && Entered(s, t, id, e)
    ensures BookedFirst(t)
  {
  }

  lemma OnceEntry(s: State, t: State, id: Id, e: Entry)
    requires Ledger(s) && id in s.runs && id in t.runs && Entered(s, t, id, e)
    ensures Once(t.history.commitments) && Once(t.history.creates)
  {
    match e
    case NoEntry =>
    case Commits(c) => OnceSnoc(s.history.commitments, c);
    case Creates(c) => OnceSnoc(s.history.creates, c);
  }

  lemma LedgerAdvance(config: Config, s: State, id: Id, outcome: Outcome)
    requires Agreement(s) && Ledger(s)
    ensures Ledger(Advance(config, s, id, outcome))
  {
    if id in s.runs {
      var t := Advance(config, s, id, outcome);
      var _, _ := CoherentAdvance(config, s, id, outcome);
      var e := AdvanceEntry(config, s, id, outcome);
      PastEntry(s, t, id, e);
      BookedFirstEntry(s, t, id, e);
      OnceEntry(s, t, id, e);
    }
  }

  lemma LedgerKept(s: State, t: State)
    requires Ledger(s) && t.history.commitments == s.history.commitments && t.history.creates == s.history.creates && t.runs == s.runs
    ensures Ledger(t)
  {
  }

  lemma LedgerLaunched(s: State, t: State, operationId: Id, run: Run)
    requires Ledger(s) && t.history == s.history && operationId !in s.runs && t.runs == s.runs[operationId := run] && run.pc == Launch
    ensures Ledger(t)
  {
  }

  lemma LedgerStart(config: Config, s: State, caller: Caller, planId: Id, operationId: Id)
    requires SessionsKeyed(s) && Ledger(s)
    ensures Ledger(Start(config, s, caller, planId, operationId))
  {
    StartEffect(config, s, caller, planId, operationId);
    var t := Start(config, s, caller, planId, operationId);
    match LaunchedBy(config, s, caller, planId, operationId)
    case NotLaunched => LedgerKept(s, t);
    case LaunchedRun(run) => LedgerLaunched(s, t, operationId, run);
  }

  lemma LedgerStep(config: Config, s: State, a: Action)
    requires Agreement(s) && SessionsKeyed(s) && Ledger(s)
    ensures Ledger(Apply(config, s, a))
  {
    if a.AdvanceA? {
      LedgerAdvance(config, s, a.operationId, a.outcome);
    } else if a.StartA? {
      LedgerStart(config, s, a.caller, a.planId, a.operationId);
    } else {
      OtherActionsKeepRuns(config, s, a);
      if !a.CreateSessionA? { OthersKeepMoney(config, s, a); }
      LedgerKept(s, Apply(config, s, a));
    }
  }

  lemma CreatesKept(config: Config, s: State, a: Action)
    requires Agreement(s) && SessionsKeyed(s)
    ensures s.history.creates <= Apply(config, s, a).history.creates
  {
    if !MovesMoney(a) {
      OthersKeepMoney(config, s, a);
    } else {
      match a
      case CreateSessionA(session) => NewSessionCreates(s, session);
      case StartA(caller, planId, operationId) => StartEffect(config, s, caller, planId, operationId);
      case AdvanceA(id, outcome) => AdvanceCreates(config, s, id, outcome);
    }
  }

  lemma NewSessionCreates(s: State, session: Session)
    ensures CreateSession(s, session).history.creates == s.history.creates
  {
  }

  lemma AdvanceCreates(config: Config, s: State, id: Id, outcome: Outcome)
    requires Agreement(s)
    ensures s.history.creates <= Advance(config, s, id, outcome).history.creates
  {
    if id in s.runs {
      PlacedRun(s, id);
      var e := AdvanceEntry(config, s, id, outcome);
      EntryCreates(s, Advance(config, s, id, outcome), id, e);
    }
  }

  lemma EntryCreates(s: State, t: State, id: Id, e: Entry)
    requires id in s.runs && id in t.runs && Entered(s, t, id, e)
    ensures s.history.creates <= t.history.creates
  {
  }

  /** A create that was started is never forgotten. */
  lemma {:induction false} CreatesGrow(config: Config, s: State, actions: seq<Action>)
    requires Agreement(s) && SessionsKeyed(s)
    ensures Agreement(ApplyAll(config, s, actions)) && SessionsKeyed(ApplyAll(config, s, actions))
    ensures s.history.creates <= ApplyAll(config, s, actions).history.creates
  {
    if actions != [] {
      var before, a := ApplyAll(config, s, actions[..|actions| - 1]), actions[|actions| - 1];
      CreatesGrow(config, s, actions[..|actions| - 1]);
      AgreementStep(config, before, a);
      SessionsKeyedStep(config, before, a);
      CreatesKept(config, before, a);
    }
  }

  lemma {:induction false} BooksAlways(config: Config, actions: seq<Action>)
    ensures Agreement(ApplyAll(config, INITIAL, actions)) && SessionsKeyed(ApplyAll(config, INITIAL, actions))
    ensures AllAccounted(ApplyAll(config, INITIAL, actions)) && Ledger(ApplyAll(config, INITIAL, actions))
  {
    if actions != [] {
      var before, a := ApplyAll(config, INITIAL, actions[..|actions| - 1]), actions[|actions| - 1];
      BooksAlways(config, actions[..|actions| - 1]);
      AgreementStep(config, before, a);
      SessionsKeyedStep(config, before, a);
      AccountedStep(config, before, a);
      LedgerStep(config, before, a);
    }
  }

  /** In every reachable state: what a session has spent is the sum of its commitments; the
      operations it counts are those it has, and no more than it may have but by one for each call
      to `invoke`; and every server create that was started had been booked, each step at most once. */
  lemma {:induction false} BudgetConserved(config: Config, actions: seq<Action>, id: Text)
    requires id in ApplyAll(config, INITIAL, actions).sessions
    ensures var s := ApplyAll(config, INITIAL, actions); var session := s.sessions[id];
            && session.providerSpend == Spent(s.history.commitments, id)
            && session.operationCount == |OperationsOf(s.operations, id)| <= session.maxOperations + |InvokedRuns(s.runs, id)|
            && (forall c :: c in s.history.creates ==> c in s.history.commitments)
            && Once(s.history.commitments) && Once(s.history.creates)
  {
    BooksAlways(config, actions);
    assert Accounted(ApplyAll(config, INITIAL, actions), id);
  }

  predicate OverLimit(s: State, id: Text)
    requires id in s.sessions
  {
    s.sessions[id].operationCount > s.sessions[id].maxOperations
  }

  /** An invocation between its halves, whose plan can start. */
  predicate CanGoOn(config: Config, s: State, planId: Id, id: Text) {
    && planId in s.invoked && s.invoked[planId].id == id && planId in s.plans
    && Launches(config, s.plans[planId], ApprovedForPlan(s.approvals, planId), s.invoked[planId])
  }

  /** A call to `invoke` of session `id` goes on to start its plan, and the session is at its limit. */
  predicate InvokesAtLimit(config: Config, s: State, a: Action, id: Text)
    requires id in s.sessions
  {
    && a.StartA? && a.caller.Invocation? && CanGoOn(config, s, a.planId, id)
    && a.operationId !in s.operations && a.operationId !in s.runs
    && s.sessions[id].operationCount == s.sessions[id].maxOperations
  }

  /** Whether it goes on can be told before. */
  lemma LaunchedIff(config: Config, s: State, planId: Id, operationId: Id, id: Text)
    ensures var l := LaunchedBy(config, s, Invocation, planId, operationId);
            l.LaunchedRun? && l.run.session.id == id
            <==> CanGoOn(config, s, planId, id) && operationId !in s.operations && operationId !in s.runs
  {
    var a := Admit(s, Invocation, planId);
    if a.session.Some? && planId in s.plans {
      StartedRuns(config, a.state, a.session.value, Invocation, planId, operationId);
    }
  }

  predicate SameLimit(a: Session, b: Session) {
    a.operationCount == b.operationCount && a.maxOperations == b.maxOperations
  }

  lemma StartLimit(config: Config, s: State, caller: Caller, planId: Id, operationId: Id, id: Text)
    requires SessionsKeyed(s) && Owned(s) && id in s.sessions && !OverLimit(s, id)
    ensures var t := Start(config, s, caller, planId, operationId);
            id in t.sessions && (OverLimit(t, id) <==> InvokesAtLimit(config, s, StartA(caller, planId, operationId), id))
  {
    StartMoney(config, s, caller, planId, operationId);
    var t := Start(config, s, caller, planId, operationId);
    match LaunchedBy(config, s, caller, planId, operationId)
    case NotLaunched => assert SameMoney(s.sessions[id], t.sessions[id]);
    case LaunchedRun(run) => LaunchLimit(s, t, operationId, run, id);
    if caller.Invocation? { LaunchedIff(config, s, planId, operationId, id); }
  }

  lemma LaunchLimit(s: State, t: State, operationId: Id, run: Run, id: Text)
    requires Counted(s, t, operationId, run) && id in s.sessions && !OverLimit(s, id)
    ensures id in t.sessions
    ensures OverLimit(t, id) <==>
      run.session.id == id && run.caller.Invocation? && s.sessions[id].operationCount == s.sessions[id].maxOperations
  {
  }

  /** A step takes a session over its limit of operations exactly when it is the second half of a
      call to `invoke`, whose first half found room that is taken by now. */
  lemma LimitPassedIff(config: Config, s: State, a: Action, id: Text)
    requires Agreement(s) && SessionsKeyed(s) && AllAccounted(s) && id in s.sessions && !OverLimit(s, id)
    ensures id in Apply(config, s, a).sessions
    ensures OverLimit(Apply(config, s, a), id) <==> InvokesAtLimit(config, s, a, id)
  {
    if a.StartA? {
      StartLimit(config, s, a.caller, a.planId, a.operationId, id);
    } else {
      OthersKeepLimit(config, s, a, id);
    }
  }

  lemma OthersKeepLimit(config: Config, s: State, a: Action, id: Text)
    requires Agreement(s) && id in s.sessions && !a.StartA?
    ensures id in Apply(config, s, a).sessions && SameLimit(s.sessions[id], Apply(config, s, a).sessions[id])
  {
    if a.AdvanceA? {
      AdvanceKeepsLimit(config, s, a.operationId, a.outcome, id);
    } else if a.CreateSessionA? {
      CreateKeepsLimit(s, a.session, id);
    } else {
      OthersKeepMoney(config, s, a);
      assert SameMoney(s.sessions[id], Apply(config, s, a).sessions[id]);
    }
  }

  lemma AdvanceKeepsLimit(config: Config, s: State, run: Id, outcome: Outcome, id: Text)
    requires Agreement(s) && id in s.sessions
    ensures id in Advance(config, s, run, outcome).sessions && SameLimit(s.sessions[id], Advance(config, s, run, outcome).sessions[id])
  {
    if run in s.runs { var _, _ := CoherentAdvance(config, s, run, outcome); }
  }

  lemma CreateKeepsLimit(s: State, session: Session, id: Text)
    requires id in s.sessions
    ensures id in CreateSession(s, session).sessions && CreateSession(s, session).sessions[id] == s.sessions[id]
  {
  }

  lemma GoesOn(config: Config, s: State, planId: Id, operationId: Id, id: Text)
    requires CanGoOn(config, s, planId, id) && operationId !in s.operations && operationId !in s.runs
    ensures var t := Start(config, s, Invocation, planId, operationId);
            && t.sessions == Increment(s.sessions, id)
            && t.operations.Keys == s.operations.Keys + {operationId} && t.runs.Keys == s.runs.Keys + {operationId}
            && (forall p :: p != planId && CanGoOn(config, s, p, id) ==> CanGoOn(config, t, p, id))
  {
    var u := s.(invoked := s.invoked - {planId});
    StartedRuns(config, u, s.invoked[planId], Invocation, planId, operationId);
    StartedForEffect(config, u, s.invoked[planId], Invocation, planId, operationId);
  }

  /** It does happen: of two such calls under way, the second goes on though the first took the
      last room. */
  lemma LimitCanBePassed(config: Config, s: State, p: Id, q: Id, x: Id, y: Id, id: Text)
    requires p != q && CanGoOn(config, s, p, id) && CanGoOn(config, s, q, id)
    requires x != y && {x, y} !! s.operations.Keys && {x, y} !! s.runs.Keys
    requires id in s.sessions && s.sessions[id].operationCount + 1 == s.sessions[id].maxOperations
    ensures var t := Start(config, Start(config, s, Invocation, p, x), Invocation, q, y);
            id in t.sessions && OverLimit(t, id)
  {
    GoesOn(config, s, p, x, id);
    GoesOn(config, Start(config, s, Invocation, p, x), q, y, id);
  }

  /** A step either commits nothing, or commits one amount that fits under the cap in force. */
  ghost predicate WithinCap(s: State, t: State) {
    || t.history.commitments == s.history.commitments
    || (exists c :: t.history.commitments == s.history.commitments + [c] && c.sessionId in s.sessions && c.sessionId in t.sessions
                    && c.amount >= 0.0 && t.sessions[c.sessionId].providerSpend == s.sessions[c.sessionId].providerSpend + c.amount
                    && t.sessions[c.sessionId].providerSpend <= s.sessions[c.sessionId].maxProviderSpend)
  }

  ghost predicate NeverRefunded(s: State, t: State) {
    forall id :: id in s.sessions ==> id in t.sessions && t.sessions[id].providerSpend >= s.sessions[id].providerSpend
  }

  lemma EntryWithinCap(s: State, t: State, id: Id, e: Entry)
    requires id in s.runs && id in t.runs && Entered(s, t, id, e)
    ensures WithinCap(s, t) && NeverRefunded(s, t)
  {
    if e.Commits? { assert t.history.commitments == s.history.commitments + [e.c]; }
  }

  lemma SpendingRules(config: Config, s: State, a: Action)
    requires Agreement(s) && SessionsKeyed(s)
    ensures WithinCap(s, Apply(config, s, a)) && NeverRefunded(s, Apply(config, s, a))
  {
    if !MovesMoney(a) {
      OthersKeepMoney(config, s, a);
      KeptWithinCap(s, Apply(config, s, a));
    } else {
      match a
      case CreateSessionA(session) =>
      case StartA(caller, planId, operationId) => StartWithinCap(config, s, caller, planId, operationId);
      case AdvanceA(id, outcome) => AdvanceWithinCap(config, s, id, outcome);
    }
  }

  lemma KeptWithinCap(s: State, t: State)
    requires MoneyKept(s, t)
    ensures WithinCap(s, t) && NeverRefunded(s, t)
  {
    forall id | id in s.sessions ensures id in t.sessions && t.sessions[id].providerSpend >= s.sessions[id].providerSpend {
      assert SameMoney(s.sessions[id], t.sessions[id]);
    }
  }

  lemma StartWithinCap(config: Config, s: State, caller: Caller, planId: Id, operationId: Id)
    requires SessionsKeyed(s)
    ensures var t := Start(config, s, caller, planId, operationId); WithinCap(s, t) && NeverRefunded(s, t)
  {
    StartSpendsNothing(config, s, caller, planId, operationId);
    StartEffect(config, s, caller, planId, operationId);
  }

  lemma StartSpendsNothing(config: Config, s: State, caller: Caller, planId: Id, operationId: Id)
    ensures var t := Start(config, s, caller, planId, operationId);
            forall id :: id in s.sessions ==> id in t.sessions && t.sessions[id].providerSpend == s.sessions[id].providerSpend
  {
    AdmitEffect(s, caller, planId);
    var a := Admit(s, caller, planId);
    if a.session.Some? && planId in s.plans && operationId !in s.operations && operationId !in s.runs {
      StartedForEffect(config, a.state, a.session.value, caller, planId, operationId);
    } else {
      AdmitSpendsNothing(s, caller, planId);
    }
  }

  lemma AdmitSpendsNothing(s: State, caller: Caller, planId: Id)
    ensures var t := Admit(s, caller, planId).state;
            forall id :: id in s.sessions ==> id in t.sessions && t.sessions[id].providerSpend == s.sessions[id].providerSpend
  {
    if caller.Token? {
      AuthenticateMoney(s, caller.sessionId);
      var t := Authenticate(s, caller.sessionId).state;
      forall id | id in s.sessions ensures t.sessions[id].providerSpend == s.sessions[id].providerSpend {
        assert SameMoney(s.sessions[id], t.sessions[id]);
      }
    }
  }

  lemma AdvanceWithinCap(config: Config, s: State, id: Id, outcome: Outcome)
    requires Agreement(s)
    ensures var t := Advance(config, s, id, outcome); WithinCap(s, t) && NeverRefunded(s, t)
  {
    if id in s.runs {
      PlacedRun(s, id);
      var e := AdvanceEntry(config, s, id, outcome);
      EntryWithinCap(s, Advance(config, s, id, outcome), id, e);
    }
  }
}
