/** What a narrowing, the emergency stop or a cancel takes away stays away. */
module AgentNarrowing {
  import opened Optional
  import opened CanonicalJson
  import opened AgentPolicy
  import opened PlanBodies
  import opened AgentRuns
  import opened AgentSafety
  import opened AgentChanges
  import opened AgentAuthority
  import Operations

  /** The user grants, in time, a request to add capability `c` to session `id`. */
  predicate Reallows(s: State, a: Action, id: Text, c: Text) {
    a.DecideA? && Expands(s, a.approval, a.decision, id) && s.approvals[a.approval].capability == Some(c)
  }

  predicate NeverReallowed(config: Config, s: State, actions: seq<Action>, id: Text, c: Text) {
    if actions == [] then true
    else
      var earlier := actions[..|actions| - 1];
      NeverReallowed(config, s, earlier, id, c) && !Reallows(ApplyAll(config, s, earlier), actions[|actions| - 1], id, c)
  }

  /** The run is the second half of a call to `invoke` that was between its halves in `s`. */
  predicate Underway(s: State, run: Run) {
    run.caller.Invocation? && run.planId in s.invoked
  }

  /** `c` is denied in session `id` now, and was in every run of it started since `s`, but by the
      calls to `invoke` that were under way. */
  ghost predicate DeniedSince(s: State, t: State, id: Text, c: Text) {
    && id in t.sessions && c in t.sessions[id].permissions.deny
    && (forall r :: r in t.runs && r !in s.runs && t.runs[r].session.id == id && !Underway(s, t.runs[r]) ==>
          c in t.runs[r].session.permissions.deny)
    && (forall p :: p in t.invoked && p !in s.invoked && t.invoked[p].id == id ==> c in t.invoked[p].permissions.deny)
  }

  /** Those calls went on, or will, with the session they had in `s`. */
  ghost predicate InvokedSince(s: State, t: State) {
    && s.invoked.Keys <= t.plans.Keys
    && (forall p :: p in s.invoked && p in t.invoked ==> t.invoked[p] == s.invoked[p])
    && (forall r :: r in t.runs && r !in s.runs && Underway(s, t.runs[r]) ==> t.runs[r].session == s.invoked[t.runs[r].planId])
  }

  lemma StaysDenied(s: State, a: Action, id: Text, c: Text)
    requires id in s.sessions && c in s.sessions[id].permissions.deny && !Reallows(s, a, id, c)
    ensures c in PermissionsAfter(s, a, id).deny
  {
  }

  lemma DeniedRuns(config: Config, s: State, t: State, u: State, change: Change, id: Text, c: Text)
    requires DeniedSince(s, t, id, c) && Changed(config, t, u, change)
    requires id in u.sessions && c in u.sessions[id].permissions.deny
    ensures DeniedSince(s, u, id, c)
  {
  }

  lemma InvokedSinceChange(config: Config, s: State, t: State, u: State, change: Change)
    requires InvokedSince(s, t) && Changed(config, t, u, change)
    ensures InvokedSince(s, u)
  {
  }

  lemma DeniedSinceStep(config: Config, s: State, t: State, a: Action, id: Text, c: Text)
    requires WellKeyed(config) && Agreement(t) && SessionsKeyed(t)
    requires DeniedSince(s, t, id, c) && InvokedSince(s, t) && !Reallows(t, a, id, c)
    ensures DeniedSince(s, Apply(config, t, a), id, c) && InvokedSince(s, Apply(config, t, a))
  {
    PermissionsEvolve(config, t, a, id);
    StaysDenied(t, a, id, c);
    var change := StepChange(config, t, a);
    DeniedRuns(config, s, t, Apply(config, t, a), change, id, c);
    InvokedSinceChange(config, s, t, Apply(config, t, a), change);
  }

  lemma InvokedNow(config: Config, s: State)
    requires Sound(config, s)
    ensures InvokedSince(s, s)
  {
  }

  lemma {:induction false} DeniedSinceAlways(config: Config, s: State, actions: seq<Action>, id: Text, c: Text)
    requires Trusted(config) && Sound(config, s) && id in s.sessions && c in s.sessions[id].permissions.deny
    requires NeverReallowed(config, s, actions, id, c)
    ensures DeniedSince(s, ApplyAll(config, s, actions), id, c) && InvokedSince(s, ApplyAll(config, s, actions))
  {
    if actions == [] {
      InvokedNow(config, s);
    } else {
      var earlier := actions[..|actions| - 1];
      DeniedSinceAlways(config, s, earlier, id, c);
      SoundFrom(config, s, earlier);
      DeniedSinceStep(config, s, ApplyAll(config, s, earlier), actions[|actions| - 1], id, c);
    }
  }

  predicate RunsCapability(run: Run, c: Text) {
    match StepAt(run.pc)
    case Some(i) => i < |run.body.steps| && Matches({c}, run.body.steps[i].capability)
    case None => false
  }

  lemma DeniedNotRun(config: Config, run: Run, c: Text)
    requires RunPermitted(config, run) && c in run.session.permissions.deny
    ensures !RunsCapability(run, c)
  {
  }

  lemma DurableFrom(config: Config, s: State, after: seq<Action>, t: State, id: Text, c: Text, r: Id)
    requires Trusted(config) && Sound(config, s) && id in s.sessions && c in s.sessions[id].permissions.deny
    requires t == ApplyAll(config, s, after) && NeverReallowed(config, s, after, id, c)
    requires r in t.runs && r !in s.runs && t.runs[r].session.id == id
    ensures RunsCapability(t.runs[r], c) ==> Underway(s, t.runs[r]) && t.runs[r].session == s.invoked[t.runs[r].planId]
  {
    DeniedSinceAlways(config, s, after, id, c);
    SoundFrom(config, s, after);
    assert RunPermitted(config, t.runs[r]);
    if !Underway(s, t.runs[r]) { DeniedNotRun(config, t.runs[r], c); }
  }

  lemma NarrowedDenies(s: State, id: Text, narrowing: Narrowing, c: Text)
    requires id in s.sessions && c in narrowing.capabilities
    ensures var t := NarrowScope(s, id, narrowing); id in t.sessions && c in t.sessions[id].permissions.deny
  {
  }

  /** After `c` is narrowed away from a session, a run of it started later only comes to a step that
      needs `c` when it is the second half of a call to `invoke` that was under way, and goes on with
      the session of before; whatever plan was approved, and until the user grants `c` again. */
  lemma {:induction false} NarrowingIsDurable(config: Config, before: seq<Action>, id: Text, narrowing: Narrowing, s: State, after: seq<Action>, t: State, c: Text, r: Id)
    requires Trusted(config) && id in ApplyAll(config, INITIAL, before).sessions && c in narrowing.capabilities
    requires s == Apply(config, ApplyAll(config, INITIAL, before), NarrowA(id, narrowing))
    requires t == ApplyAll(config, s, after) && NeverReallowed(config, s, after, id, c)
    requires r in t.runs && r !in s.runs && t.runs[r].session.id == id
    ensures RunsCapability(t.runs[r], c) ==> Underway(s, t.runs[r]) && t.runs[r].session == s.invoked[t.runs[r].planId]
  {
    SoundAlways(config, before);
    SoundStep(config, ApplyAll(config, INITIAL, before), NarrowA(id, narrowing));
    NarrowedDenies(ApplyAll(config, INITIAL, before), id, narrowing, c);
    DurableFrom(config, s, after, t, id, c, r);
  }

  lemma InvokeIgnoresSessions(config: Config, s: State, sessions: map<Text, Session>, planId: Id, operationId: Id)
    ensures Start(config, s.(sessions := sessions), Invocation, planId, operationId).runs
            == Start(config, s, Invocation, planId, operationId).runs
  {
    var other := s.(sessions := sessions);
    var a, b := Admit(s, Invocation, planId), Admit(other, Invocation, planId);
    if a.session.Some? && planId in s.plans {
      StartedRuns(config, a.state, a.session.value, Invocation, planId, operationId);
      StartedRuns(config, b.state, b.session.value, Invocation, planId, operationId);
    }
  }

  lemma MovedRuns(s: State, id: Id, state: Operations.OperationState, next: Pc, otherwise: Pc)
    requires id in s.runs && id in s.operations
    ensures Move(s, id, state, next, otherwise).runs
            == s.runs[id := s.runs[id].(pc := if Operations.Transition(s.operations[id].life, state, false).Ok? then next else otherwise)]
  {
  }

  lemma LoopHeadRuns(config: Config, s: State, id: Id, i: nat)
    requires id in s.runs && id in s.operations
    ensures var run, life := s.runs[id], s.operations[id].life;
            AtLoopHead(config, s, id, i).runs == s.runs[id := run.(pc :=
              if i >= |run.body.steps| then (if Operations.Transition(life, Operations.Verifying, false).Ok? then Verified else Catching)
              else if life.cancelRequested then (if Operations.Transition(life, Operations.Cancelled, false).Ok? then Cancelling else Catching)
              else if StepAllowed(config, s, run, i) then Checked(i) else Catching)]
  {
    MovedRuns(s, id, Operations.Verifying, Verified, Catching);
    MovedRuns(s, id, Operations.Cancelled, Cancelling, Catching);
  }

  lemma LoopHeadIgnoresSessions(config: Config, s: State, sessions: map<Text, Session>, id: Id, i: nat)
    requires id in s.runs && id in s.operations && s.runs[id].pc == LoopHead(i)
    ensures AtLoopHead(config, s.(sessions := sessions), id, i).runs == AtLoopHead(config, s, id, i).runs
  {
    LoopHeadRuns(config, s, id, i);
    LoopHeadRuns(config, s.(sessions := sessions), id, i);
  }

  /** Whatever becomes of the stored sessions, a call to `invoke` starts its run, and a run comes to
      its next step, or does not, all the same: a session that is paused, narrowed or revoked in the
      meantime stops neither. */
  lemma SnapshotsIgnoreSessions(config: Config, s: State, sessions: map<Text, Session>, id: Id)
    requires Agreement(s)
    ensures forall p :: Start(config, s.(sessions := sessions), Invocation, p, id).runs == Start(config, s, Invocation, p, id).runs
    ensures id in s.runs && s.runs[id].pc.LoopHead? ==>
      Advance(config, s.(sessions := sessions), id, Returned).runs == Advance(config, s, id, Returned).runs
  {
    forall p ensures Start(config, s.(sessions := sessions), Invocation, p, id).runs == Start(config, s, Invocation, p, id).runs {
      InvokeIgnoresSessions(config, s, sessions, p, id);
    }
    if id in s.runs && s.runs[id].pc.LoopHead? {
      PlacedRun(s, id);
      LoopHeadIgnoresSessions(config, s, sessions, id, s.runs[id].pc.i);
    }
  }

  /******* What a narrowing may raise beside decisions *******/

  /** After the narrowing no amount can be booked that could not be before it. */
  ghost predicate NeverAffordsMore(s: State, id: Text, n: Narrowing) {
    forall amount :: Affordable(NarrowScope(s, id, n), id, amount) ==> Affordable(s, id, amount)
  }

  /** The new cap is no higher, or too low for what is spent already. */
  predicate CapHolds(session: Session, n: Narrowing) {
    n.maxProviderSpend.Some? ==>
      Positive(n.maxProviderSpend.value) <= session.maxProviderSpend || Positive(n.maxProviderSpend.value) < session.providerSpend
  }

  lemma NarrowingBudgetIff(s: State, id: Text, n: Narrowing)
    requires id in s.sessions
    ensures NeverAffordsMore(s, id, n) <==> CapHolds(s.sessions[id], n)
  {
    var session := s.sessions[id];
    if !CapHolds(session, n) {
      var rest := Positive(n.maxProviderSpend.value) - session.providerSpend;
      assert Affordable(NarrowScope(s, id, n), id, rest) && !Affordable(s, id, rest);
    }
  }

  function Later(s: State, wait: nat): State {
    s.(now := s.now + wait)
  }

  /** After the narrowing the session is let in at no time at which it was not before. */
  ghost predicate NeverAdmitsLonger(s: State, id: Text, n: Narrowing) {
    forall wait :: Authenticate(Later(NarrowScope(s, id, n), wait), id).session.Some? ==> Authenticate(Later(s, wait), id).session.Some?
  }

  /** The session is not let in anyway, or its new end is no later than the old one, or past. */
  predicate ExpiryHolds(now: nat, session: Session, n: Narrowing) {
    || !session.status.Active? || session.operationCount >= session.maxOperations
    || (n.expiresAt.Some? ==> n.expiresAt.value <= session.expiresAt || n.expiresAt.value <= now)
  }

  lemma AdmittedAt(s: State, id: Text, wait: nat)
    requires id in s.sessions
    ensures var session := s.sessions[id];
            Authenticate(Later(s, wait), id).session.Some?
            <==> s.now + wait < session.expiresAt && session.status.Active? && session.operationCount < session.maxOperations
  {
  }

  lemma NarrowingExpiryIff(s: State, id: Text, n: Narrowing)
    requires id in s.sessions
    ensures NeverAdmitsLonger(s, id, n) <==> ExpiryHolds(s.now, s.sessions[id], n)
  {
    var session, narrowed := s.sessions[id], NarrowScope(s, id, n);
    if ExpiryHolds(s.now, session, n) {
      forall wait | Authenticate(Later(narrowed, wait), id).session.Some? ensures Authenticate(Later(s, wait), id).session.Some? {
        AdmittedAt(narrowed, id, wait);
        AdmittedAt(s, id, wait);
      }
    } else {
      var wait: nat := if session.expiresAt <= s.now then 0 else session.expiresAt - s.now;
      AdmittedAt(narrowed, id, wait);
      AdmittedAt(s, id, wait);
    }
  }

  /** The run comes to step `i` in this very step of the machine. */
  predicate ComesTo(s: State, t: State, r: Id, i: nat) {
    && r in t.runs && StepAt(t.runs[r].pc) == Some(i) && i < |t.runs[r].body.steps|
    && (r in s.runs ==> StepAt(s.runs[r].pc) != Some(i))
  }

  /** Step `i` of run `r` only reads. */
  predicate OnlyReads(config: Config, t: State, r: Id, i: nat)
    requires r in t.runs && i < |t.runs[r].body.steps|
  {
    var capability := t.runs[r].body.steps[i].capability;
    capability in config.registry && config.registry[capability].access.ReadAccess?
  }

  /** While the emergency stop is on, a run only comes to a step that reads. */
  lemma StopHoldsWrites(config: Config, s: State, t: State, a: Action, r: Id, i: nat)
    requires Trusted(config) && Sound(config, s) && s.stopped && t == Apply(config, s, a) && ComesTo(s, t, r, i)
    ensures OnlyReads(config, t, r, i)
  {
    if a.AdvanceA? {
      StopHoldsAdvance(config, s, t, a.operationId, a.outcome, r, i);
    } else if a.StartA? {
      StartComesToNone(config, s, a.caller, a.planId, a.operationId, r, i);
    } else {
      OtherActionsKeepRuns(config, s, a);
    }
  }

  lemma StartComesToNone(config: Config, s: State, caller: Caller, planId: Id, operationId: Id, r: Id, i: nat)
    requires SessionsKeyed(s)
    ensures !ComesTo(s, Start(config, s, caller, planId, operationId), r, i)
  {
    StartEffect(config, s, caller, planId, operationId);
    LaunchComesToNone(s, Start(config, s, caller, planId, operationId), planId, operationId,
                      LaunchedBy(config, s, caller, planId, operationId), r, i);
  }

  lemma LaunchComesToNone(s: State, t: State, planId: Id, operationId: Id, launched: Launched, r: Id, i: nat)
    requires StartShape(s, t, planId, operationId, launched)
    ensures !ComesTo(s, t, r, i)
  {
  }

  lemma StopHoldsAdvance(config: Config, s: State, t: State, id: Id, outcome: Outcome, r: Id, i: nat)
    requires Agreement(s) && s.stopped && t == Advance(config, s, id, outcome) && ComesTo(s, t, r, i)
    ensures OnlyReads(config, t, r, i)
  {
    if id in s.runs {
      var run := s.runs[id];
      var l, m := CoherentAdvance(config, s, id, outcome);
      if r == id {
        LocalStepAt(l, |run.body.steps|, m);
        LoopHeadEffect(config, s, id, l.pc.i);
        StoppedAllowsReads(config, s, run, i);
      }
    }
  }

  lemma StoppedAllowsReads(config: Config, s: State, run: Run, i: nat)
    requires s.stopped && i < |run.body.steps| && StepAllowed(config, s, run, i)
    ensures config.registry[run.body.steps[i].capability].access.ReadAccess?
  {
    var step := run.body.steps[i];
    AllowedBecause(s.stopped, run.session, Request(config.registry[step.capability], step.input, run.body.environment),
                   run.body.sessionId == run.session.id);
  }

  /******* A cancel is final *******/

  /** Since `s` the operation stayed cancelled, and its run came to no new step. */
  predicate NoNewStep(s: State, t: State, id: Id)
    requires id in s.runs
  {
    && id in t.operations && id in t.runs && t.operations[id].life.cancelRequested
    && (StepAt(t.runs[id].pc).Some? ==> StepAt(t.runs[id].pc) == StepAt(s.runs[id].pc))
  }

  lemma LocalNoNewStep(l: Local, n: nat, m: Local)
    requires Coherent(l.pc, n, l.life, l.plan) && LocalStep(l, n, m) && l.life.cancelRequested
    ensures m.life.cancelRequested && (StepAt(m.pc).Some? ==> StepAt(m.pc) == StepAt(l.pc))
  {
  }

  lemma CancelledAwait(config: Config, t: State, run: Id, outcome: Outcome, id: Id)
    requires Agreement(t) && id in t.runs && id in t.operations && t.operations[id].life.cancelRequested && run in t.runs
    ensures NoNewStep(t, Advance(config, t, run, outcome), id)
  {
    var l, m := CoherentAdvance(config, t, run, outcome);
    if run == id { LocalNoNewStep(l, |t.runs[id].body.steps|, m); }
  }

  lemma CancelledAdvance(config: Config, t: State, a: Action, id: Id)
    requires Agreement(t) && id in t.runs && id in t.operations && t.operations[id].life.cancelRequested && a.AdvanceA?
    ensures NoNewStep(t, Apply(config, t, a), id)
  {
    if a.operationId in t.runs { CancelledAwait(config, t, a.operationId, a.outcome, id); }
  }

  lemma CancelledStart(config: Config, t: State, a: Action, id: Id)
    requires SessionsKeyed(t) && id in t.runs && id in t.operations && t.operations[id].life.cancelRequested && a.StartA?
    ensures NoNewStep(t, Apply(config, t, a), id)
  {
    StartEffect(config, t, a.caller, a.planId, a.operationId);
    CancelledLaunch(t, Start(config, t, a.caller, a.planId, a.operationId), a.planId, a.operationId,
                    LaunchedBy(config, t, a.caller, a.planId, a.operationId), id);
  }

  lemma CancelledLaunch(t: State, u: State, planId: Id, operationId: Id, launched: Launched, id: Id)
    requires StartShape(t, u, planId, operationId, launched) && id in t.runs && id in t.operations && t.operations[id].life.cancelRequested
    ensures NoNewStep(t, u, id)
  {
  }

  lemma CancelledAgain(config: Config, t: State, a: Action, id: Id)
    requires id in t.runs && id in t.operations && t.operations[id].life.cancelRequested && a.CancelA?
    ensures NoNewStep(t, Apply(config, t, a), id)
  {
  }

  lemma CancelledOther(config: Config, t: State, a: Action, id: Id)
    requires !a.AdvanceA? && !a.StartA? && !a.CancelA?
    requires id in t.runs && id in t.operations && t.operations[id].life.cancelRequested
    ensures NoNewStep(t, Apply(config, t, a), id)
  {
    OtherActionsKeepRuns(config, t, a);
    OtherOperationsSame(config, t, a);
  }

  lemma CancelledStep(config: Config, t: State, a: Action, id: Id)
    requires Agreement(t) && SessionsKeyed(t) && id in t.runs && id in t.operations && t.operations[id].life.cancelRequested
    ensures NoNewStep(t, Apply(config, t, a), id)
  {
    if a.AdvanceA? {
      CancelledAdvance(config, t, a, id);
    } else if a.StartA? {
      CancelledStart(config, t, a, id);
    } else if a.CancelA? {
      CancelledAgain(config, t, a, id);
    } else {
      CancelledOther(config, t, a, id);
    }
  }

  /** Whatever happens after a recorded cancel, the run comes to no new step: at most the one in
      flight completes; and the operation never succeeds. */
  lemma {:induction false} CancelIsFinal(config: Config, s: State, actions: seq<Action>, id: Id)
    requires Agreement(s) && SessionsKeyed(s) && id in s.runs && id in s.operations && s.operations[id].life.cancelRequested
    ensures NoNewStep(s, ApplyAll(config, s, actions), id)
    ensures ApplyAll(config, s, actions).operations[id].life.state in {Operations.Cancelling, Operations.Cancelled, Operations.Failed}
    ensures Agreement(ApplyAll(config, s, actions)) && SessionsKeyed(ApplyAll(config, s, actions))
  {
    CancelledState(s, id);
    if actions != [] {
      var t, a := ApplyAll(config, s, actions[..|actions| - 1]), actions[|actions| - 1];
      CancelIsFinal(config, s, actions[..|actions| - 1], id);
      CancelledStep(config, t, a, id);
      AgreementStep(config, t, a);
      SessionsKeyedStep(config, t, a);
      CancelledState(Apply(config, t, a), id);
    }
  }

  lemma CancelledState(t: State, id: Id)
    requires Agreement(t) && id in t.runs && id in t.operations && t.operations[id].life.cancelRequested
    ensures t.operations[id].life.state in {Operations.Cancelling, Operations.Cancelled, Operations.Failed}
  {
    assert CoherentRun(t, id);
  }
}
