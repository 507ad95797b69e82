/** Sessions, their permission lists, and the policy decision made for every step. */
module AgentPolicy {
  import opened Optional
  import opened CanonicalJson

  datatype Environment = Development | Staging | Production
  datatype Access = ReadAccess | LocalWrite | RemoteWrite | ProviderWrite
  datatype ApprovalDefault = SessionGrant | PlanApproval | ExplicitApproval

  datatype Capability = Capability(
    id: Text, access: Access, risk: Text, enabled: bool, hostScoped: bool,
    approvalDefaults: map<Environment, ApprovalDefault>)

  const EVERY_CAPABILITY: Text := Ascii("*")
  const PROVISION: Text := Ascii("server.provision")
  const READ_ONLY: Text := Ascii("read_only")

  datatype SessionStatus = Active | Paused | Revoked | Expired | Completed

  /** Permission lists and targets are sets: no decision depends on their order. */
  datatype Permissions = Permissions(
    allow: set<Text>, allowWithinApprovedPlan: set<Text>, requireApproval: set<Text>, deny: set<Text>)

  datatype Session = Session(
    id: Text, status: SessionStatus, targets: set<Text>, environments: seq<Environment>, permissions: Permissions,
    expiresAt: nat, maxOperations: nat, maxProviderSpend: real, operationCount: nat, providerSpend: real)

  datatype Effect = Deny | ApprovalRequired | Allow

  function Rank(e: Effect): int {
    match e
    case Deny => 0
    case ApprovalRequired => 1
    case Allow => 2
  }

  predicate Matches(patterns: set<Text>, capability: Text) {
    EVERY_CAPABILITY in patterns || capability in patterns
  }

  function Lookup(ms: seq<Member>, key: Text): Option<Json> {
    if ms == [] then None
    else if ms[0].key == key then Some(ms[0].value)
    else Lookup(ms[1..], key)
  }

  /** A non-empty string under `key`. */
  function NamedTarget(input: Json, key: string): Option<Text> {
    if !input.Obj? then None
    else
      match Lookup(input.members, Ascii(key))
      case Some(Str(s)) => if s != [] then Some(s) else None
      case _ => None
  }

  function TargetFrom(input: Json): Option<Text> {
    if NamedTarget(input, "target").Some? then NamedTarget(input, "target")
    else if NamedTarget(input, "host").Some? then NamedTarget(input, "host")
    else NamedTarget(input, "id")
  }

  datatype Request = Request(capability: Capability, input: Json, environment: Environment)

  predicate OutOfScope(session: Session, request: Request) {
    || request.environment !in session.environments
    || (session.targets != {} &&
        match TargetFrom(request.input)
        case Some(target) => target !in session.targets
        case None => request.capability.hostScoped)
  }

  /** `approvedPlan` says that the request is a step of a plan of this very session that counts
      as approved. The stop flag is the live one. */
  function Evaluate(stopped: bool, session: Session, request: Request, approvedPlan: bool): Effect {
    var c, p := request.capability, session.permissions;
    if stopped && !c.access.ReadAccess? then Deny
    else if !c.enabled then Deny
    else if !session.status.Active? then Deny
    else if OutOfScope(session, request) then Deny
    else if Matches(p.deny, c.id) then Deny
    else if c.id == PROVISION && session.maxProviderSpend <= 0.0 then Deny
    else if c.risk == READ_ONLY && Matches(p.allow, c.id) then Allow
    else if Matches(p.allow, c.id) then Allow
    else if approvedPlan && (Matches(p.allowWithinApprovedPlan, c.id) || Matches(p.requireApproval, c.id)) then Allow
    else if Matches(p.requireApproval, c.id) || Matches(p.allowWithinApprovedPlan, c.id)
         || !(request.environment in c.approvalDefaults && c.approvalDefaults[request.environment].SessionGrant?) then ApprovalRequired
    else Deny
  }

  /******* Granting and narrowing *******/

  function Unique<T(==)>(xs: seq<T>, x: T): seq<T> {
    if x in xs then xs else xs + [x]
  }

  function Grant(session: Session, capability: Text, target: Option<Text>, environment: Option<Environment>): Session {
    session.(
      targets := if target.Some? && target.value != [] then session.targets + {target.value} else session.targets,
      environments := if environment.Some? then Unique(session.environments, environment.value) else session.environments,
      permissions := session.permissions.(
        allow := session.permissions.allow + {capability},
        deny := session.permissions.deny - {capability},
        requireApproval := session.permissions.requireApproval - {capability}))
  }

  datatype Narrowing = Narrowing(
    capabilities: set<Text>, targets: Option<set<Text>>, expiresAt: Option<nat>, maxProviderSpend: Option<real>)

  function NarrowPermissions(p: Permissions, removed: set<Text>): Permissions {
    Permissions(p.allow - removed, p.allowWithinApprovedPlan - removed, p.requireApproval - removed, p.deny + removed)
  }

  function Narrow(session: Session, n: Narrowing): Session {
    session.(
      targets := if n.targets.Some? then n.targets.value else session.targets,
      permissions := NarrowPermissions(session.permissions, n.capabilities),
      expiresAt := if n.expiresAt.Some? then n.expiresAt.value else session.expiresAt,
      maxProviderSpend :=
        if n.maxProviderSpend.None? then session.maxProviderSpend
        else if n.maxProviderSpend.value < 0.0 then 0.0
        else n.maxProviderSpend.value)
  }

  function NarrowCapabilities(capabilities: set<Text>): Narrowing {
    Narrowing(capabilities, None, None, None)
  }

  /** Taking capabilities away never raises a decision, for any request, plan or stop flag. */
  lemma NarrowingNeverRaises(stopped: bool, session: Session, removed: set<Text>, request: Request, approvedPlan: bool)
    ensures Rank(Evaluate(stopped, Narrow(session, NarrowCapabilities(removed)), request, approvedPlan))
            <= Rank(Evaluate(stopped, session, request, approvedPlan))
  {
    var narrowed := Narrow(session, NarrowCapabilities(removed));
    assert OutOfScope(narrowed, request) == OutOfScope(session, request);
  }

  /** ... and what it takes away is denied. */
  lemma NarrowingDenies(stopped: bool, session: Session, n: Narrowing, request: Request, approvedPlan: bool)
    requires Matches(n.capabilities, request.capability.id)
    ensures Evaluate(stopped, Narrow(session, n), request, approvedPlan) == Deny
  {
  }

  /******* What a narrowing may raise *******/

  /** The session denies everything, before the narrowing or after it. */
  predicate Hopeless(session: Session, removed: set<Text>) {
    || !session.status.Active?
    || session.environments == []
    || EVERY_CAPABILITY in session.permissions.deny + removed
  }

  /** The new targets are among the old ones; no targets at all means every target. */
  predicate TargetsShrink(before: set<Text>, after: set<Text>) {
    before == {} || (after != {} && forall target :: target in after && target != [] ==> target in before)
  }

  /** A guard on the request to narrow, for the caller to check against the stored session. */
  predicate OnlyNarrows(session: Session, n: Narrowing) {
    || Hopeless(session, n.capabilities)
    || (&& (n.targets.Some? ==> TargetsShrink(session.targets, n.targets.value))
        && (n.maxProviderSpend.Some? && n.maxProviderSpend.value > 0.0 && session.maxProviderSpend <= 0.0 ==>
              Matches(session.permissions.deny + n.capabilities, PROVISION)))
  }

  /** A narrowing raises no decision, whatever is asked, in or out of a plan, stopped or not. */
  ghost predicate NeverRaises(session: Session, n: Narrowing) {
    forall stopped, request, approvedPlan ::
      Rank(Evaluate(stopped, Narrow(session, n), request, approvedPlan)) <= Rank(Evaluate(stopped, session, request, approvedPlan))
  }

  lemma ScopeShrinks(session: Session, n: Narrowing, request: Request)
    requires n.targets.Some? ==> TargetsShrink(session.targets, n.targets.value)
    requires OutOfScope(session, request)
    ensures OutOfScope(Narrow(session, n), request)
  {
  }

  lemma NarrowedDecision(stopped: bool, session: Session, n: Narrowing, request: Request, approvedPlan: bool)
    requires OnlyNarrows(session, n)
    ensures Rank(Evaluate(stopped, Narrow(session, n), request, approvedPlan)) <= Rank(Evaluate(stopped, session, request, approvedPlan))
  {
    if OutOfScope(session, request) && !Hopeless(session, n.capabilities) { ScopeShrinks(session, n, request); }
  }

  lemma {:induction false} LongestText(taken: set<Text>) returns (n: nat)
    ensures forall t :: t in taken ==> |t| <= n
  {
    if taken == {} {
      n := 0;
    } else {
      var t :| t in taken;
      n := LongestText(taken - {t});
      if n < |t| { n := |t|; }
    }
  }

  lemma Fresh(taken: set<Text>) returns (t: Text)
    ensures t != [] && t !in taken
  {
    var n := LongestText(taken);
    t := seq(n + 1, _ => 0);
  }

  /** A capability no list names and no default grants. */
  function Unlisted(id: Text): Capability {
    Capability(id, LocalWrite, [], true, false, map[])
  }

  function Aimed(target: Text): Json {
    Obj([Member(Ascii("target"), Str(target))])
  }

  lemma AimedAt(target: Text)
    requires target != []
    ensures TargetFrom(Aimed(target)) == Some(target)
  {
  }

  lemma NewTargetRaises(session: Session, n: Narrowing)
    requires !Hopeless(session, n.capabilities)
    requires n.targets.Some? && !TargetsShrink(session.targets, n.targets.value)
    ensures !NeverRaises(session, n)
  {
    var target: Text;
    if n.targets.value == {} {
      target := Fresh(session.targets);
    } else {
      target :| target in n.targets.value && target != [] && target !in session.targets;
    }
    var id := Fresh(session.permissions.deny + n.capabilities + {PROVISION});
    AimedAt(target);
    var request := Request(Unlisted(id), Aimed(target), session.environments[0]);
    assert OutOfScope(session, request) && !OutOfScope(Narrow(session, n), request);
    assert Evaluate(false, session, request, false) == Deny;
    assert Evaluate(false, Narrow(session, n), request, false) != Deny;
  }

  lemma NewBudgetRaises(session: Session, n: Narrowing)
    requires !Hopeless(session, n.capabilities)
    requires n.maxProviderSpend.Some? && n.maxProviderSpend.value > 0.0 && session.maxProviderSpend <= 0.0
    requires !Matches(session.permissions.deny + n.capabilities, PROVISION)
    ensures !NeverRaises(session, n)
  {
    var request := Request(Unlisted(PROVISION), Null, session.environments[0]);
    assert !OutOfScope(Narrow(session, n), request);
    assert Evaluate(false, session, request, false) == Deny;
    assert Evaluate(false, Narrow(session, n), request, false) != Deny;
  }

  /** Exactly when `narrowScope` narrows: the targets must be among the old ones and not none, and
      the spend cap must not come up from nothing, unless the session denies everything anyway. */
  lemma NarrowingNeverRaisesIff(session: Session, n: Narrowing)
    ensures NeverRaises(session, n) <==> OnlyNarrows(session, n)
  {
    if OnlyNarrows(session, n) {
      forall stopped, request, approvedPlan
        ensures Rank(Evaluate(stopped, Narrow(session, n), request, approvedPlan)) <= Rank(Evaluate(stopped, session, request, approvedPlan))
      {
        NarrowedDecision(stopped, session, n, request, approvedPlan);
      }
    } else if n.targets.Some? && !TargetsShrink(session.targets, n.targets.value) {
      NewTargetRaises(session, n);
    } else {
      NewBudgetRaises(session, n);
    }
  }

  /** A plan step is only ever allowed by the allow list, or as a step of an approved plan. */
  lemma AllowedBecause(stopped: bool, session: Session, request: Request, approvedPlan: bool)
    requires Evaluate(stopped, session, request, approvedPlan) == Allow
    ensures !Matches(session.permissions.deny, request.capability.id)
    ensures stopped ==> request.capability.access.ReadAccess?
    ensures request.capability.enabled && session.status.Active? && !OutOfScope(session, request)
    ensures request.capability.id == PROVISION ==> session.maxProviderSpend > 0.0
    ensures !Matches(session.permissions.allow, request.capability.id) ==>
      approvedPlan && (Matches(session.permissions.allowWithinApprovedPlan, request.capability.id)
                       || Matches(session.permissions.requireApproval, request.capability.id))
  {
  }

  /** Approving a plan is what separates the two decisions: it turns `ApprovalRequired` into
      `Allow` exactly for the capabilities the session lists, and changes nothing else. */
  lemma ApprovalEffect(stopped: bool, session: Session, request: Request)
    ensures var unapproved := Evaluate(stopped, session, request, false);
            var approved := Evaluate(stopped, session, request, true);
            approved == if unapproved == ApprovalRequired
                           && (Matches(session.permissions.allowWithinApprovedPlan, request.capability.id)
                               || Matches(session.permissions.requireApproval, request.capability.id))
                        then Allow else unapproved
  {
  }

  /** Once matched by the allow list, thereafter matched by the allow list or the deny list. */
  predicate Settled(p: Permissions, capability: Text) {
    Matches(p.allow, capability) || Matches(p.deny, capability)
  }

  lemma NarrowKeepsSettled(p: Permissions, removed: set<Text>, capability: Text)
    requires Settled(p, capability)
    ensures Settled(NarrowPermissions(p, removed), capability)
  {
  }

  lemma GrantKeepsSettled(session: Session, granted: Text, target: Option<Text>, environment: Option<Environment>, capability: Text)
    requires Settled(session.permissions, capability)
    ensures Settled(Grant(session, granted, target, environment).permissions, capability)
  {
  }
}
