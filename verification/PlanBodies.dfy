/** The hashed part of an agent plan, and what its hash pins down. */
module PlanBodies {
  import opened Optional
  import opened CanonicalJson
  import opened CanonicalForm
  import opened AgentPolicy
  import opened Redaction

  datatype Step = Step(id: Text, capability: Text, input: Json, risk: Text)

  datatype PlanBody = PlanBody(
    sessionId: Text, objective: Text, environment: Environment, target: Option<Text>, steps: seq<Step>,
    successCriteria: Json, estimatedEffects: Json, excludedEffects: Json, rollback: Json)

  function EnvironmentName(e: Environment): Text {
    match e
    case Development => Ascii("development")
    case Staging => Ascii("staging")
    case Production => Ascii("production")
  }

  function StepFields(step: Step): (ms: seq<Member>)
    ensures |ms| == 4
  {
    [ Member(Ascii("id"), Str(step.id)),
      Member(Ascii("capability"), Str(step.capability)),
      Member(Ascii("input"), step.input),
      Member(Ascii("risk"), Str(step.risk)) ]
  }

  function StepsJson(steps: seq<Step>): (items: seq<Json>)
    ensures |items| == |steps| && forall i :: 0 <= i < |steps| ==> items[i] == Obj(StepFields(steps[i]))
  {
    if steps == [] then [] else [Obj(StepFields(steps[0]))] + StepsJson(steps[1..])
  }

  function BodyFields(body: PlanBody): (ms: seq<Member>)
    ensures |ms| == 9
  {
    [ Member(Ascii("sessionId"), Str(body.sessionId)),
      Member(Ascii("objective"), Str(body.objective)),
      Member(Ascii("environment"), Str(EnvironmentName(body.environment))),
      Member(Ascii("target"), if body.target.Some? then Str(body.target.value) else Undefined),
      Member(Ascii("steps"), Arr(StepsJson(body.steps))),
      Member(Ascii("successCriteria"), body.successCriteria),
      Member(Ascii("estimatedEffects"), body.estimatedEffects),
      Member(Ascii("excludedEffects"), body.excludedEffects),
      Member(Ascii("rollback"), body.rollback) ]
  }

  function HashPlan(digest: Text -> Text, le: (Text, Text) -> bool, body: PlanBody): Text {
    Hash(digest, le, Obj(BodyFields(body)))
  }

  predicate WellFormedBody(body: PlanBody) {
    && (forall step :: step in body.steps ==> WellFormed(step.input))
    && WellFormed(body.successCriteria) && WellFormed(body.estimatedEffects)
    && WellFormed(body.excludedEffects) && WellFormed(body.rollback)
  }

  predicate SameStep(a: Step, b: Step) {
    a.id == b.id && a.capability == b.capability && a.risk == b.risk && Meaning(a.input) == Meaning(b.input)
  }

  predicate SameSteps(a: seq<Step>, b: seq<Step>) {
    |a| == |b| && forall i :: 0 <= i < |a| ==> SameStep(a[i], b[i])
  }

  /** Equal field by field; free-form JSON is compared by its meaning. */
  predicate SameBody(a: PlanBody, b: PlanBody) {
    && a.sessionId == b.sessionId && a.objective == b.objective && a.environment == b.environment && a.target == b.target
    && SameSteps(a.steps, b.steps)
    && Meaning(a.successCriteria) == Meaning(b.successCriteria)
    && Meaning(a.estimatedEffects) == Meaning(b.estimatedEffects)
    && Meaning(a.excludedEffects) == Meaning(b.excludedEffects)
    && Meaning(a.rollback) == Meaning(b.rollback)
  }

  /** A hash from which the body can be told, up to the meaning of its JSON. */
  ghost predicate Covers(hash: PlanBody -> Text) {
    forall a, b :: WellFormedBody(a) && WellFormedBody(b) && hash(a) == hash(b) ==> SameBody(a, b)
  }

  lemma BodyKeysDistinct(body: PlanBody)
    ensures DistinctKeys(BodyFields(body))
  {
    NamesDiffer("sessionId", "objective");
    NamesDiffer("successCriteria", "excludedEffects");
  }

  lemma StepWellFormed(step: Step)
    requires WellFormed(step.input)
    ensures WellFormed(Obj(StepFields(step)))
  {
  }

  lemma BodyWellFormed(body: PlanBody)
    requires WellFormedBody(body)
    ensures WellFormed(Obj(BodyFields(body)))
  {
    BodyKeysDistinct(body);
    var items := StepsJson(body.steps);
    forall item | item in items ensures WellFormed(item) {
      var i :| 0 <= i < |items| && items[i] == item;
      assert body.steps[i] in body.steps;
      StepWellFormed(body.steps[i]);
    }
    WellFormedArray(items);
    FieldsWellFormed(body);
  }

  lemma WellFormedArray(items: seq<Json>)
    requires forall item :: item in items ==> WellFormed(item)
    ensures WellFormed(Arr(items))
  {
  }

  lemma FieldsWellFormed(body: PlanBody)
    requires WellFormedBody(body) && WellFormed(Arr(StepsJson(body.steps)))
    ensures forall m :: m in BodyFields(body) ==> WellFormed(m.value)
  {
    var ms := BodyFields(body);
    forall m | m in ms ensures WellFormed(m.value) {
      var i :| 0 <= i < 9 && ms[i] == m;
      FieldValue(body, i);
      assert WellFormed(BodyValue(body, i));
    }
  }

  lemma StepDetermined(a: Step, b: Step)
    requires Meaning(Obj(StepFields(a))) == Meaning(Obj(StepFields(b)))
    ensures SameStep(a, b)
  {
    var x, y := StepFields(a), StepFields(b);
    RecordFields(x, y);
    assert SameField(x[0].value, y[0].value) && SameField(x[1].value, y[1].value);
    assert SameField(x[2].value, y[2].value) && SameField(x[3].value, y[3].value);
  }

  lemma {:induction false} StepsDetermined(a: seq<Step>, b: seq<Step>)
    requires ItemsMeaning(StepsJson(a)) == ItemsMeaning(StepsJson(b))
    ensures SameSteps(a, b)
  {
    var x, y := StepsJson(a), StepsJson(b);
    if a != [] {
      assert |ItemsMeaning(x)| == |ItemsMeaning(y)|;
      assert ItemsMeaning(x)[0] == Meaning(x[0]) && ItemsMeaning(y)[0] == Meaning(y[0]);
      StepDetermined(a[0], b[0]);
      assert ItemsMeaning(x)[1..] == ItemsMeaning(x[1..]) && ItemsMeaning(y)[1..] == ItemsMeaning(y[1..]);
      assert x[1..] == StepsJson(a[1..]) && y[1..] == StepsJson(b[1..]);
      StepsDetermined(a[1..], b[1..]);
      forall i | 0 <= i < |a| ensures SameStep(a[i], b[i]) {
        if i > 0 { assert SameStep(a[1..][i - 1], b[1..][i - 1]); }
      }
    }
  }

  lemma EnvironmentNamed(a: Environment, b: Environment)
    requires EnvironmentName(a) == EnvironmentName(b)
    ensures a == b
  {
    assert |EnvironmentName(Development)| == 11 && |EnvironmentName(Staging)| == 7 && |EnvironmentName(Production)| == 10;
  }

  lemma BodyDetermined(a: PlanBody, x: seq<Member>, b: PlanBody, y: seq<Member>)
    requires x == BodyFields(a) && y == BodyFields(b)
    requires forall i :: 0 <= i < |x| ==> SameField(x[i].value, y[i].value)
    ensures SameBody(a, b)
  {
    assert SameField(x[0].value, y[0].value);
    assert SameField(x[1].value, y[1].value);
    assert SameField(x[2].value, y[2].value);
    EnvironmentNamed(a.environment, b.environment);
    assert SameField(x[3].value, y[3].value);
    assert SameField(x[4].value, y[4].value);
    StepsDetermined(a.steps, b.steps);
    assert SameField(x[5].value, y[5].value);
    assert SameField(x[6].value, y[6].value);
    assert SameField(x[7].value, y[7].value);
    assert SameField(x[8].value, y[8].value);
  }

  lemma BodyMeaningDetermines(a: PlanBody, b: PlanBody)
    requires Meaning(Obj(BodyFields(a))) == Meaning(Obj(BodyFields(b)))
    ensures SameBody(a, b)
  {
    BodyKeysDistinct(a);
    SameBodyKeys(BodyFields(a), a, BodyFields(b), b);
    RecordFields(BodyFields(a), BodyFields(b));
    BodyDetermined(a, BodyFields(a), b, BodyFields(b));
  }

  lemma SameBodyKeys(x: seq<Member>, a: PlanBody, y: seq<Member>, b: PlanBody)
    requires x == BodyFields(a) && y == BodyFields(b)
    ensures forall i :: 0 <= i < |x| ==> x[i].key == y[i].key
  {
  }

  lemma BodyHashDetermines(digest: Text -> Text, le: (Text, Text) -> bool, a: PlanBody, b: PlanBody)
    requires Injective(digest)
    requires WellFormedBody(a) && WellFormedBody(b)
    requires HashPlan(digest, le, a) == HashPlan(digest, le, b)
    ensures SameBody(a, b)
  {
    BodyWellFormed(a);
    BodyWellFormed(b);
    HashDeterminesValue(digest, le, Obj(BodyFields(a)), Obj(BodyFields(b)));
    BodyMeaningDetermines(a, b);
  }

  /** An injective digest of the canonical text covers the plan body. */
  lemma HashPlanCovers(digest: Text -> Text, le: (Text, Text) -> bool)
    requires Injective(digest)
    ensures Covers(body => HashPlan(digest, le, body))
  {
    forall a, b | WellFormedBody(a) && WellFormedBody(b) && HashPlan(digest, le, a) == HashPlan(digest, le, b)
      ensures SameBody(a, b)
    {
      BodyHashDetermines(digest, le, a, b);
    }
  }

  /******* What the store keeps of a plan *******/

  function RecordedStep(scrubber: Scrubber, step: Step): Step {
    Step(scrubber.scrub(step.id), scrubber.scrub(step.capability), Redact(scrubber, step.input), scrubber.scrub(step.risk))
  }

  function RecordedSteps(scrubber: Scrubber, steps: seq<Step>): (r: seq<Step>)
    ensures |r| == |steps| && forall i :: 0 <= i < |steps| ==> r[i] == RecordedStep(scrubber, steps[i])
  {
    if steps == [] then [] else [RecordedStep(scrubber, steps[0])] + RecordedSteps(scrubber, steps[1..])
  }

  /** The body as it is written: every string of it redacted. */
  function RecordedBody(scrubber: Scrubber, body: PlanBody): PlanBody {
    PlanBody(
      scrubber.scrub(body.sessionId), scrubber.scrub(body.objective), body.environment,
      if body.target.Some? then Some(scrubber.scrub(body.target.value)) else None,
      RecordedSteps(scrubber, body.steps),
      Redact(scrubber, body.successCriteria), Redact(scrubber, body.estimatedEffects),
      Redact(scrubber, body.excludedEffects), Redact(scrubber, body.rollback))
  }

  const BODY_NAMES := ["sessionId", "objective", "environment", "target", "steps", "successCriteria", "estimatedEffects", "excludedEffects", "rollback"]
  const STEP_NAMES := ["id", "capability", "input", "risk"]

  /** None of the plan's own field names reads like a secret, and no environment's name is scrubbed. */
  ghost predicate PlainNames(scrubber: Scrubber) {
    && (forall name :: name in BODY_NAMES || name in STEP_NAMES ==> !scrubber.sensitive(Ascii(name)))
    && (forall e :: scrubber.scrub(EnvironmentName(e)) == EnvironmentName(e))
  }

  predicate NoSecretFields(scrubber: Scrubber, body: PlanBody) {
    && (forall step :: step in body.steps ==> !ContainsSecretLikeField(scrubber, step.input))
    && !ContainsSecretLikeField(scrubber, body.successCriteria) && !ContainsSecretLikeField(scrubber, body.estimatedEffects)
    && !ContainsSecretLikeField(scrubber, body.excludedEffects) && !ContainsSecretLikeField(scrubber, body.rollback)
  }

  lemma NamedStepFields(step: Step, i: nat)
    requires i < 4
    ensures StepFields(step)[i].key == Ascii(STEP_NAMES[i]) && STEP_NAMES[i] in STEP_NAMES
  {
  }

  lemma RecordedStepFields(scrubber: Scrubber, step: Step)
    requires PlainNames(scrubber)
    ensures StepFields(RecordedStep(scrubber, step)) == RedactMembers(scrubber, StepFields(step))
  {
    var ms, after := StepFields(step), StepFields(RecordedStep(scrubber, step));
    forall i | 0 <= i < 4 ensures after[i] == RedactMembers(scrubber, ms)[i] {
      NamedStepFields(step, i);
      RedactedMember(scrubber, ms, i);
      assert after[i] == Member(ms[i].key, Redact(scrubber, ms[i].value));
    }
  }

  lemma RecordedItem(scrubber: Scrubber, steps: seq<Step>, i: nat)
    requires PlainNames(scrubber) && i < |steps|
    ensures StepsJson(RecordedSteps(scrubber, steps))[i] == RedactItems(scrubber, StepsJson(steps))[i]
  {
    RedactedItem(scrubber, StepsJson(steps), i);
    RecordedStepFields(scrubber, steps[i]);
  }

  lemma RecordedStepsJson(scrubber: Scrubber, steps: seq<Step>)
    requires PlainNames(scrubber)
    ensures StepsJson(RecordedSteps(scrubber, steps)) == RedactItems(scrubber, StepsJson(steps))
  {
    forall i | 0 <= i < |steps| ensures StepsJson(RecordedSteps(scrubber, steps))[i] == RedactItems(scrubber, StepsJson(steps))[i] {
      RecordedItem(scrubber, steps, i);
    }
  }

  function BodyValue(body: PlanBody, i: nat): Json
    requires i < 9
  {
    if i == 0 then Str(body.sessionId)
    else if i == 1 then Str(body.objective)
    else if i == 2 then Str(EnvironmentName(body.environment))
    else if i == 3 then if body.target.Some? then Str(body.target.value) else Undefined
    else if i == 4 then Arr(StepsJson(body.steps))
    else if i == 5 then body.successCriteria
    else if i == 6 then body.estimatedEffects
    else if i == 7 then body.excludedEffects
    else body.rollback
  }

  lemma FieldValue(body: PlanBody, i: nat)
    requires i < 9
    ensures BodyFields(body)[i] == Member(Ascii(BODY_NAMES[i]), BodyValue(body, i))
  {
  }

  lemma RecordedValue(scrubber: Scrubber, body: PlanBody, i: nat)
    requires PlainNames(scrubber) && i < 9
    ensures BodyValue(RecordedBody(scrubber, body), i) == Redact(scrubber, BodyValue(body, i))
  {
    if i == 4 { RecordedStepsJson(scrubber, body.steps); }
  }

  lemma RecordedField(scrubber: Scrubber, body: PlanBody, i: nat)
    requires PlainNames(scrubber) && i < 9
    ensures BodyFields(RecordedBody(scrubber, body))[i] == RedactMembers(scrubber, BodyFields(body))[i]
  {
    FieldValue(body, i);
    FieldValue(RecordedBody(scrubber, body), i);
    RecordedValue(scrubber, body, i);
    assert BODY_NAMES[i] in BODY_NAMES;
    RedactedMember(scrubber, BodyFields(body), i);
  }

  /** What the store keeps of a body is what the redactor makes of its record. */
  lemma RecordedFields(scrubber: Scrubber, body: PlanBody)
    requires PlainNames(scrubber)
    ensures BodyFields(RecordedBody(scrubber, body)) == RedactMembers(scrubber, BodyFields(body))
  {
    var before, after := RedactMembers(scrubber, BodyFields(body)), BodyFields(RecordedBody(scrubber, body));
    forall i | 0 <= i < 9 ensures after[i] == before[i] { RecordedField(scrubber, body, i); }
  }

  lemma RecordedWellFormed(scrubber: Scrubber, body: PlanBody)
    requires WellFormedBody(body)
    ensures WellFormedBody(RecordedBody(scrubber, body))
  {
    RedactWellFormed(scrubber, body.successCriteria);
    RedactWellFormed(scrubber, body.estimatedEffects);
    RedactWellFormed(scrubber, body.excludedEffects);
    RedactWellFormed(scrubber, body.rollback);
    var steps := RecordedSteps(scrubber, body.steps);
    forall step | step in steps ensures WellFormed(step.input) {
      var i :| 0 <= i < |steps| && steps[i] == step;
      assert body.steps[i] in body.steps;
      RedactWellFormed(scrubber, body.steps[i].input);
    }
  }

  lemma NoSecretStep(scrubber: Scrubber, step: Step)
    requires PlainNames(scrubber) && !ContainsSecretLikeField(scrubber, step.input)
    ensures !ContainsSecretLikeField(scrubber, Obj(StepFields(step)))
  {
    var ms := StepFields(step);
    forall i | 0 <= i < 4 ensures !scrubber.sensitive(ms[i].key) && !ContainsSecretLikeField(scrubber, ms[i].value) {
      NamedStepFields(step, i);
    }
  }

  lemma NoSecretSteps(scrubber: Scrubber, steps: seq<Step>)
    requires PlainNames(scrubber) && forall step :: step in steps ==> !ContainsSecretLikeField(scrubber, step.input)
    ensures !ContainsSecretLikeField(scrubber, Arr(StepsJson(steps)))
  {
    var items := StepsJson(steps);
    forall i | 0 <= i < |items| ensures !ContainsSecretLikeField(scrubber, items[i]) {
      assert steps[i] in steps;
      NoSecretStep(scrubber, steps[i]);
    }
  }

  lemma NoSecretBody(scrubber: Scrubber, body: PlanBody)
    requires PlainNames(scrubber) && NoSecretFields(scrubber, body)
    ensures !ContainsSecretLikeField(scrubber, Obj(BodyFields(body)))
  {
    NoSecretSteps(scrubber, body.steps);
    var ms := BodyFields(body);
    forall i | 0 <= i < 9 ensures !scrubber.sensitive(ms[i].key) && !ContainsSecretLikeField(scrubber, ms[i].value) {
      FieldValue(body, i);
      assert BODY_NAMES[i] in BODY_NAMES;
    }
  }

  /** The stored plan still matches its hash exactly when the redactor flagged nothing in its body. */
  lemma RecordedPlanKeepsHash(digest: Text -> Text, le: (Text, Text) -> bool, scrubber: Scrubber, body: PlanBody)
    requires Injective(digest) && PlainNames(scrubber)
    requires WellFormedBody(body) && NoSecretFields(scrubber, body)
    ensures HashPlan(digest, le, RecordedBody(scrubber, body)) == HashPlan(digest, le, body)
            <==> !Applied(scrubber, Obj(BodyFields(body)))
  {
    RecordedFields(scrubber, body);
    BodyWellFormed(body);
    NoSecretBody(scrubber, body);
    StoredRecordKeepsHash(digest, le, scrubber, Obj(BodyFields(body)));
  }
}
