/** The hash-chained audit log and its newest-first pages. */
module AuditLog {
  import opened Optional
  import opened CanonicalJson
  import opened CanonicalForm
  import opened Redaction

  datatype NewEvent = NewEvent(
    eventId: Text, timestamp: Text, sessionId: Option<Text>, actor: Text, operationId: Option<Text>,
    eventType: Text, capability: Option<Text>, target: Option<Text>, summary: Text, detail: Json)

  datatype Event = Event(body: NewEvent, previousHash: Option<Text>, redactionsApplied: bool, hash: Text)

  /** One table row: its own counter beside the stored record. */
  datatype Row = Row(sequence: int, event: Event)

  /** What the chain depends on: the hash of an event's body and of the link behind it, and the
      redactor. `Sha256Config` below is the program's own. */
  datatype Config = Config(hash: (NewEvent, Option<Text>) -> Text, scrubber: Scrubber)

  /******* Hashing one event *******/

  function OptionalText(t: Option<Text>): Json {
    match t
    case None => Undefined
    case Some(s) => Str(s)
  }

  /** The hashed part of an event: everything but its own hash and the redaction flag. */
  function Payload(body: NewEvent, previousHash: Option<Text>): (ms: seq<Member>)
    ensures |ms| == 11
  {
    [ Member(Ascii("eventId"), Str(body.eventId)),
      Member(Ascii("timestamp"), Str(body.timestamp)),
      Member(Ascii("sessionId"), OptionalText(body.sessionId)),
      Member(Ascii("actor"), Str(body.actor)),
      Member(Ascii("operationId"), OptionalText(body.operationId)),
      Member(Ascii("eventType"), Str(body.eventType)),
      Member(Ascii("capability"), OptionalText(body.capability)),
      Member(Ascii("target"), OptionalText(body.target)),
      Member(Ascii("summary"), Str(body.summary)),
      Member(Ascii("detail"), body.detail),
      Member(Ascii("previousHash"), OptionalText(previousHash)) ]
  }

  function EventHash(digest: Text -> Text, le: (Text, Text) -> bool, body: NewEvent, previousHash: Option<Text>): Text {
    Hash(digest, le, Obj(Payload(body, previousHash)))
  }

  /** The digest of the canonical text of the payload. */
  function Sha256Config(digest: Text -> Text, le: (Text, Text) -> bool, scrubber: Scrubber): Config {
    Config((body, previousHash) => EventHash(digest, le, body, previousHash), scrubber)
  }

  lemma PayloadKeysDistinct(body: NewEvent, previousHash: Option<Text>)
    ensures DistinctKeys(Payload(body, previousHash))
  {
    NamesDiffer("timestamp", "sessionId");
    NamesDiffer("timestamp", "eventType");
    NamesDiffer("sessionId", "eventType");
    NamesDiffer("eventId", "summary");
    NamesDiffer("target", "detail");
    NamesDiffer("operationId", "capability");
  }

  predicate Storable(body: NewEvent) {
    WellFormed(body.detail)
  }

  lemma PayloadWellFormed(body: NewEvent, previousHash: Option<Text>)
    requires Storable(body)
    ensures WellFormed(Obj(Payload(body, previousHash)))
  {
    PayloadKeysDistinct(body, previousHash);
    PayloadFieldsWellFormed(body, previousHash);
    RecordWellFormed(Payload(body, previousHash));
  }

  lemma PayloadFieldsWellFormed(body: NewEvent, previousHash: Option<Text>)
    requires Storable(body)
    ensures forall m :: m in Payload(body, previousHash) ==> WellFormed(m.value)
  {
  }

  lemma RecordWellFormed(ms: seq<Member>)
    requires DistinctKeys(ms) && forall m :: m in ms ==> WellFormed(m.value)
    ensures WellFormed(Obj(ms))
  {
  }

  /** Two events agree on everything the hash covers. */
  predicate SameHashed(a: NewEvent, ap: Option<Text>, b: NewEvent, bp: Option<Text>) {
    && ap == bp
    && a.(detail := Null) == b.(detail := Null)
    && SameField(a.detail, b.detail)
  }

  lemma PayloadDeterminesEvent(a: NewEvent, ap: Option<Text>, b: NewEvent, bp: Option<Text>)
    requires Meaning(Obj(Payload(a, ap))) == Meaning(Obj(Payload(b, bp)))
    ensures SameHashed(a, ap, b, bp)
  {
    PayloadKeysDistinct(a, ap);
    RecordFields(Payload(a, ap), Payload(b, bp));
    PayloadFields(Payload(a, ap), a, ap, Payload(b, bp), b, bp);
  }

  lemma SameText(a: Json, b: Json, s: Text, t: Text)
    requires a == Str(s) && b == Str(t) && SameField(a, b)
    ensures s == t
  {
  }

  lemma SameOptional(a: Json, b: Json, s: Option<Text>, t: Option<Text>)
    requires a == OptionalText(s) && b == OptionalText(t) && SameField(a, b)
    ensures s == t
  {
  }

  lemma FirstFields(x: seq<Member>, a: NewEvent, ap: Option<Text>, y: seq<Member>, b: NewEvent, bp: Option<Text>)
    requires x == Payload(a, ap) && y == Payload(b, bp)
    requires forall i :: 0 <= i < |x| ==> SameField(x[i].value, y[i].value)
    ensures a.eventId == b.eventId && a.timestamp == b.timestamp && a.sessionId == b.sessionId
    ensures a.actor == b.actor && a.operationId == b.operationId
  {
    SameText(x[0].value, y[0].value, a.eventId, b.eventId);
    SameText(x[1].value, y[1].value, a.timestamp, b.timestamp);
    SameOptional(x[2].value, y[2].value, a.sessionId, b.sessionId);
    SameText(x[3].value, y[3].value, a.actor, b.actor);
    SameOptional(x[4].value, y[4].value, a.operationId, b.operationId);
  }

  lemma LastFields(x: seq<Member>, a: NewEvent, ap: Option<Text>, y: seq<Member>, b: NewEvent, bp: Option<Text>)
    requires x == Payload(a, ap) && y == Payload(b, bp)
    requires forall i :: 0 <= i < |x| ==> SameField(x[i].value, y[i].value)
    ensures a.eventType == b.eventType && a.capability == b.capability && a.target == b.target
    ensures a.summary == b.summary && SameField(a.detail, b.detail) && ap == bp
  {
    SameText(x[5].value, y[5].value, a.eventType, b.eventType);
    SameOptional(x[6].value, y[6].value, a.capability, b.capability);
    SameOptional(x[7].value, y[7].value, a.target, b.target);
    SameText(x[8].value, y[8].value, a.summary, b.summary);
    assert SameField(x[9].value, y[9].value);
    SameOptional(x[10].value, y[10].value, ap, bp);
  }

  lemma PayloadFields(x: seq<Member>, a: NewEvent, ap: Option<Text>, y: seq<Member>, b: NewEvent, bp: Option<Text>)
    requires x == Payload(a, ap) && y == Payload(b, bp)
    requires forall i :: 0 <= i < |x| ==> SameField(x[i].value, y[i].value)
    ensures SameHashed(a, ap, b, bp)
  {
    FirstFields(x, a, ap, y, b, bp);
    LastFields(x, a, ap, y, b, bp);
  }

  /** The hash covers every field of the payload. */
  ghost predicate Covers(config: Config) {
    forall a, ap, b, bp :: Storable(a) && Storable(b) && config.hash(a, ap) == config.hash(b, bp) ==> SameHashed(a, ap, b, bp)
  }

  lemma EventHashDetermines(digest: Text -> Text, le: (Text, Text) -> bool, a: NewEvent, ap: Option<Text>, b: NewEvent, bp: Option<Text>)
    requires Injective(digest)
    requires Storable(a) && Storable(b)
    requires EventHash(digest, le, a, ap) == EventHash(digest, le, b, bp)
    ensures SameHashed(a, ap, b, bp)
  {
    PayloadWellFormed(a, ap);
    PayloadWellFormed(b, bp);
    HashDeterminesValue(digest, le, Obj(Payload(a, ap)), Obj(Payload(b, bp)));
    PayloadDeterminesEvent(a, ap, b, bp);
  }

  /** An injective digest of the canonical text covers the payload. */
  lemma Sha256Covers(digest: Text -> Text, le: (Text, Text) -> bool, scrubber: Scrubber)
    requires Injective(digest)
    ensures Covers(Sha256Config(digest, le, scrubber))
  {
    forall a, ap, b, bp | Storable(a) && Storable(b) && EventHash(digest, le, a, ap) == EventHash(digest, le, b, bp)
      ensures SameHashed(a, ap, b, bp)
    {
      EventHashDetermines(digest, le, a, ap, b, bp);
    }
  }

  /******* Appending *******/

  function ScrubOptional(scrubber: Scrubber, t: Option<Text>): Option<Text> {
    match t
    case None => None
    case Some(s) => Some(scrubber.scrub(s))
  }

  /** What reaches the disk: the whole record goes through the redactor once more. None of the
      record's own field names is sensitive. */
  function Recorded(scrubber: Scrubber, e: Event): Event {
    Event(RecordedBody(scrubber, e.body), ScrubOptional(scrubber, e.previousHash), e.redactionsApplied, scrubber.scrub(e.hash))
  }

  function RecordedBody(scrubber: Scrubber, body: NewEvent): NewEvent {
    NewEvent(
      scrubber.scrub(body.eventId), scrubber.scrub(body.timestamp), ScrubOptional(scrubber, body.sessionId),
      scrubber.scrub(body.actor), ScrubOptional(scrubber, body.operationId), scrubber.scrub(body.eventType),
      ScrubOptional(scrubber, body.capability), ScrubOptional(scrubber, body.target),
      scrubber.scrub(body.summary), Redact(scrubber, body.detail))
  }

  function LastHash(rows: seq<Row>): Option<Text> {
    if rows == [] then None else Some(rows[|rows| - 1].event.hash)
  }

  /** The event as it is hashed: only its detail has been redacted. */
  function Chained(config: Config, e: NewEvent, previousHash: Option<Text>): Event {
    var body := e.(detail := Redact(config.scrubber, e.detail));
    Event(body, previousHash, Applied(config.scrubber, e.detail), config.hash(body, previousHash))
  }

  function Append(config: Config, rows: seq<Row>, e: NewEvent): seq<Row> {
    var sequence := if rows == [] then 1 else rows[|rows| - 1].sequence + 1;
    rows + [Row(sequence, Recorded(config.scrubber, Chained(config, e, LastHash(rows))))]
  }

  function AppendAll(config: Config, rows: seq<Row>, es: seq<NewEvent>): seq<Row> {
    if es == [] then rows else Append(config, AppendAll(config, rows, es[..|es| - 1]), es[|es| - 1])
  }

  /******* Verifying *******/

  /** Row `i` carries the hash of its own payload and points at the row before it. */
  predicate Linked(config: Config, rows: seq<Row>, i: nat)
    requires i < |rows|
  {
    var e := rows[i].event;
    && e.previousHash == LastHash(rows[..i])
    && e.hash == config.hash(e.body, e.previousHash)
  }

  ghost predicate Verifies(config: Config, rows: seq<Row>) {
    forall i :: 0 <= i < |rows| ==> Linked(config, rows, i)
  }

  ghost predicate FirstBroken(config: Config, rows: seq<Row>, i: nat) {
    i < |rows| && !Linked(config, rows, i) && forall j :: 0 <= j < i ==> Linked(config, rows, j)
  }

  datatype Verification = Verification(valid: bool, events: nat, brokenAt: Option<Text>)

  /******* Pages *******/

  /** An empty session id selects nothing: it is the same as no filter. */
  predicate Selected(sessionId: Option<Text>, row: Row) {
    sessionId.Some? && sessionId.value != [] ==> row.event.body.sessionId == sessionId
  }

  predicate Before(before: Option<int>, row: Row) {
    before.Some? ==> row.sequence < before.value
  }

  /** The rows of one session below the cursor, newest first. */
  function NewestFirst(rows: seq<Row>, sessionId: Option<Text>, before: Option<int>): (r: seq<Row>)
    ensures |r| <= |rows|
    ensures forall row :: row in r <==> row in rows && Selected(sessionId, row) && Before(before, row)
  {
    if rows == [] then []
    else
      var last := rows[|rows| - 1];
      (if Selected(sessionId, last) && Before(before, last) then [last] else []) + NewestFirst(rows[..|rows| - 1], sessionId, before)
  }

  function Bounded(limit: Option<int>): (n: nat)
    ensures 1 <= n <= 200
  {
    var asked := if limit.Some? then limit.value else 30;
    var capped := if asked < 200 then asked else 200;
    if capped > 1 then capped else 1
  }

  datatype Page = Page(events: seq<Row>, nextCursor: Option<int>)

  function PageOf(rows: seq<Row>, sessionId: Option<Text>, before: Option<int>, limit: Option<int>): Page {
    var matching := NewestFirst(rows, sessionId, before);
    var n := Bounded(limit);
    if |matching| > n then Page(matching[..n], Some(matching[n - 1].sequence)) else Page(matching, None)
  }

  class AgentStore {
    const config: Config
    var rows: seq<Row>

    constructor (config: Config)
      ensures this.config == config && rows == []
    {
      this.config := config;
      rows := [];
    }

    method AppendEvent(e: NewEvent) returns (stored: Event)
      modifies this`rows
      ensures rows == Append(config, old(rows), e)
      ensures stored == Chained(config, e, LastHash(old(rows)))
    {
      var previousHash := LastHash(rows);
      var body := e.(detail := Redact(config.scrubber, e.detail));
      var hash := config.hash(body, previousHash);
      stored := Event(body, previousHash, Applied(config.scrubber, e.detail), hash);
      var sequence := if rows == [] then 1 else rows[|rows| - 1].sequence + 1;
      rows := rows + [Row(sequence, Recorded(config.scrubber, stored))];
    }

    method VerifyEventChain() returns (r: Verification)
      ensures r.events == |rows|
      ensures r.valid <==> Verifies(config, rows)
      ensures r.valid ==> r.brokenAt.None?
      ensures !r.valid ==> exists i: nat :: FirstBroken(config, rows, i) && r.brokenAt == Some(rows[i].event.body.eventId)
    {
      var previousHash: Option<Text> := None;
      var i := 0;
      while i < |rows|
        invariant 0 <= i <= |rows|
        invariant previousHash == LastHash(rows[..i])
        invariant forall j :: 0 <= j < i ==> Linked(config, rows, j)
      {
        var e := rows[i].event;
        if e.previousHash != previousHash || e.hash != config.hash(e.body, e.previousHash) {
          assert FirstBroken(config, rows, i);
          return Verification(false, |rows|, Some(e.body.eventId));
        }
        previousHash := Some(e.hash);
        assert rows[..i + 1][i] == rows[i];
        i := i + 1;
      }
      r := Verification(true, |rows|, None);
    }

    method ListEventPage(sessionId: Option<Text>, before: Option<int>, limit: Option<int>) returns (page: Page)
      ensures page == PageOf(rows, sessionId, before, limit)
    {
      var bounded := Bounded(limit);
      var matching := NewestFirst(rows, sessionId, before);
      var fetched := if |matching| > bounded + 1 then matching[..bounded + 1] else matching;
      var events := if |fetched| > bounded then fetched[..bounded] else fetched;
      page := Page(events, if |fetched| > bounded then Some(events[|events| - 1].sequence) else None);
    }
  }

  /******* Appended logs verify *******/

  /** The digest's output never looks like a secret. */
  ghost predicate PlainHashes(config: Config) {
    forall a, ap :: config.scrubber.scrub(config.hash(a, ap)) == config.hash(a, ap)
  }

  ghost predicate Sound(config: Config) {
    Covers(config) && Idempotent(config.scrubber) && PlainHashes(config)
  }

  predicate PlainOptional(scrubber: Scrubber, t: Option<Text>) {
    t.Some? ==> scrubber.scrub(t.value) == t.value
  }

  /** Nothing outside the detail looks like a secret. */
  predicate Plain(scrubber: Scrubber, e: NewEvent) {
    && scrubber.scrub(e.eventId) == e.eventId
    && scrubber.scrub(e.timestamp) == e.timestamp
    && PlainOptional(scrubber, e.sessionId)
    && scrubber.scrub(e.actor) == e.actor
    && PlainOptional(scrubber, e.operationId)
    && scrubber.scrub(e.eventType) == e.eventType
    && PlainOptional(scrubber, e.capability)
    && PlainOptional(scrubber, e.target)
    && scrubber.scrub(e.summary) == e.summary
  }

  lemma RecordedBodyPlain(scrubber: Scrubber, e: NewEvent)
    requires Idempotent(scrubber) && Storable(e)
    ensures var hashed := e.(detail := Redact(scrubber, e.detail));
            var stored := RecordedBody(scrubber, hashed);
            && Storable(hashed) && Storable(stored)
            && (Plain(scrubber, e) <==> stored == hashed)
            && (Plain(scrubber, e) <==> stored.(detail := Null) == hashed.(detail := Null))
  {
    RedactIdempotent(scrubber, e.detail);
    RedactWellFormed(scrubber, e.detail);
  }

  /** Row `i` of the log built from `es` is event `i`, chained to the row before it. */
  ghost predicate RowOf(config: Config, rows: seq<Row>, es: seq<NewEvent>, i: nat)
    requires i < |rows| == |es|
  {
    && rows[i].sequence == i + 1
    && PlainOptional(config.scrubber, LastHash(rows[..i]))
    && rows[i].event == Recorded(config.scrubber, Chained(config, es[i], LastHash(rows[..i])))
  }

  lemma {:induction false} AppendedRows(config: Config, es: seq<NewEvent>)
    requires Sound(config)
    ensures |AppendAll(config, [], es)| == |es|
    ensures PlainOptional(config.scrubber, LastHash(AppendAll(config, [], es)))
    ensures forall i :: 0 <= i < |es| ==> RowOf(config, AppendAll(config, [], es), es, i)
  {
    if es != [] {
      var n := |es| - 1;
      AppendedRows(config, es[..n]);
      var prior, rows := AppendAll(config, [], es[..n]), AppendAll(config, [], es);
      assert rows[..n] == prior && (n > 0 ==> prior[n - 1].sequence == n) by {
        if n > 0 { assert RowOf(config, prior, es[..n], n - 1); }
      }
      forall i | 0 <= i < |es| ensures RowOf(config, rows, es, i) {
        if i < n {
          assert RowOf(config, prior, es[..n], i);
          assert rows[..i] == prior[..i] && rows[i] == prior[i];
        }
      }
    }
  }

  lemma AppendedLinked(config: Config, es: seq<NewEvent>, i: nat)
    requires Sound(config) && i < |es|
    requires Storable(es[i])
    ensures |AppendAll(config, [], es)| == |es|
    ensures Linked(config, AppendAll(config, [], es), i) <==> Plain(config.scrubber, es[i])
  {
    AppendedRows(config, es);
    var rows := AppendAll(config, [], es);
    assert RowOf(config, rows, es, i);
    RecordedLinked(config, es[i], LastHash(rows[..i]));
  }

  /** A recorded event still matches its own hash exactly when it was plain. */
  lemma RecordedLinked(config: Config, e: NewEvent, previousHash: Option<Text>)
    requires Sound(config) && Storable(e) && PlainOptional(config.scrubber, previousHash)
    ensures var r := Recorded(config.scrubber, Chained(config, e, previousHash));
            && r.previousHash == previousHash
            && (r.hash == config.hash(r.body, r.previousHash) <==> Plain(config.scrubber, e))
  {
    var c := Chained(config, e, previousHash);
    var r := Recorded(config.scrubber, c);
    RecordedBodyPlain(config.scrubber, e);
    assert r.hash == config.hash(c.body, previousHash);
    if r.hash == config.hash(r.body, r.previousHash) {
      assert SameHashed(c.body, previousHash, r.body, previousHash);
    }
  }

  /** A log built by appends verifies exactly when no event carried secret-shaped text outside its
      detail. */
  lemma AppendedLogVerifies(config: Config, es: seq<NewEvent>)
    requires Sound(config)
    requires forall e :: e in es ==> Storable(e)
    ensures Verifies(config, AppendAll(config, [], es)) <==> forall e :: e in es ==> Plain(config.scrubber, e)
  {
    AppendedRows(config, es);
    var rows := AppendAll(config, [], es);
    forall i | 0 <= i < |es| ensures Linked(config, rows, i) <==> Plain(config.scrubber, es[i]) {
      AppendedLinked(config, es, i);
    }
    if Verifies(config, rows) {
      forall e | e in es ensures Plain(config.scrubber, e) {
        var i :| 0 <= i < |es| && es[i] == e;
        assert Linked(config, rows, i);
      }
    }
  }

  /** The chain breaks at the first such event, so that is the one verification names. */
  lemma {:induction false} AppendedLogBreaksAt(config: Config, es: seq<NewEvent>, i: nat)
    requires Sound(config) && i < |es|
    requires forall e :: e in es ==> Storable(e)
    ensures FirstBroken(config, AppendAll(config, [], es), i) <==>
              !Plain(config.scrubber, es[i]) && forall j :: 0 <= j < i ==> Plain(config.scrubber, es[j])
  {
    AppendedRows(config, es);
    var rows := AppendAll(config, [], es);
    forall j | 0 <= j < |es| ensures Linked(config, rows, j) <==> Plain(config.scrubber, es[j]) {
      AppendedLinked(config, es, j);
    }
  }

  /******* Tamper evidence *******/

  ghost predicate StorableRows(rows: seq<Row>) {
    forall i :: 0 <= i < |rows| ==> Storable(rows[i].event.body)
  }

  lemma PrefixVerifies(config: Config, rows: seq<Row>, n: nat)
    requires Verifies(config, rows) && n <= |rows|
    ensures Verifies(config, rows[..n])
  {
    forall i | 0 <= i < n ensures Linked(config, rows[..n], i) {
      assert Linked(config, rows, i);
      assert rows[..n][..i] == rows[..i];
    }
  }

  /** Two logs that verify and end in the same hash have the same length and agree on every hashed
      field of every event. */
  lemma {:induction false} TamperEvident(config: Config, a: seq<Row>, b: seq<Row>)
    requires Covers(config)
    requires StorableRows(a) && StorableRows(b)
    requires Verifies(config, a) && Verifies(config, b)
    requires LastHash(a) == LastHash(b)
    ensures |a| == |b|
    ensures forall i :: 0 <= i < |a| ==>
      && a[i].event.hash == b[i].event.hash
      && SameHashed(a[i].event.body, a[i].event.previousHash, b[i].event.body, b[i].event.previousHash)
    decreases |a|
  {
    if a != [] {
      var m, n := |a| - 1, |b| - 1;
      assert Linked(config, a, m) && Linked(config, b, n);
      var x, y := a[m].event, b[n].event;
      assert Storable(x.body) && Storable(y.body);
      assert SameHashed(x.body, x.previousHash, y.body, y.previousHash);
      PrefixVerifies(config, a, m);
      PrefixVerifies(config, b, n);
      TamperEvident(config, a[..m], b[..n]);
      forall i | 0 <= i < |a|
        ensures a[i].event.hash == b[i].event.hash
        ensures SameHashed(a[i].event.body, a[i].event.previousHash, b[i].event.body, b[i].event.previousHash)
      {
        if i < m { assert a[..m][i] == a[i] && b[..n][i] == b[i]; }
      }
    }
  }

  /******* Cursor paging *******/

  ghost predicate Ascending(rows: seq<Row>) {
    forall i, j :: 0 <= i < j < |rows| ==> rows[i].sequence < rows[j].sequence
  }

  /** `later` is `rows` with any number of events appended. */
  ghost predicate Extends(rows: seq<Row>, later: seq<Row>) {
    rows <= later && Ascending(later)
  }

  lemma AppendExtends(config: Config, rows: seq<Row>, e: NewEvent)
    requires Ascending(rows)
    ensures Extends(rows, Append(config, rows, e))
  {
  }

  lemma {:induction false} AppendsExtend(config: Config, rows: seq<Row>, es: seq<NewEvent>)
    requires Ascending(rows)
    ensures Extends(rows, AppendAll(config, rows, es))
  {
    if es != [] {
      AppendsExtend(config, rows, es[..|es| - 1]);
      AppendExtends(config, AppendAll(config, rows, es[..|es| - 1]), es[|es| - 1]);
    }
  }

  /** Rows appended after the cursor was taken are above it, so they never enter a later page. */
  lemma {:induction false} CursorHidesAppends(rows: seq<Row>, later: seq<Row>, sessionId: Option<Text>, cursor: int)
    requires Extends(rows, later)
    requires exists row :: row in rows && cursor <= row.sequence
    ensures NewestFirst(later, sessionId, Some(cursor)) == NewestFirst(rows, sessionId, Some(cursor))
    decreases |later|
  {
    if later == rows {
    } else {
      var shorter := later[..|later| - 1];
      assert rows <= shorter;
      CursorHidesAppends(rows, shorter, sessionId, cursor);
      var row :| row in rows && cursor <= row.sequence;
      var k :| 0 <= k < |rows| && rows[k] == row;
      assert later[k] == row && later[k].sequence < later[|later| - 1].sequence;
    }
  }

  lemma {:induction false} NewestFirstDescends(rows: seq<Row>, sessionId: Option<Text>, before: Option<int>)
    requires Ascending(rows)
    ensures forall i, j :: 0 <= i < j < |NewestFirst(rows, sessionId, before)| ==>
      NewestFirst(rows, sessionId, before)[j].sequence < NewestFirst(rows, sessionId, before)[i].sequence
  {
    if rows != [] {
      var shorter := rows[..|rows| - 1];
      NewestFirstDescends(shorter, sessionId, before);
      var r, tail := NewestFirst(rows, sessionId, before), NewestFirst(shorter, sessionId, before);
      forall i, j | 0 <= i < j < |r| ensures r[j].sequence < r[i].sequence {
        if r != tail && i == 0 {
          assert r[j] in tail;
          var k :| 0 <= k < |shorter| && shorter[k] == r[j];
          assert rows[k] == r[j];
        }
      }
    }
  }

  function Below(r: seq<Row>, cursor: int): seq<Row> {
    if r == [] then []
    else if r[0].sequence < cursor then [r[0]] + Below(r[1..], cursor)
    else Below(r[1..], cursor)
  }

  lemma NewestFirstNext(rows: seq<Row>, sessionId: Option<Text>, before: Option<int>)
    requires rows != []
    ensures var last, rest := rows[|rows| - 1], NewestFirst(rows[..|rows| - 1], sessionId, before);
            NewestFirst(rows, sessionId, before) == if Selected(sessionId, last) && Before(before, last) then [last] + rest else rest
  {
    assert [] + NewestFirst(rows[..|rows| - 1], sessionId, before) == NewestFirst(rows[..|rows| - 1], sessionId, before);
  }

  lemma BelowNext(first: Row, rest: seq<Row>, cursor: int)
    ensures Below([first] + rest, cursor) == if first.sequence < cursor then [first] + Below(rest, cursor) else Below(rest, cursor)
  {
    assert ([first] + rest)[1..] == rest;
  }

  lemma {:induction false} LoweredCursor(rows: seq<Row>, sessionId: Option<Text>, before: Option<int>, cursor: int)
    requires before.Some? ==> cursor <= before.value
    ensures NewestFirst(rows, sessionId, Some(cursor)) == Below(NewestFirst(rows, sessionId, before), cursor)
  {
    if rows != [] {
      var shorter, last := rows[..|rows| - 1], rows[|rows| - 1];
      LoweredCursor(shorter, sessionId, before, cursor);
      var rest := NewestFirst(shorter, sessionId, before);
      NewestFirstNext(rows, sessionId, before);
      NewestFirstNext(rows, sessionId, Some(cursor));
      if Selected(sessionId, last) && Before(before, last) {
        BelowNext(last, rest, cursor);
      }
    }
  }

  lemma {:induction false} BelowDescending(r: seq<Row>, cursor: int, n: nat)
    requires n <= |r|
    requires forall i :: 0 <= i < n ==> cursor <= r[i].sequence
    requires forall i :: n <= i < |r| ==> r[i].sequence < cursor
    ensures Below(r, cursor) == r[n..]
  {
    if r != [] {
      BelowDescending(r[1..], cursor, if n == 0 then 0 else n - 1);
      if n > 0 { assert r[1..][n - 1..] == r[n..]; }
    }
  }

  lemma DropToRow(all: seq<Row>, n: nat)
    requires 0 < n <= |all|
    requires forall i, j :: 0 <= i < j < |all| ==> all[j].sequence < all[i].sequence
    ensures Below(all, all[n - 1].sequence) == all[n..]
  {
    BelowDescending(all, all[n - 1].sequence, n);
  }

  lemma RowBelowCursor(rows: seq<Row>, sessionId: Option<Text>, before: Option<int>, i: nat)
    requires i < |NewestFirst(rows, sessionId, before)|
    ensures Before(before, NewestFirst(rows, sessionId, before)[i])
  {
    assert NewestFirst(rows, sessionId, before)[i] in NewestFirst(rows, sessionId, before);
  }

  /** Moving the cursor down to row `n - 1` of the listing leaves exactly what comes after it. */
  lemma CursorDrops(rows: seq<Row>, sessionId: Option<Text>, before: Option<int>, n: nat)
    requires Ascending(rows) && 0 < n <= |NewestFirst(rows, sessionId, before)|
    ensures NewestFirst(rows, sessionId, Some(NewestFirst(rows, sessionId, before)[n - 1].sequence))
            == NewestFirst(rows, sessionId, before)[n..]
  {
    var all := NewestFirst(rows, sessionId, before);
    RowBelowCursor(rows, sessionId, before, n - 1);
    LoweredCursor(rows, sessionId, before, all[n - 1].sequence);
    NewestFirstDescends(rows, sessionId, before);
    DropToRow(all, n);
  }

  /** One request of a client that follows cursors: the log as it is then, and the page size. */
  datatype Request = Request(rows: seq<Row>, limit: Option<int>)

  /** Follows `nextCursor` through the requests; None when they run out before the cursor does. */
  function Walk(requests: seq<Request>, sessionId: Option<Text>, before: Option<int>): Option<seq<Row>> {
    if requests == [] then None
    else
      var page := PageOf(requests[0].rows, sessionId, before, requests[0].limit);
      if page.nextCursor.None? then Some(page.events)
      else
        match Walk(requests[1..], sessionId, page.nextCursor)
        case None => None
        case Some(rest) => Some(page.events + rest)
  }

  /** Between any two requests the log only grows. */
  ghost predicate Growing(requests: seq<Request>) {
    && (requests != [] ==> Ascending(requests[0].rows))
    && forall i :: 0 < i < |requests| ==> Extends(requests[i - 1].rows, requests[i].rows)
  }

  lemma GrowingTail(requests: seq<Request>)
    requires |requests| > 1 && Growing(requests)
    ensures Growing(requests[1..]) && Extends(requests[0].rows, requests[1..][0].rows)
  {
    assert Extends(requests[0].rows, requests[1].rows);
    forall i | 0 < i < |requests[1..]| ensures Extends(requests[1..][i - 1].rows, requests[1..][i].rows) {
      assert Extends(requests[i].rows, requests[i + 1].rows);
    }
  }

  lemma SplitAt(r: seq<Row>, n: nat)
    requires 0 < n < |r|
    ensures r == r[..n] + r[n..] && |r[n..]| < |r|
  {
  }

  /** What a page leaves for the requests after it. */
  lemma PageLeaves(rows: seq<Row>, sessionId: Option<Text>, before: Option<int>, limit: Option<int>, later: seq<Row>)
    requires Ascending(rows) && Extends(rows, later)
    requires PageOf(rows, sessionId, before, limit).nextCursor.Some?
    ensures var page := PageOf(rows, sessionId, before, limit);
            var left := NewestFirst(later, sessionId, page.nextCursor);
            && NewestFirst(rows, sessionId, before) == page.events + left
            && |left| < |NewestFirst(rows, sessionId, before)|
  {
    var all := NewestFirst(rows, sessionId, before);
    var n := Bounded(limit);
    var cursor := all[n - 1].sequence;
    CursorDrops(rows, sessionId, before, n);
    assert all[n - 1] in all;
    assert all[n - 1] in rows && cursor <= all[n - 1].sequence;
    CursorHidesAppends(rows, later, sessionId, cursor);
    assert NewestFirst(later, sessionId, Some(cursor)) == all[n..];
    assert PageOf(rows, sessionId, before, limit) == Page(all[..n], Some(cursor));
    SplitAt(all, n);
  }

  /** Following the cursor to its end, with any page sizes and any appends in between, lists each
      event that matched at the first request exactly once, newest first, and the walk is over
      after at most one request per such event. */
  lemma {:induction false} WalkComplete(requests: seq<Request>, sessionId: Option<Text>, before: Option<int>)
    requires requests != [] && Growing(requests)
    ensures Walk(requests, sessionId, before).Some? ==>
      Walk(requests, sessionId, before).value == NewestFirst(requests[0].rows, sessionId, before)
    ensures |requests| > |NewestFirst(requests[0].rows, sessionId, before)| ==> Walk(requests, sessionId, before).Some?
    decreases |requests|
  {
    var page := PageOf(requests[0].rows, sessionId, before, requests[0].limit);
    if page.nextCursor.Some? && |requests| > 1 {
      var tail := requests[1..];
      GrowingTail(requests);
      PageLeaves(requests[0].rows, sessionId, before, requests[0].limit, tail[0].rows);
      WalkComplete(tail, sessionId, page.nextCursor);
    }
  }

  /** A client's next request, and what is appended before it arrives. */
  datatype Turn = Turn(appended: seq<NewEvent>, limit: Option<int>)

  function Served(config: Config, rows: seq<Row>, turns: seq<Turn>): (requests: seq<Request>)
    ensures |requests| == |turns|
    decreases |turns|
  {
    if turns == [] then []
    else
      var now := AppendAll(config, rows, turns[0].appended);
      [Request(now, turns[0].limit)] + Served(config, now, turns[1..])
  }

  lemma {:induction false} ServedGrowing(config: Config, rows: seq<Row>, turns: seq<Turn>)
    requires Ascending(rows)
    ensures Growing(Served(config, rows, turns))
    ensures turns != [] ==> Served(config, rows, turns)[0].rows == AppendAll(config, rows, turns[0].appended)
    decreases |turns|
  {
    if turns != [] {
      var now := AppendAll(config, rows, turns[0].appended);
      var rest := Served(config, now, turns[1..]);
      AppendsExtend(config, rows, turns[0].appended);
      ServedGrowing(config, now, turns[1..]);
      if |turns| > 1 { AppendsExtend(config, now, turns[1].appended); }
      var requests := [Request(now, turns[0].limit)] + rest;
      forall i | 0 < i < |requests| ensures Extends(requests[i - 1].rows, requests[i].rows) {
        if i > 1 { assert Extends(rest[i - 2].rows, rest[i - 1].rows); }
      }
    }
  }

  /** Whatever the store appends between the requests, the walk lists what matched at the first one. */
  lemma WalkOverAppends(config: Config, rows: seq<Row>, turns: seq<Turn>, sessionId: Option<Text>, before: Option<int>)
    requires Ascending(rows) && turns != []
    ensures var matched := NewestFirst(AppendAll(config, rows, turns[0].appended), sessionId, before);
            var listed := Walk(Served(config, rows, turns), sessionId, before);
            (listed.Some? ==> listed.value == matched) && (|turns| > |matched| ==> listed.Some?)
  {
    ServedGrowing(config, rows, turns);
    WalkComplete(Served(config, rows, turns), sessionId, before);
  }

  /** The listing itself holds each matching row exactly once, in descending order. */
  lemma {:induction false} NewestFirstExact(rows: seq<Row>, sessionId: Option<Text>, row: Row)
    requires Ascending(rows)
    ensures multiset(NewestFirst(rows, sessionId, None))[row] == (if row in rows && Selected(sessionId, row) then 1 else 0)
    ensures forall i, j :: 0 <= i < j < |NewestFirst(rows, sessionId, None)| ==>
      NewestFirst(rows, sessionId, None)[j].sequence < NewestFirst(rows, sessionId, None)[i].sequence
  {
    NewestFirstDescends(rows, sessionId, None);
    var r := NewestFirst(rows, sessionId, None);
    if row in r { CountOnce(r, row); }
  }

  lemma {:induction false} CountOnce(r: seq<Row>, row: Row)
    requires forall i, j :: 0 <= i < j < |r| ==> r[j].sequence < r[i].sequence
    requires row in r
    ensures multiset(r)[row] == 1
  {
    assert r == [r[0]] + r[1..];
    if r[0] == row {
      assert row !in r[1..];
    } else {
      CountOnce(r[1..], row);
    }
  }
}
