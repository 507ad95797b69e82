/** The A record a deploy writes for its hostname, and what it may delete to write it. */
module IngressDns {
  import opened Strings

  datatype RecordType = A | Cname | Other

  datatype Record = Record(recordId: nat, kind: RecordType, name: string, value: string)

  /******* Names and values as providers return them *******/

  function WithoutDot(s: string): string {
    if s != "" && s[|s| - 1] == '.' then s[..|s| - 1] else s
  }

  predicate SameName(recorded: string, relative: string, fqdn: string) {
    var r := Lower(WithoutDot(recorded));
    r == Lower(relative) || r == Lower(WithoutDot(fqdn))
  }

  /******* The plan *******/

  datatype Name = Name(relative: string, fqdn: string, ip: string)

  predicate Here(r: Record, n: Name) { SameName(r.name, n.relative, n.fqdn) }
  predicate HasCname(r: Record, n: Name) { Here(r, n) && r.kind == Cname }
  predicate HasA(r: Record, n: Name) { Here(r, n) && r.kind == A }
  predicate Mine(r: Record, n: Name) { HasA(r, n) && Trim(r.value) == n.ip }
  predicate Elsewhere(r: Record, n: Name) { HasA(r, n) && Trim(r.value) != n.ip }

  datatype Kind = Cnames | As | Mines | Others

  predicate IsKind(r: Record, n: Name, kind: Kind) {
    match kind
    case Cnames => HasCname(r, n)
    case As => HasA(r, n)
    case Mines => Mine(r, n)
    case Others => Elsewhere(r, n)
  }

  function Select(records: seq<Record>, n: Name, kind: Kind): seq<Record> {
    if records == [] then []
    else (if IsKind(records[0], n, kind) then [records[0]] else []) + Select(records[1..], n, kind)
  }

  datatype Reason = PointsElsewhere | CnamePresent

  datatype Plan = Create | Reuse(existing: Record) | Conflict(reason: Reason, stale: seq<Record>)

  function PlanARecord(records: seq<Record>, n: Name): Plan {
    var mine, others := Select(records, n, Mines), Select(records, n, Others);
    if Select(records, n, Cnames) != [] then Conflict(CnamePresent, [])
    else if Select(records, n, As) == [] then Create
    else if others != [] then Conflict(PointsElsewhere, others)
    else if mine != [] then Reuse(mine[0])
    else Create
  }

  lemma {:induction false} SelectIs(records: seq<Record>, n: Name, kind: Kind)
    ensures forall r :: r in Select(records, n, kind) <==> r in records && IsKind(r, n, kind)
  {
    if records != [] {
      SelectIs(records[1..], n, kind);
      assert records == [records[0]] + records[1..];
    }
  }

  /** The decision turns on what is at the name: free, already ours alone, or someone else's. */
  lemma {:induction false} PlanIs(records: seq<Record>, n: Name)
    ensures PlanARecord(records, n).Create? <==> forall r :: r in records ==> !HasA(r, n) && !HasCname(r, n)
    ensures PlanARecord(records, n).Reuse? <==>
      (exists r :: r in records && Mine(r, n)) && forall r :: r in records ==> !Elsewhere(r, n) && !HasCname(r, n)
    ensures PlanARecord(records, n).Reuse? ==> PlanARecord(records, n).existing in records && Mine(PlanARecord(records, n).existing, n)
    ensures PlanARecord(records, n).Conflict? ==> match PlanARecord(records, n).reason
      case CnamePresent => PlanARecord(records, n).stale == [] && exists r :: r in records && HasCname(r, n)
      case PointsElsewhere =>
        && (forall r :: r in records ==> !HasCname(r, n))
        && (forall r :: r in PlanARecord(records, n).stale <==> r in records && Elsewhere(r, n))
        && PlanARecord(records, n).stale != []
  {
    var mine, others := Select(records, n, Mines), Select(records, n, Others);
    var cname, a := Select(records, n, Cnames), Select(records, n, As);
    SelectIs(records, n, Mines);
    SelectIs(records, n, Others);
    SelectIs(records, n, Cnames);
    SelectIs(records, n, As);
    assert cname != [] ==> cname[0] in cname && HasCname(cname[0], n);
    assert mine != [] ==> mine[0] in mine;
    assert others != [] ==> others[0] in others;
    assert a != [] ==> a[0] in a && (a[0] in mine || a[0] in others);
  }

  /******* Writing it *******/

  datatype EnsureAction = Created | Reused | Repointed

  datatype Ensured = NoZone | Wrote(recordId: nat, action: EnsureAction) | Refused | ProviderFailed

  /** What the provider does to each call, and the id it gives a new record. */
  datatype Provider = Provider(hasZone: bool, listFails: bool, deleteFails: nat -> bool, createFails: bool, newId: nat)

  function Deleted(records: seq<Record>, recordId: nat): seq<Record> {
    if records == [] then []
    else (if records[0].recordId != recordId then [records[0]] else []) + Deleted(records[1..], recordId)
  }

  datatype Result = Result(records: seq<Record>, ensured: Ensured)

  datatype Swept = Swept(records: seq<Record>, ok: bool)

  /** Deletes the stale records one by one, up to the first the provider will not delete. */
  function Sweep(records: seq<Record>, stale: seq<Record>, p: Provider): Swept
    decreases |stale|
  {
    if stale == [] then Swept(records, true)
    else if p.deleteFails(stale[0].recordId) then Swept(records, false)
    else Sweep(Deleted(records, stale[0].recordId), stale[1..], p)
  }

  lemma SweepFirst(records: seq<Record>, stale: seq<Record>, done: seq<seq<Record>>, p: Provider)
    requires stale != []
    ensures var fewer := Deleted(records, stale[0].recordId);
            done + SweepStages(records, stale, p)
            == if p.deleteFails(stale[0].recordId) then done else (done + [fewer]) + SweepStages(fewer, stale[1..], p)
  {
  }

  function Stale(plan: Plan): seq<Record> {
    if plan.Conflict? then plan.stale else []
  }

  function Written(records: seq<Record>, n: Name, stale: seq<Record>, p: Provider): Result {
    var swept := Sweep(records, stale, p);
    if !swept.ok || p.createFails then Result(swept.records, ProviderFailed)
    else Result(swept.records + [Record(p.newId, A, n.relative, n.ip)], Wrote(p.newId, if stale != [] then Repointed else Created))
  }

  /** Writes or adopts the A record. Anything not already ours stops it, unless forced. */
  function Ensure(records: seq<Record>, n: Name, force: bool, p: Provider): Result {
    if !p.hasZone then Result(records, NoZone)
    else if p.listFails then Result(records, ProviderFailed)
    else
      var plan := PlanARecord(records, n);
      if plan.Conflict? && !force then Result(records, Refused)
      else if plan.Reuse? then Result(records, Wrote(plan.existing.recordId, Reused))
      else Written(records, n, Stale(plan), p)
  }

  /** The zone after each record deleted. */
  function SweepStages(records: seq<Record>, stale: seq<Record>, p: Provider): seq<seq<Record>>
    decreases |stale|
  {
    if stale == [] || p.deleteFails(stale[0].recordId) then []
    else
      var fewer := Deleted(records, stale[0].recordId);
      [fewer] + SweepStages(fewer, stale[1..], p)
  }

  /** The zone after each of the provider calls that change it. */
  function EnsureStages(records: seq<Record>, n: Name, force: bool, p: Provider): seq<seq<Record>> {
    var plan, after := PlanARecord(records, n), Ensure(records, n, force, p);
    if !p.hasZone || p.listFails || (plan.Conflict? && !force) || plan.Reuse? then []
    else SweepStages(records, Stale(plan), p) + if after.ensured.Wrote? then [after.records] else []
  }

  predicate MustDiscard(ensured: Ensured) {
    ensured.Wrote? && ensured.action == Created
  }

  function Discarded(records: seq<Record>, ensured: Ensured, p: Provider): seq<Record> {
    if MustDiscard(ensured) && !p.deleteFails(ensured.recordId) then Deleted(records, ensured.recordId) else records
  }

  function DiscardStages(records: seq<Record>, ensured: Ensured, p: Provider): seq<seq<Record>> {
    if MustDiscard(ensured) && !p.deleteFails(ensured.recordId) then [Discarded(records, ensured, p)] else []
  }

  class Zone {
    var records: seq<Record>
    // The zone after each change made to it, in order.
    ghost var history: seq<seq<Record>>

    constructor (records: seq<Record>)
      ensures this.records == records && history == []
    {
      this.records, history := records, [];
    }

    /** A call that fails changes nothing. */
    method Delete(recordId: nat, p: Provider) returns (ok: bool)
      modifies this
      ensures ok == !p.deleteFails(recordId)
      ensures records == if ok then Deleted(old(records), recordId) else old(records)
      ensures history == old(history) + if ok then [records] else []
    {
      ok := !p.deleteFails(recordId);
      if ok {
        records := Deleted(records, recordId);
        history := history + [records];
      }
    }

    method DeleteStale(stale: seq<Record>, p: Provider) returns (ok: bool)
      modifies this
      ensures Swept(records, ok) == Sweep(old(records), stale, p)
      ensures history == old(history) + SweepStages(old(records), stale, p)
    {
      var i := 0;
      ghost var done: seq<seq<Record>> := [];
      while i < |stale|
        invariant 0 <= i <= |stale|
        invariant Sweep(records, stale[i..], p) == Sweep(old(records), stale, p)
        invariant history == old(history) + done
        invariant done + SweepStages(records, stale[i..], p) == SweepStages(old(records), stale, p)
      {
        SweepFirst(records, stale[i..], done, p);
        assert stale[i..][1..] == stale[i + 1..];
        var deleted := Delete(stale[i].recordId, p);
        if !deleted { return false; }
        done := done + [records];
        i := i + 1;
      }
      return true;
    }

    method EnsureARecord(n: Name, force: bool, p: Provider) returns (ensured: Ensured)
      modifies this
      ensures Result(records, ensured) == Ensure(old(records), n, force, p)
      ensures history == old(history) + EnsureStages(old(records), n, force, p)
    {
      if !p.hasZone { return NoZone; }
      if p.listFails { return ProviderFailed; }
      var plan := PlanARecord(records, n);
      if plan.Conflict? && !force { return Refused; }
      if plan.Reuse? { return Wrote(plan.existing.recordId, Reused); }
      var stale := Stale(plan);
      var ok := DeleteStale(stale, p);
      if !ok || p.createFails { return ProviderFailed; }
      records := records + [Record(p.newId, A, n.relative, n.ip)];
      history := history + [records];
      return Wrote(p.newId, if stale != [] then Repointed else Created);
    }

    /** Undoes only what this run created, as far as the provider lets it. */
    method DiscardRecord(ensured: Ensured, p: Provider)
      modifies this
      ensures records == Discarded(old(records), ensured, p)
      ensures history == old(history) + DiscardStages(old(records), ensured, p)
    {
      if ensured.Wrote? && ensured.action == Created {
        var _ := Delete(ensured.recordId, p);
      }
    }
  }

  /******* What the write does to the zone *******/

  lemma {:induction false} DeletedIs(records: seq<Record>, recordId: nat)
    ensures forall r :: r in Deleted(records, recordId) <==> r in records && r.recordId != recordId
  {
    if records != [] {
      DeletedIs(records[1..], recordId);
      assert records == [records[0]] + records[1..];
    }
  }

  lemma {:induction false} SweepIs(records: seq<Record>, stale: seq<Record>, p: Provider)
    ensures forall r :: r in Sweep(records, stale, p).records ==> r in records
    ensures forall r :: r in records && r !in Sweep(records, stale, p).records ==> exists s :: s in stale && s.recordId == r.recordId
    ensures Sweep(records, stale, p).ok ==>
      forall r, s :: r in Sweep(records, stale, p).records && s in stale ==> r.recordId != s.recordId
    decreases |stale|
  {
    if stale != [] && !p.deleteFails(stale[0].recordId) {
      var first := Deleted(records, stale[0].recordId);
      DeletedIs(records, stale[0].recordId);
      SweepIs(first, stale[1..], p);
      assert stale == [stale[0]] + stale[1..];
      forall r | r in records && r !in Sweep(records, stale, p).records ensures exists s :: s in stale && s.recordId == r.recordId {
        if r in first {
          var s :| s in stale[1..] && s.recordId == r.recordId;
          assert s in stale;
        } else {
          assert stale[0] in stale;
        }
      }
    }
  }

  /** Unless it is forced the write deletes nothing: the zone is what it was, or has one new record
      more at a name that held no address; and it is refused exactly when the name is taken. */
  lemma {:induction false} UnforcedEnsure(records: seq<Record>, n: Name, p: Provider)
    ensures var r := Ensure(records, n, false, p);
            && (r.records == records || (MustDiscard(r.ensured) && r.records == records + [Record(p.newId, A, n.relative, n.ip)]))
            && (r.records != records ==> forall s :: s in records ==> !HasA(s, n) && !HasCname(s, n))
            && (r.ensured.Refused? <==> p.hasZone && !p.listFails && exists s :: s in records && (HasCname(s, n) || Elsewhere(s, n)))
            && !(r.ensured.Wrote? && r.ensured.action == Repointed)
  {
    PlanIs(records, n);
    if exists s :: s in records && (HasCname(s, n) || Elsewhere(s, n)) {
      var s :| s in records && (HasCname(s, n) || Elsewhere(s, n));
      assert HasCname(s, n) || HasA(s, n);
    }
  }

  lemma {:induction false} WriteDeletes(records: seq<Record>, n: Name, stale: seq<Record>, p: Provider, s: Record) returns (t: Record)
    requires s in records && s !in Written(records, n, stale, p).records
    ensures t in stale && t.recordId == s.recordId
  {
    SweepIs(records, stale, p);
    t :| t in stale && t.recordId == s.recordId;
  }

  lemma {:induction false} WriteAdds(records: seq<Record>, n: Name, stale: seq<Record>, p: Provider, s: Record)
    requires s in Written(records, n, stale, p).records && s !in records
    ensures Written(records, n, stale, p).ensured.Wrote? && s == Record(p.newId, A, n.relative, n.ip)
  {
    SweepIs(records, stale, p);
  }

  /** Even when forced it deletes only addresses published at this very name for somewhere else, and
      adds nothing but the one record. */
  lemma {:induction false} EnsureSpares(records: seq<Record>, n: Name, force: bool, p: Provider)
    ensures var r := Ensure(records, n, force, p);
            && (forall s :: s in records && s !in r.records ==>
                  force && exists t :: t in records && Elsewhere(t, n) && t.recordId == s.recordId)
            && (forall s :: s in r.records && s !in records ==> r.ensured.Wrote? && s == Record(p.newId, A, n.relative, n.ip))
  {
    PlanIs(records, n);
    var stale, r := Stale(PlanARecord(records, n)), Ensure(records, n, force, p);
    if r.records != records {
      forall s | s in records && s !in r.records
        ensures force && exists t :: t in records && Elsewhere(t, n) && t.recordId == s.recordId
      {
        var t := WriteDeletes(records, n, stale, p, s);
        assert t in records && Elsewhere(t, n);
      }
      forall s | s in r.records && s !in records ensures r.ensured.Wrote? && s == Record(p.newId, A, n.relative, n.ip) {
        WriteAdds(records, n, stale, p, s);
      }
    }
  }

  /** A provider gives a new record an id of its own. */
  predicate FreshId(records: seq<Record>, p: Provider) {
    forall r :: r in records ==> r.recordId != p.newId
  }

  lemma {:induction false} PointsNoMore(records: seq<Record>, n: Name, p: Provider, stale: seq<Record>, r: Record)
    requires Elsewhere(r, n) ==> r in stale
    requires Sweep(records, stale, p).ok && r in Sweep(records, stale, p).records
    ensures !Elsewhere(r, n)
  {
    SweepIs(records, stale, p);
  }

  /** The record the answer names: ours already, or the one just written. */
  predicate Published(r: Record, n: Name, p: Provider, ensured: Ensured)
    requires ensured.Wrote?
  {
    r.recordId == ensured.recordId && if ensured.action == Reused then Mine(r, n) else r == Record(p.newId, A, n.relative, n.ip)
  }

  /** Once it is written, the record the answer names is in the zone; adopting one changes nothing. */
  lemma {:induction false} EnsurePublishes(records: seq<Record>, n: Name, force: bool, p: Provider) returns (r: Record)
    requires Ensure(records, n, force, p).ensured.Wrote?
    ensures var after := Ensure(records, n, force, p);
            r in after.records && Published(r, n, p, after.ensured) && (after.ensured.action == Reused ==> after.records == records)
  {
    PlanIs(records, n);
    var plan, after := PlanARecord(records, n), Ensure(records, n, force, p);
    if plan.Reuse? {
      r := plan.existing;
    } else {
      r := Record(p.newId, A, n.relative, n.ip);
      assert after.records[|after.records| - 1] == r;
    }
  }

  /** The zone a write leaves is the last one it went through, and each of those is one deletion or
      one addition away from the one before. */
  ghost predicate OneRecord(before: seq<Record>, after: seq<Record>) {
    (exists id: nat :: after == Deleted(before, id)) || (after != [] && after == before + [after[|after| - 1]])
  }

  function Earlier(first: seq<Record>, stages: seq<seq<Record>>, i: nat): seq<Record>
    requires i <= |stages|
  {
    if i == 0 then first else stages[i - 1]
  }

  ghost predicate Steps(first: seq<Record>, stages: seq<seq<Record>>, last: seq<Record>) {
    && last == Earlier(first, stages, |stages|)
    && (forall i :: 0 <= i < |stages| ==> OneRecord(Earlier(first, stages, i), stages[i]))
  }

  lemma DeletesOne(records: seq<Record>, recordId: nat)
    ensures Steps(records, [Deleted(records, recordId)], Deleted(records, recordId))
  {
    assert OneRecord(records, Deleted(records, recordId));
  }

  lemma AddsOne(records: seq<Record>, r: Record)
    ensures Steps(records, [records + [r]], records + [r])
  {
    assert OneRecord(records, records + [r]);
  }

  lemma EarlierJoin(first: seq<Record>, a: seq<seq<Record>>, b: seq<seq<Record>>, i: nat)
    requires i < |a + b|
    ensures i < |a| ==> (a + b)[i] == a[i] && Earlier(first, a + b, i) == Earlier(first, a, i)
    ensures i >= |a| ==> (a + b)[i] == b[i - |a|] && Earlier(first, a + b, i) == Earlier(Earlier(first, a, |a|), b, i - |a|)
    ensures Earlier(first, a + b, |a + b|) == Earlier(Earlier(first, a, |a|), b, |b|)
  {
  }

  lemma StepsJoin(first: seq<Record>, a: seq<seq<Record>>, middle: seq<Record>, b: seq<seq<Record>>, last: seq<Record>)
    requires Steps(first, a, middle) && Steps(middle, b, last)
    ensures Steps(first, a + b, last)
  {
    forall i | 0 <= i < |a + b| ensures OneRecord(Earlier(first, a + b, i), (a + b)[i]) { EarlierJoin(first, a, b, i); }
    if b == [] { assert a + b == a; } else { EarlierJoin(first, a, b, |a|); }
  }

  lemma {:induction false} SweepSteps(records: seq<Record>, stale: seq<Record>, p: Provider)
    ensures Steps(records, SweepStages(records, stale, p), Sweep(records, stale, p).records)
    decreases |stale|
  {
    if stale != [] && !p.deleteFails(stale[0].recordId) {
      var fewer := Deleted(records, stale[0].recordId);
      DeletesOne(records, stale[0].recordId);
      SweepSteps(fewer, stale[1..], p);
      StepsJoin(records, [fewer], fewer, SweepStages(fewer, stale[1..], p), Sweep(records, stale, p).records);
    }
  }

  lemma {:induction false} EnsureSteps(records: seq<Record>, n: Name, force: bool, p: Provider)
    ensures Steps(records, EnsureStages(records, n, force, p), Ensure(records, n, force, p).records)
  {
    var plan, after := PlanARecord(records, n), Ensure(records, n, force, p);
    if p.hasZone && !p.listFails && !(plan.Conflict? && !force) && !plan.Reuse? {
      var stages, swept := SweepStages(records, Stale(plan), p), Sweep(records, Stale(plan), p);
      SweepSteps(records, Stale(plan), p);
      if after.ensured.Wrote? {
        var written := Record(p.newId, A, n.relative, n.ip);
        AddsOne(swept.records, written);
        StepsJoin(records, stages, swept.records, [after.records], after.records);
      } else {
        assert stages + [] == stages;
      }
    }
  }

  lemma DiscardSteps(records: seq<Record>, ensured: Ensured, p: Provider)
    ensures Steps(records, DiscardStages(records, ensured, p), Discarded(records, ensured, p))
  {
    if MustDiscard(ensured) { DeletesOne(records, ensured.recordId); }
  }

  /** Once it is written, no record left from before sends the name anywhere else, unless an alias
      (CNAME) was forced aside. */
  lemma {:induction false} EnsurePoints(records: seq<Record>, n: Name, force: bool, p: Provider, r: Record)
    requires FreshId(records, p) && Ensure(records, n, force, p).ensured.Wrote?
    requires forall s :: s in records ==> !HasCname(s, n)
    requires r in records && r in Ensure(records, n, force, p).records
    ensures !Elsewhere(r, n)
  {
    PlanIs(records, n);
    var plan := PlanARecord(records, n);
    if !plan.Reuse? {
      assert r != Record(p.newId, A, n.relative, n.ip);
      assert r in Sweep(records, Stale(plan), p).records;
      assert Elsewhere(r, n) ==> HasA(r, n) && plan.Conflict? && r in plan.stale;
      PointsNoMore(records, n, p, Stale(plan), r);
    }
  }

  lemma {:induction false} DeletedNew(records: seq<Record>, r: Record)
    requires forall s :: s in records ==> s.recordId != r.recordId
    ensures Deleted(records + [r], r.recordId) == records
  {
    if records == [] {
      assert Deleted([r], r.recordId) == Deleted([r][1..], r.recordId);
    } else {
      assert (records + [r])[1..] == records[1..] + [r];
      assert records[0] in records;
      DeletedNew(records[1..], r);
    }
  }

  lemma WriteThenDiscard(records: seq<Record>, n: Name, p: Provider)
    requires FreshId(records, p) && !p.deleteFails(p.newId)
    ensures var r := Written(records, n, [], p); Discarded(r.records, r.ensured, p) == records
  {
    DeletedNew(records, Record(p.newId, A, n.relative, n.ip));
  }

  /** Writing and then discarding gives back the zone, record for record: always when the write was
      not forced and the provider deletes what it is told to. */
  lemma {:induction false} EnsureThenDiscard(records: seq<Record>, n: Name, force: bool, p: Provider)
    requires FreshId(records, p) && !p.deleteFails(p.newId)
    requires !force || !PlanARecord(records, n).Conflict? || PlanARecord(records, n).reason == CnamePresent
    ensures var r := Ensure(records, n, force, p); Discarded(r.records, r.ensured, p) == records
  {
    PlanIs(records, n);
    WriteThenDiscard(records, n, p);
    assert !PlanARecord(records, n).Reuse? && (!PlanARecord(records, n).Conflict? || force) ==> Stale(PlanARecord(records, n)) == [];
  }

  /******* What discarding leaves *******/

  /** Told to repoint, and the first address at the name is deleted. */
  predicate SweepStarts(records: seq<Record>, n: Name, force: bool, p: Provider) {
    && p.hasZone && !p.listFails && force
    && PlanARecord(records, n).Conflict? && PlanARecord(records, n).stale != []
    && !p.deleteFails(PlanARecord(records, n).stale[0].recordId)
  }

  lemma {:induction false} DeletedMisses(records: seq<Record>, recordId: nat)
    requires forall r :: r in records ==> r.recordId != recordId
    ensures Deleted(records, recordId) == records
  {
    if records != [] {
      assert records == [records[0]] + records[1..];
      DeletedMisses(records[1..], recordId);
    }
  }

  lemma WrittenRecords(records: seq<Record>, n: Name, stale: seq<Record>, p: Provider)
    ensures var r := Written(records, n, stale, p);
            r.records == Sweep(records, stale, p).records + if r.ensured.Wrote? then [Record(p.newId, A, n.relative, n.ip)] else []
    ensures var r := Written(records, n, stale, p);
            r.ensured.Wrote? ==> r.ensured.action == (if stale != [] then Repointed else Created) && r.ensured.recordId == p.newId
  {
  }

  lemma SweepFreshId(records: seq<Record>, stale: seq<Record>, p: Provider)
    requires FreshId(records, p)
    ensures FreshId(Sweep(records, stale, p).records, p)
  {
    SweepIs(records, stale, p);
  }

  /** After a write, membership in the zone once the record is discarded. */
  lemma DiscardedWritten(records: seq<Record>, n: Name, stale: seq<Record>, p: Provider, r: Record)
    requires FreshId(records, p)
    ensures var w, own := Written(records, n, stale, p), Record(p.newId, A, n.relative, n.ip);
            r in Discarded(w.records, w.ensured, p)
            <==> r in Sweep(records, stale, p).records
                 || (r == own && w.ensured.Wrote? && (stale != [] || p.deleteFails(p.newId)))
  {
    var w, own, swept := Written(records, n, stale, p), Record(p.newId, A, n.relative, n.ip), Sweep(records, stale, p).records;
    WrittenRecords(records, n, stale, p);
    SweepFreshId(records, stale, p);
    if MustDiscard(w.ensured) && !p.deleteFails(p.newId) { DeletedNew(swept, own); }
  }

  /** What is in the zone once the run's record is discarded: nothing but what was there and the run's
      own record, which stays when it was written over others or its delete is refused; and what is
      missing went by its id to a forced repoint. */
  lemma {:induction false} DiscardedIs(records: seq<Record>, n: Name, force: bool, p: Provider, r: Record)
    requires FreshId(records, p)
    ensures var e, own := Ensure(records, n, force, p), Record(p.newId, A, n.relative, n.ip);
            var after := Discarded(e.records, e.ensured, p);
            && (r in after && r !in records <==>
                  r == own && e.ensured.Wrote?
                  && (e.ensured.action == Repointed || (e.ensured.action == Created && p.deleteFails(p.newId))))
            && (r in records && r !in after ==>
                  force && exists t :: t in records && Elsewhere(t, n) && t.recordId == r.recordId)
  {
    PlanIs(records, n);
    var plan, e := PlanARecord(records, n), Ensure(records, n, force, p);
    if e == Written(records, n, Stale(plan), p) {
      DiscardedWritten(records, n, Stale(plan), p, r);
      SweepIs(records, Stale(plan), p);
      WrittenRecords(records, n, Stale(plan), p);
      if r in records && r !in Sweep(records, Stale(plan), p).records {
        var t :| t in Stale(plan) && t.recordId == r.recordId;
        assert Elsewhere(t, n);
      }
    }
  }

  /** A sweep that starts changes the zone, whatever is written afterwards. */
  lemma {:induction false} SweepChanges(records: seq<Record>, n: Name, force: bool, p: Provider)
    requires FreshId(records, p) && SweepStarts(records, n, force, p)
    ensures var e := Ensure(records, n, force, p); Discarded(e.records, e.ensured, p) != records
  {
    PlanIs(records, n);
    var stale := PlanARecord(records, n).stale;
    var first := stale[0];
    assert first in stale && first in records;
    DiscardedWritten(records, n, stale, p, first);
    SweptFirst(records, stale, p);
  }

  lemma {:induction false} SweptFirst(records: seq<Record>, stale: seq<Record>, p: Provider)
    requires stale != [] && !p.deleteFails(stale[0].recordId)
    ensures stale[0] !in Sweep(records, stale, p).records
  {
    DeletedIs(records, stale[0].recordId);
    SweepIs(Deleted(records, stale[0].recordId), stale[1..], p);
  }

  lemma {:induction false} UnsweptZone(records: seq<Record>, n: Name, force: bool, p: Provider)
    requires FreshId(records, p) && !SweepStarts(records, n, force, p)
    ensures var e := Ensure(records, n, force, p);
            Discarded(e.records, e.ensured, p)
            == if MustDiscard(e.ensured) && p.deleteFails(p.newId) then records + [Record(p.newId, A, n.relative, n.ip)] else records
  {
    PlanIs(records, n);
    WriteThenDiscarded(records, n, p);
  }

  lemma WriteThenDiscarded(records: seq<Record>, n: Name, p: Provider)
    requires FreshId(records, p)
    ensures var r := Written(records, n, [], p);
            Discarded(r.records, r.ensured, p)
            == if MustDiscard(r.ensured) && p.deleteFails(p.newId) then records + [Record(p.newId, A, n.relative, n.ip)] else records
  {
    WrittenRecords(records, n, [], p);
    DeletedNew(records, Record(p.newId, A, n.relative, n.ip));
  }

  /** Writing and discarding gives back the zone exactly when no sweep started and the provider does not
      refuse to delete what was added; if only that went wrong, one record more is left. */
  lemma {:induction false} DiscardRestoresIff(records: seq<Record>, n: Name, force: bool, p: Provider)
    requires FreshId(records, p)
    ensures var e, own := Ensure(records, n, force, p), Record(p.newId, A, n.relative, n.ip);
            var after, refused := Discarded(e.records, e.ensured, p), MustDiscard(e.ensured) && p.deleteFails(p.newId);
            && (after == records <==> !SweepStarts(records, n, force, p) && !refused)
            && (!SweepStarts(records, n, force, p) && refused ==> after == records + [own])
  {
    if SweepStarts(records, n, force, p) {
      SweepChanges(records, n, force, p);
    } else {
      UnsweptZone(records, n, force, p);
      assert |records + [Record(p.newId, A, n.relative, n.ip)]| == |records| + 1;
    }
  }
}
