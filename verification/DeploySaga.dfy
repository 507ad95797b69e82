/** A deploy as a saga over the ledger, the DNS zone and the host's data: what a failure undoes. */
module DeploySaga {
  import opened Optional
  import opened InstallLedger
  import Dns = IngressDns

  /** App data on the host. */
  datatype Item = Volume(name: string) | Secret(name: string)

  datatype State = State(rows: Ledger, records: seq<Dns.Record>, data: set<Item>)

  /** What one deploy wants: its ledger row, its hostname, and the data its units use. */
  datatype Job = Job(name: string, row: Row, hostname: Option<Dns.Name>, forceDns: bool, planned: set<Item>)

  /** What the world does to the deploy: the DNS provider, the probe, the ingress, the pull, the
      items the units brought into being, in order, and the ones a rollback then manages to remove. */
  datatype World = World(
    dns: Dns.Provider, probeRan: bool, ingressUp: bool, pullOk: bool, made: seq<Item>, unitsOk: bool, smokeOk: bool,
    leaveRunning: bool, removed: seq<Item>)

  function Elements(items: seq<Item>): set<Item> {
    set x | x in items
  }

  /** Only a confirmed install is a baseline to go back to. */
  predicate HasBaseline(rows: Ledger, name: string) {
    name in rows && rows[name].status == Deployed
  }

  function Probe(data: set<Item>, planned: set<Item>, w: World): Option<set<Item>> {
    if w.probeRan then Some(data * planned) else None
  }

  /** The data this run brought into being, as far as it can know; nothing if the probe did not finish. */
  function CreatedInRun(planned: set<Item>, preexisting: Option<set<Item>>): set<Item> {
    match preexisting
    case None => {}
    case Some(found) => planned - found
  }

  function Preexisting(s: State, job: Job, w: World): Option<set<Item>> {
    if HasBaseline(s.rows, job.name) then None else Probe(s.data, job.planned, w)
  }

  /** Before the units are deployed: the ingress must be up and the images pulled. */
  predicate Reached(job: Job, w: World) {
    (job.hostname.Some? ==> w.ingressUp) && w.pullOk
  }

  function Units(data: set<Item>, job: Job, w: World): set<Item> {
    if Reached(job, w) then data + Elements(w.made) * job.planned else data
  }

  function Verdict(job: Job, w: World): Ending {
    if !Reached(job, w) then RolledBack
    else if !w.unitsOk then RolledBack
    else if w.smokeOk then Confirmed
    else if w.leaveRunning then LeftRunning
    else RolledBack
  }

  /** A redeploy restores the previous units and touches no data; a first install removes what it made. */
  function Rollback(data: set<Item>, s: State, job: Job, w: World): set<Item> {
    if !Reached(job, w) || HasBaseline(s.rows, job.name) then data
    else data - CreatedInRun(job.planned, Preexisting(s, job, w)) * Elements(w.removed)
  }

  function EnsureRecord(records: seq<Dns.Record>, job: Job, w: World): Dns.Result {
    match job.hostname
    case None => Dns.Result(records, Dns.NoZone)
    case Some(n) => Dns.Ensure(records, n, job.forceDns, w.dns)
  }

  predicate DnsStops(ensured: Dns.Ensured) { ensured.Refused? || ensured.ProviderFailed? }

  datatype Outcome = Finished(state: State, ending: Ending)

  function Saga(s: State, job: Job, w: World): Outcome {
    var claimed := Claim(s.rows, job.name, job.row);
    var reverted := Revert(claimed, job.name, Previous(s.rows, job.name));
    var dns := EnsureRecord(s.records, job, w);
    if DnsStops(dns.ensured) then Finished(State(reverted, dns.records, s.data), RolledBack)
    else
      var data := Units(s.data, job, w);
      match Verdict(job, w)
      case Confirmed => Finished(State(claimed[job.name := job.row], dns.records, data), Confirmed)
      case LeftRunning => Finished(State(claimed, Dns.Discarded(dns.records, dns.ensured, w.dns), data), LeftRunning)
      case _ => Finished(State(reverted, Dns.Discarded(dns.records, dns.ensured, w.dns), Rollback(data, s, job, w)), RolledBack)
  }

  /******* The states a deploy goes through *******/

  /** The state after each change to the zone. */
  function RecordStages(s: State, zones: seq<seq<Dns.Record>>): (r: seq<State>)
    ensures |r| == |zones| && forall k :: 0 <= k < |r| ==> r[k] == s.(records := zones[k])
  {
    seq(|zones|, k requires 0 <= k < |zones| => s.(records := zones[k]))
  }

  /** The state after each item the units made. */
  function MadeStages(s: State, planned: set<Item>, made: seq<Item>): (r: seq<State>)
    ensures |r| == |made| && forall k :: 0 <= k < |r| ==> r[k] == s.(data := s.data + Elements(made[..k + 1]) * planned)
  {
    seq(|made|, k requires 0 <= k < |made| => s.(data := s.data + Elements(made[..k + 1]) * planned))
  }

  /** The state after each item a rollback removed. */
  function RemovedStages(s: State, created: set<Item>, removed: seq<Item>): (r: seq<State>)
    ensures |r| == |removed| && forall k :: 0 <= k < |r| ==> r[k] == s.(data := s.data - created * Elements(removed[..k + 1]))
  {
    seq(|removed|, k requires 0 <= k < |removed| => s.(data := s.data - created * Elements(removed[..k + 1])))
  }

  predicate TearsDown(job: Job, baseline: bool, w: World) {
    Verdict(job, w).RolledBack? && !baseline
  }

  /** From the units to the smoke test, or to the end of the rollback. */
  function UnitStages(s: State, job: Job, baseline: bool, preexisting: Option<set<Item>>, w: World): seq<State> {
    if !Reached(job, w) then []
    else
      MadeStages(s, job.planned, w.made)
      + if TearsDown(job, baseline, w)
        then RemovedStages(s.(data := Units(s.data, job, w)), CreatedInRun(job.planned, preexisting), w.removed) else []
  }

  function DnsStages(records: seq<Dns.Record>, job: Job, w: World): seq<seq<Dns.Record>> {
    match job.hostname
    case None => []
    case Some(n) => Dns.EnsureStages(records, n, job.forceDns, w.dns)
  }

  function Claimed(s: State, job: Job): State {
    s.(rows := Claim(s.rows, job.name, job.row))
  }

  /** With the record written, or as far as that got. */
  function Written(s: State, job: Job, w: World): State {
    Claimed(s, job).(records := EnsureRecord(s.records, job, w).records)
  }

  /** With the units up, or their data as the rollback left it. */
  function Settled(s: State, job: Job, w: World): State {
    var t := Written(s, job, w);
    t.(data := if Verdict(job, w).RolledBack? then Rollback(Units(s.data, job, w), s, job, w) else Units(s.data, job, w))
  }

  /** Writing the claim, then the record. */
  function HeadStages(s: State, job: Job, w: World): seq<State> {
    [Claimed(s, job)] + RecordStages(Claimed(s, job), DnsStages(s.records, job, w))
  }

  /** With the record in place, up to the last change before the claim is confirmed or undone. */
  function TailStages(s: State, job: Job, w: World): seq<State> {
    var dns := EnsureRecord(s.records, job, w);
    if DnsStops(dns.ensured) then []
    else
      UnitStages(Written(s, job, w), job, HasBaseline(s.rows, job.name), Preexisting(s, job, w), w)
      + if Verdict(job, w).Confirmed? then []
        else RecordStages(Settled(s, job, w), Dns.DiscardStages(dns.records, dns.ensured, w.dns))
  }

  function HeldStages(s: State, job: Job, w: World): seq<State> {
    HeadStages(s, job, w) + TailStages(s, job, w)
  }

  /** Confirming the claim or undoing it; an app left running keeps it. */
  function LastStage(s: State, job: Job, w: World): seq<State> {
    var d := Saga(s, job, w);
    if d.ending.LeftRunning? then [] else [d.state]
  }

  /** Every state a deploy goes through after the one it starts in. */
  function Stages(s: State, job: Job, w: World): seq<State> {
    HeldStages(s, job, w) + LastStage(s, job, w)
  }

  class Host {
    const ledger: Store
    const zone: Dns.Zone
    var data: set<Item>
    // The state after each effect, in order.
    ghost var trace: seq<State>

    constructor (ledger: Store, zone: Dns.Zone)
      ensures this.ledger == ledger && this.zone == zone && data == {} && trace == []
    {
      this.ledger, this.zone := ledger, zone;
      data, trace := {}, [];
    }

    ghost function View(): State
      reads this, ledger, zone
    {
      State(ledger.rows, zone.records, data)
    }

    ghost method Note()
      modifies this`trace
      ensures trace == old(trace) + [View()]
    {
      trace := trace + [View()];
    }

    /** The zone went through `zones` since; nothing else changed. */
    ghost method NoteZone(zones: seq<seq<Dns.Record>>)
      modifies this`trace
      ensures trace == old(trace) + RecordStages(View(), zones)
    {
      trace := trace + RecordStages(View(), zones);
    }

    /** Tears down exactly what the run created, or leaves the data of a redeploy alone. */
    method RollbackDeploy(job: Job, baseline: bool, preexisting: Option<set<Item>>, w: World)
      modifies this`data, this`trace
      ensures data == if baseline then old(data) else old(data) - CreatedInRun(job.planned, preexisting) * Elements(w.removed)
      ensures trace == old(trace) + if baseline then [] else RemovedStages(old(View()), CreatedInRun(job.planned, preexisting), w.removed)
    {
      if baseline { return; }
      var created := {};
      if preexisting.Some? { created := job.planned - preexisting.value; }
      ghost var stages := RemovedStages(View(), created, w.removed);
      var i := 0;
      while i < |w.removed|
        invariant 0 <= i <= |w.removed|
        invariant data == old(data) - created * Elements(w.removed[..i])
        invariant trace == old(trace) + stages[..i]
      {
        OneMore(w.removed, i);
        if w.removed[i] in created { data := data - {w.removed[i]}; }
        assert View() == stages[i];
        Note();
        NextStage(old(trace), stages, i);
        i := i + 1;
      }
      assert w.removed[..i] == w.removed;
    }

    /** Units up and the smoke test green, or the host put back. */
    method GateOrRollback(job: Job, baseline: bool, preexisting: Option<set<Item>>, w: World) returns (ending: Ending)
      modifies this`data, this`trace
      ensures ending == if !w.unitsOk then RolledBack else if w.smokeOk then Confirmed else if w.leaveRunning then LeftRunning else RolledBack
      ensures data == if ending.RolledBack? && !baseline then old(data) - CreatedInRun(job.planned, preexisting) * Elements(w.removed) else old(data)
      ensures trace == old(trace)
        + if ending.RolledBack? && !baseline then RemovedStages(old(View()), CreatedInRun(job.planned, preexisting), w.removed) else []
    {
      if !w.unitsOk {
        RollbackDeploy(job, baseline, preexisting, w);
        return RolledBack;
      }
      if w.smokeOk { return Confirmed; }
      if w.leaveRunning { return LeftRunning; }
      RollbackDeploy(job, baseline, preexisting, w);
      return RolledBack;
    }

    /** The units bring the app's data into being, item by item. */
    method StartUnits(job: Job, w: World)
      modifies this`data, this`trace
      ensures data == old(data) + Elements(w.made) * job.planned
      ensures trace == old(trace) + MadeStages(old(View()), job.planned, w.made)
    {
      ghost var stages := MadeStages(View(), job.planned, w.made);
      var i := 0;
      while i < |w.made|
        invariant 0 <= i <= |w.made|
        invariant data == old(data) + Elements(w.made[..i]) * job.planned
        invariant trace == old(trace) + stages[..i]
      {
        OneMore(w.made, i);
        if w.made[i] in job.planned { data := data + {w.made[i]}; }
        assert View() == stages[i];
        Note();
        NextStage(old(trace), stages, i);
        i := i + 1;
      }
      assert w.made[..i] == w.made;
    }

    /** From the ingress to the smoke test; the caller undoes the DNS record and the ledger claim. */
    method DeployUnits(job: Job, baseline: bool, preexisting: Option<set<Item>>, w: World) returns (ending: Ending)
      modifies this`data, this`trace
      ensures ending == Verdict(job, w)
      ensures data == if !ending.RolledBack? || !Reached(job, w) || baseline then Units(old(data), job, w)
                      else Units(old(data), job, w) - CreatedInRun(job.planned, preexisting) * Elements(w.removed)
      ensures trace == old(trace) + UnitStages(old(View()), job, baseline, preexisting, w)
    {
      if job.hostname.Some? && !w.ingressUp { return RolledBack; }
      if !w.pullOk { return RolledBack; }
      StartUnits(job, w);
      ending := GateOrRollback(job, baseline, preexisting, w);
    }

    method EnsureDnsRecord(job: Job, w: World) returns (ensured: Dns.Ensured)
      modifies zone, this`trace
      ensures Dns.Result(zone.records, ensured) == EnsureRecord(old(zone.records), job, w)
      ensures trace == old(trace) + RecordStages(old(View()), DnsStages(old(zone.records), job, w))
    {
      ghost var before := View();
      match job.hostname
      case None => ensured := Dns.NoZone;
      case Some(n) =>
        ensured := zone.EnsureARecord(n, job.forceDns, w.dns);
        NoteZone(DnsStages(before.records, job, w));
        SameButRecords(before, View(), DnsStages(before.records, job, w));
    }

    method DiscardDnsRecord(ensured: Dns.Ensured, w: World)
      modifies zone, this`trace
      ensures zone.records == Dns.Discarded(old(zone.records), ensured, w.dns)
      ensures trace == old(trace) + RecordStages(old(View()), Dns.DiscardStages(old(zone.records), ensured, w.dns))
    {
      ghost var before := View();
      zone.DiscardRecord(ensured, w.dns);
      NoteZone(Dns.DiscardStages(before.records, ensured, w.dns));
      SameButRecords(before, View(), Dns.DiscardStages(before.records, ensured, w.dns));
    }

    /** The deploy behind its record: whatever fails takes the record back, and then the claim. */
    method DeployBehindRecord(ghost s: State, job: Job, prev: Option<Row>, ensured: Dns.Ensured, w: World) returns (ending: Ending)
      requires View() == Written(s, job, w) && prev == Previous(s.rows, job.name)
      requires ensured == EnsureRecord(s.records, job, w).ensured && !DnsStops(ensured)
      modifies ledger, this`data, this`trace, zone
      ensures Finished(View(), ending) == Saga(s, job, w)
      ensures trace == old(trace) + (TailStages(s, job, w) + LastStage(s, job, w))
    {
      var baseline := prev.Some? && prev.value.status == Deployed;
      var preexisting := None;
      if !baseline { preexisting := Probe(data, job.planned, w); }
      ghost var before := trace;
      ending := DeployUnits(job, baseline, preexisting, w);
      ghost var units := UnitStages(Written(s, job, w), job, baseline, preexisting, w);
      ghost var discards: seq<State> := [];
      if ending.Confirmed? {
        ledger.SaveInstall(job.name, job.row);
        Note();
      } else {
        discards := RecordStages(Settled(s, job, w), Dns.DiscardStages(zone.records, ensured, w.dns));
        DiscardDnsRecord(ensured, w);
        if !ending.LeftRunning? {
          ledger.RevertInstall(job.name, prev);
          Note();
        }
      }
      assert TailStages(s, job, w) == units + discards;
      Regroup(before, units, discards, LastStage(s, job, w));
    }

    /** The claim first, then the record. */
    method ClaimInstall(job: Job, w: World) returns (ensured: Dns.Ensured)
      modifies ledger, zone, this`trace
      ensures View() == Written(old(View()), job, w) && ensured == EnsureRecord(old(zone.records), job, w).ensured
      ensures trace == old(trace) + HeadStages(old(View()), job, w)
    {
      ledger.BeginInstall(job.name, job.row);
      Note();
      ensured := EnsureDnsRecord(job, w);
    }

    /** Claims the install, writes the record, probes, deploys; on failure takes back the record and
        then the claim, unless the app was left running. Between the first change and the last the
        ledger holds the claim, and nothing but the claim, on top of what it held. */
    method DeployApp(job: Job, w: World) returns (ending: Ending)
      modifies ledger, this`data, this`trace, zone
      ensures Finished(View(), ending) == Saga(old(View()), job, w)
      ensures trace == old(trace) + Stages(old(View()), job, w)
      ensures forall i :: |old(trace)| <= i < |trace| - 1 ==> trace[i].rows == Claim(old(ledger.rows), job.name, job.row)
    {
      ghost var s, before := View(), trace;
      var prev := Previous(ledger.rows, job.name);
      var ensured := ClaimInstall(job, w);
      if ensured.Refused? || ensured.ProviderFailed? {
        ledger.RevertInstall(job.name, prev);
        Note();
        ending := RolledBack;
      } else {
        ending := DeployBehindRecord(s, job, prev, ensured, w);
      }
      Pieces(s, job, w, before, trace);
    }
  }

  lemma Regroup(before: seq<State>, a: seq<State>, b: seq<State>, c: seq<State>)
    ensures before + a + b + c == before + ((a + b) + c) && before + a + (b + c) == before + ((a + b) + c)
  {
  }

  lemma AllButLast(before: seq<State>, held: seq<State>, last: seq<State>, rows: Ledger)
    requires |last| <= 1 && forall i :: 0 <= i < |held| ==> held[i].rows == rows
    ensures var after := before + (held + last); forall i :: |before| <= i < |after| - 1 ==> after[i].rows == rows
  {
    var after := before + (held + last);
    forall i | |before| <= i < |after| - 1 ensures after[i].rows == rows { assert after[i] == held[i - |before|]; }
  }

  lemma Pieces(s: State, job: Job, w: World, before: seq<State>, after: seq<State>)
    requires after == before + HeadStages(s, job, w) + (TailStages(s, job, w) + LastStage(s, job, w))
    ensures after == before + Stages(s, job, w)
    ensures forall i :: |before| <= i < |after| - 1 ==> after[i].rows == Claim(s.rows, job.name, job.row)
  {
    HeldRows(s, job, w);
    Regroup(before, HeadStages(s, job, w), TailStages(s, job, w), LastStage(s, job, w));
    AllButLast(before, HeldStages(s, job, w), LastStage(s, job, w), Claim(s.rows, job.name, job.row));
  }

  lemma NextStage(before: seq<State>, stages: seq<State>, i: nat)
    requires i < |stages|
    ensures before + stages[..i] + [stages[i]] == before + stages[..i + 1]
  {
  }

  lemma OneMore(items: seq<Item>, i: nat)
    requires i < |items|
    ensures Elements(items[..i + 1]) == Elements(items[..i]) + {items[i]}
  {
    assert items[..i + 1] == items[..i] + [items[i]];
  }

  lemma SameButRecords(a: State, b: State, zones: seq<seq<Dns.Record>>)
    requires b == a.(records := b.records)
    ensures RecordStages(b, zones) == RecordStages(a, zones)
  {
  }

  lemma HeadRows(s: State, job: Job, w: World)
    ensures forall i :: 0 <= i < |HeadStages(s, job, w)| ==> HeadStages(s, job, w)[i].rows == Claim(s.rows, job.name, job.row)
  {
  }

  lemma TailRows(s: State, job: Job, w: World)
    ensures forall i :: 0 <= i < |TailStages(s, job, w)| ==> TailStages(s, job, w)[i].rows == Claim(s.rows, job.name, job.row)
  {
  }

  lemma HeldRows(s: State, job: Job, w: World)
    ensures forall i :: 0 <= i < |HeldStages(s, job, w)| ==> HeldStages(s, job, w)[i].rows == Claim(s.rows, job.name, job.row)
  {
    HeadRows(s, job, w);
    TailRows(s, job, w);
  }

  /******* What a failed deploy leaves behind *******/

  /** Wherever it failed, the ledger is what it was before, unless the app was left running, whose
      row then stays to find it by. */
  lemma {:induction false} FailureRestoresLedger(s: State, job: Job, w: World)
    ensures var d := Saga(s, job, w);
            match d.ending
            case RolledBack => d.state.rows == s.rows
            case LeftRunning => d.state.rows == s.rows[job.name := job.row.(status := Installing)]
            case _ => d.ending == Confirmed && d.state.rows == s.rows[job.name := job.row]
  {
    RevertRestores(s.rows, job.name, job.row);
  }

  function Ensured(s: State, job: Job, w: World): Dns.Ensured {
    EnsureRecord(s.records, job, w).ensured
  }

  /** The record this run writes, when it writes one. */
  function OwnRecord(job: Job, w: World): Dns.Record
    requires job.hostname.Some?
  {
    Dns.Record(w.dns.newId, Dns.A, job.hostname.value.relative, job.hostname.value.ip)
  }

  /** The run was told to repoint the name, and the provider deletes the first address there. */
  predicate RepointStarts(s: State, job: Job, w: World) {
    job.hostname.Some? && Dns.SweepStarts(s.records, job.hostname.value, job.forceDns, w.dns)
  }

  /** A record written over other addresses is never deleted, nor is one whose delete the provider
      refuses: nobody hears of the refusal. */
  predicate OwnStays(s: State, job: Job, w: World) {
    Ensured(s, job, w).Wrote?
    && (Ensured(s, job, w).action == Dns.Repointed || (Ensured(s, job, w).action == Dns.Created && w.dns.deleteFails(w.dns.newId)))
  }

  lemma FailedZone(s: State, job: Job, w: World)
    requires !Saga(s, job, w).ending.Confirmed?
    ensures Saga(s, job, w).state.records == Dns.Discarded(EnsureRecord(s.records, job, w).records, Ensured(s, job, w), w.dns)
    ensures job.hostname.None? ==> Saga(s, job, w).state.records == s.records
  {
  }

  /** Where a deploy fails, the zone is what it was exactly when no address was deleted to repoint
      the name and the provider did not refuse to delete the record this run had added. If only
      the latter went wrong the zone holds that one record more. */
  lemma {:induction false} FailureRestoresZone(s: State, job: Job, w: World)
    requires Dns.FreshId(s.records, w.dns) && !Saga(s, job, w).ending.Confirmed?
    ensures Saga(s, job, w).state.records == s.records
            <==> !RepointStarts(s, job, w) && !(Dns.MustDiscard(Ensured(s, job, w)) && w.dns.deleteFails(w.dns.newId))
    ensures !RepointStarts(s, job, w) && Dns.MustDiscard(Ensured(s, job, w)) && w.dns.deleteFails(w.dns.newId) ==>
              job.hostname.Some? && Saga(s, job, w).state.records == s.records + [OwnRecord(job, w)]
  {
    FailedZone(s, job, w);
    match job.hostname
    case None =>
    case Some(n) => Dns.DiscardRestoresIff(s.records, n, job.forceDns, w.dns);
  }

  /** The record this run wrote outlives the failure exactly when it was written over other addresses
      or its delete is refused; it is the only record gained. A record is lost only to a forced
      repoint, and only one whose id is that of an address published there for somewhere else. */
  lemma {:induction false} FailureDropsOwnRecord(s: State, job: Job, w: World, r: Dns.Record)
    requires Dns.FreshId(s.records, w.dns) && !Saga(s, job, w).ending.Confirmed?
    ensures r in Saga(s, job, w).state.records && r !in s.records
            <==> job.hostname.Some? && r == OwnRecord(job, w) && OwnStays(s, job, w)
    ensures r in s.records && r !in Saga(s, job, w).state.records ==>
              RepointStarts(s, job, w)
              && exists t :: t in s.records && Dns.Elsewhere(t, job.hostname.value) && t.recordId == r.recordId
  {
    FailedZone(s, job, w);
    match job.hostname
    case None =>
    case Some(n) =>
      Dns.DiscardedIs(s.records, n, job.forceDns, w.dns, r);
      if r in s.records && r !in Saga(s, job, w).state.records { FailureRestoresZone(s, job, w); }
  }

  /******* The saga as a step of the ledger *******/

  /** The job deploys what was planned for `d` over this ledger. */
  predicate Plans(s: State, job: Job, d: Deploy) {
    && PlanFor(s.rows, d).Some? && job.name == d.name
    && job.row == ToRow(d.components, PlanFor(s.rows, d).value)
  }

  /** To the ledger a deploy is the event named after how it ends, and wherever it is cut short the
      event of an interrupted one. */
  lemma {:induction false} SagaIsLedgerStep(s: State, job: Job, w: World, d: Deploy, i: nat)
    requires Plans(s, job, d) && i < |Stages(s, job, w)|
    ensures Saga(s, job, w).state.rows == Step(s.rows, DeployE(d, Saga(s, job, w).ending))
    ensures Stages(s, job, w)[i].rows == Step(s.rows, DeployE(d, Interrupted))
            || (i == |Stages(s, job, w)| - 1 && Stages(s, job, w)[i].rows == Step(s.rows, DeployE(d, Saga(s, job, w).ending)))
  {
    SagaEnds(s, job, w, d);
    RecordIs(s.rows, d, Interrupted);
    InterruptionIsRecorded(s, job, w, i);
  }

  lemma {:induction false} SagaEnds(s: State, job: Job, w: World, d: Deploy)
    requires Plans(s, job, d)
    ensures Saga(s, job, w).state.rows == Step(s.rows, DeployE(d, Saga(s, job, w).ending))
  {
    FailureRestoresLedger(s, job, w);
    RecordIs(s.rows, d, Saga(s, job, w).ending);
  }

  /** Over any run of the ledger followed by a deploy, cut short wherever it may be: no two installs
      share a port. */
  lemma {:induction false} PortsApartThroughout(events: seq<Event>, s: State, job: Job, w: World, d: Deploy, i: nat)
    requires s.rows == Run(events) && Plans(s, job, d) && i < |Stages(s, job, w)|
    ensures Disjoint(Stages(s, job, w)[i].rows) && Keyed(Stages(s, job, w)[i].rows)
  {
    SagaIsLedgerStep(s, job, w, d, i);
    PortsStayDisjoint(events);
    PortsStayKeyed(events);
    DisjointStep(s.rows, DeployE(d, Interrupted));
    DisjointStep(s.rows, DeployE(d, Saga(s, job, w).ending));
    KeyedStep(s.rows, DeployE(d, Interrupted));
    KeyedStep(s.rows, DeployE(d, Saga(s, job, w).ending));
  }

  /** No deploy, failed or not, ever removes data that was there before it. */
  lemma {:induction false} DataIsNeverLost(s: State, job: Job, w: World)
    ensures s.data <= Saga(s, job, w).state.data
  {
  }

  /** What the units of this run brought into being. */
  function NewItems(s: State, job: Job, w: World): set<Item> {
    if DnsStops(EnsureRecord(s.records, job, w).ensured) then {} else Units(s.data, job, w) - s.data
  }

  /** A failed first install leaves the data as it found it exactly when it made nothing, or knew
      what it had made and could remove it all. */
  lemma {:induction false} FirstInstallRestoresData(s: State, job: Job, w: World)
    requires !HasBaseline(s.rows, job.name) && Saga(s, job, w).ending.RolledBack?
    ensures Saga(s, job, w).state.data == s.data <==>
      NewItems(s, job, w) == {} || (w.probeRan && NewItems(s, job, w) <= Elements(w.removed))
  {
    var made := NewItems(s, job, w);
    var after := Saga(s, job, w).state.data;
    if !DnsStops(EnsureRecord(s.records, job, w).ensured) && Reached(job, w) {
      if w.probeRan {
        assert made <= CreatedInRun(job.planned, Preexisting(s, job, w));
        assert forall x :: x in after <==> x in s.data || (x in made && x !in Elements(w.removed));
      } else {
        assert after == s.data + made;
      }
    }
  }

  /** A failed redeploy keeps all data it made: a restored install may still need it. */
  lemma {:induction false} RedeployKeepsData(s: State, job: Job, w: World)
    requires HasBaseline(s.rows, job.name)
    ensures Saga(s, job, w).state.data == s.data + NewItems(s, job, w)
  {
  }

  /******* Where an interrupted deploy can stop *******/

  /** One effect: a ledger write, one record, or one item of data. */
  ghost predicate OneEffect(a: State, b: State) {
    || b == a.(rows := b.rows)
    || (b == a.(records := b.records) && Dns.OneRecord(a.records, b.records))
    || (b == a.(data := b.data) && exists x :: b.data == a.data + {x} || b.data == a.data - {x})
  }

  function Earlier(first: State, stages: seq<State>, i: nat): State
    requires i <= |stages|
  {
    if i == 0 then first else stages[i - 1]
  }

  /** From `first` to `last`, one effect at a time. */
  ghost predicate Through(first: State, stages: seq<State>, last: State) {
    last == Earlier(first, stages, |stages|) && forall i :: 0 <= i < |stages| ==> OneEffect(Earlier(first, stages, i), stages[i])
  }

  lemma EarlierJoin(first: State, a: seq<State>, b: seq<State>, i: nat)
    requires i < |a + b|
    ensures i < |a| ==> (a + b)[i] == a[i] && Earlier(first, a + b, i) == Earlier(first, a, i)
    ensures i >= |a| ==> (a + b)[i] == b[i - |a|] && Earlier(first, a + b, i) == Earlier(Earlier(first, a, |a|), b, i - |a|)
    ensures Earlier(first, a + b, |a + b|) == Earlier(Earlier(first, a, |a|), b, |b|)
  {
  }

  lemma ThroughJoin(first: State, a: seq<State>, middle: State, b: seq<State>, last: State)
    requires Through(first, a, middle) && Through(middle, b, last)
    ensures Through(first, a + b, last)
  {
    forall i | 0 <= i < |a + b| ensures OneEffect(Earlier(first, a + b, i), (a + b)[i]) { EarlierJoin(first, a, b, i); }
    if b == [] { assert a + b == a; } else { EarlierJoin(first, a, b, |a|); }
  }

  lemma RecordsThrough(s: State, zones: seq<seq<Dns.Record>>, records: seq<Dns.Record>)
    requires Dns.Steps(s.records, zones, records)
    ensures Through(s, RecordStages(s, zones), s.(records := records))
  {
    var stages := RecordStages(s, zones);
    forall i | 0 <= i < |stages| ensures OneEffect(Earlier(s, stages, i), stages[i]) {
      assert Dns.OneRecord(Dns.Earlier(s.records, zones, i), zones[i]);
      assert Earlier(s, stages, i) == s.(records := Dns.Earlier(s.records, zones, i));
    }
  }

  lemma MadeThrough(s: State, planned: set<Item>, made: seq<Item>)
    ensures Through(s, MadeStages(s, planned, made), s.(data := s.data + Elements(made) * planned))
  {
    var stages := MadeStages(s, planned, made);
    assert made[..|made|] == made && Elements([]) == {};
    forall i | 0 <= i < |stages| ensures OneEffect(Earlier(s, stages, i), stages[i]) {
      OneMore(made, i);
      assert made[..0] == [] && Earlier(s, stages, i) == s.(data := s.data + Elements(made[..i]) * planned);
      OneItemMore(s, Elements(made[..i]), made[i], planned);
    }
  }

  lemma OneItemMore(s: State, before: set<Item>, x: Item, planned: set<Item>)
    ensures OneEffect(s.(data := s.data + before * planned), s.(data := s.data + (before + {x}) * planned))
  {
    var a, b := s.data + before * planned, s.data + (before + {x}) * planned;
    if x in planned { assert b == a + {x}; } else { assert b == a; }
  }

  lemma RemovedThrough(s: State, created: set<Item>, removed: seq<Item>)
    ensures Through(s, RemovedStages(s, created, removed), s.(data := s.data - created * Elements(removed)))
  {
    var stages := RemovedStages(s, created, removed);
    assert removed[..|removed|] == removed && Elements([]) == {};
    forall i | 0 <= i < |stages| ensures OneEffect(Earlier(s, stages, i), stages[i]) {
      OneMore(removed, i);
      assert removed[..0] == [] && Earlier(s, stages, i) == s.(data := s.data - created * Elements(removed[..i]));
      OneItemLess(s, Elements(removed[..i]), removed[i], created);
    }
  }

  lemma OneItemLess(s: State, before: set<Item>, x: Item, created: set<Item>)
    ensures OneEffect(s.(data := s.data - created * before), s.(data := s.data - created * (before + {x})))
  {
    var a, b := s.data - created * before, s.data - created * (before + {x});
    if x in created { assert b == a - {x}; } else { assert b == a; }
  }

  lemma UnitsThrough(s: State, job: Job, baseline: bool, preexisting: Option<set<Item>>, w: World)
    ensures Through(s, UnitStages(s, job, baseline, preexisting, w),
                    s.(data := if Reached(job, w) && TearsDown(job, baseline, w)
                               then Units(s.data, job, w) - CreatedInRun(job.planned, preexisting) * Elements(w.removed)
                               else Units(s.data, job, w)))
  {
    if Reached(job, w) {
      var up := s.(data := Units(s.data, job, w));
      var created := CreatedInRun(job.planned, preexisting);
      var made := MadeStages(s, job.planned, w.made);
      MadeThrough(s, job.planned, w.made);
      if TearsDown(job, baseline, w) {
        RemovedThrough(up, created, w.removed);
        ThroughJoin(s, made, up, RemovedStages(up, created, w.removed), up.(data := up.data - created * Elements(w.removed)));
      } else {
        assert made + [] == made;
      }
    }
  }

  lemma LedgerWrite(s: State, rows: Ledger)
    ensures Through(s, [s.(rows := rows)], s.(rows := rows))
  {
  }

  lemma WrittenThrough(s: State, job: Job, w: World)
    ensures Through(s, HeadStages(s, job, w), Written(s, job, w))
  {
    var claimed := Claimed(s, job);
    LedgerWrite(s, claimed.rows);
    match job.hostname {
      case None =>
      case Some(n) => Dns.EnsureSteps(s.records, n, job.forceDns, w.dns);
    }
    RecordsThrough(claimed, DnsStages(s.records, job, w), Written(s, job, w).records);
    ThroughJoin(s, [claimed], claimed, RecordStages(claimed, DnsStages(s.records, job, w)), Written(s, job, w));
  }

  /** The state just before the claim is confirmed or undone. */
  function Closing(s: State, job: Job, w: World): State {
    var dns := EnsureRecord(s.records, job, w);
    if DnsStops(dns.ensured) then Written(s, job, w)
    else if Verdict(job, w).Confirmed? then Settled(s, job, w)
    else Settled(s, job, w).(records := Dns.Discarded(dns.records, dns.ensured, w.dns))
  }

  lemma HeldThrough(s: State, job: Job, w: World)
    ensures Through(s, HeldStages(s, job, w), Closing(s, job, w))
  {
    var dns := EnsureRecord(s.records, job, w);
    var first := HeadStages(s, job, w);
    var written, deployed := Written(s, job, w), Settled(s, job, w);
    WrittenThrough(s, job, w);
    if DnsStops(dns.ensured) {
      assert first + [] == first;
    } else {
      var units := UnitStages(written, job, HasBaseline(s.rows, job.name), Preexisting(s, job, w), w);
      UnitsThrough(written, job, HasBaseline(s.rows, job.name), Preexisting(s, job, w), w);
      if Verdict(job, w).Confirmed? {
        assert units + [] == units;
        ThroughJoin(s, first, written, units, deployed);
      } else {
        var discards := RecordStages(deployed, Dns.DiscardStages(dns.records, dns.ensured, w.dns));
        Dns.DiscardSteps(dns.records, dns.ensured, w.dns);
        RecordsThrough(deployed, Dns.DiscardStages(dns.records, dns.ensured, w.dns), Closing(s, job, w).records);
        ThroughJoin(written, units, deployed, discards, Closing(s, job, w));
        ThroughJoin(s, first, written, units + discards, Closing(s, job, w));
      }
    }
  }

  lemma LastWrite(s: State, job: Job, w: World)
    ensures var d, closing := Saga(s, job, w), Closing(s, job, w);
            && d.state == closing.(rows := d.state.rows) && (d.ending.LeftRunning? ==> d.state == closing)
  {
  }

  /** The stages leave out nothing: each is one ledger write, one record or one item away from the
      one before, from the state the deploy starts in to the one it ends in. */
  lemma StagesAreEffects(s: State, job: Job, w: World)
    ensures Through(s, Stages(s, job, w), Saga(s, job, w).state)
  {
    var held, closing, d := HeldStages(s, job, w), Closing(s, job, w), Saga(s, job, w);
    HeldThrough(s, job, w);
    LastWrite(s, job, w);
    if d.ending.LeftRunning? {
      assert held + [] == held;
    } else {
      LedgerWrite(closing, d.state.rows);
      assert LastStage(s, job, w) == [d.state];
      ThroughJoin(s, held, closing, [d.state], d.state);
    }
  }

  /** Wherever a deploy is cut short, an app that has touched the host or the zone is in the ledger
      under its claim, unless the run is over: confirmed, or undone with the claim as its last act. */
  lemma {:induction false} InterruptionIsRecorded(s: State, job: Job, w: World, i: nat)
    requires i < |Stages(s, job, w)|
    ensures var stage := Stages(s, job, w)[i];
            || (stage.rows == Claim(s.rows, job.name, job.row) && stage.rows[job.name].status == Installing)
            || (i == |Stages(s, job, w)| - 1 && stage == Saga(s, job, w).state && !Saga(s, job, w).ending.LeftRunning?)
    ensures s.data <= Stages(s, job, w)[i].data
  {
    HeldRows(s, job, w);
    StagesKeepData(s, job, w);
  }

  lemma HeadKeepsData(s: State, job: Job, w: World)
    ensures forall i :: 0 <= i < |HeadStages(s, job, w)| ==> s.data <= HeadStages(s, job, w)[i].data
  {
  }

  lemma TailKeepsData(s: State, job: Job, w: World)
    ensures forall i :: 0 <= i < |TailStages(s, job, w)| ==> s.data <= TailStages(s, job, w)[i].data
  {
  }

  lemma StagesKeepData(s: State, job: Job, w: World)
    ensures forall i :: 0 <= i < |Stages(s, job, w)| ==> s.data <= Stages(s, job, w)[i].data
  {
    HeadKeepsData(s, job, w);
    TailKeepsData(s, job, w);
    DataIsNeverLost(s, job, w);
  }
}
