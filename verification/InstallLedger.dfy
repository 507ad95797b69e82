/** The installs of one host, over whole runs of deploys that succeed, fail or never return. */
module InstallLedger {
  import opened Optional
  import opened HostPorts

  datatype Status = Installing | Deployed

  datatype ComponentRow = ComponentRow(name: string, published: seq<Published>)

  datatype Row = Row(status: Status, components: seq<ComponentRow>, endpoints: seq<nat>)

  type Ledger = map<string, Row>

  /******* From rows to reservations and back *******/

  function BindingsOf(name: string, published: seq<Published>): (bindings: seq<Binding>)
    ensures |bindings| == |published|
    ensures forall i :: 0 <= i < |published| ==> bindings[i] == Binding(name, published[i].container, published[i].host)
  {
    seq(|published|, i requires 0 <= i < |published| => Binding(name, published[i].container, published[i].host))
  }

  function RowBindings(components: seq<ComponentRow>): seq<Binding> {
    if components == [] then []
    else
      var last := components[|components| - 1];
      RowBindings(components[..|components| - 1]) + BindingsOf(last.name, last.published)
  }

  function Ports(endpoints: seq<nat>): set<nat> {
    set p | p in endpoints
  }

  function OthersPorts(ledger: Ledger, name: string): set<nat> {
    set n, p | n in ledger && n != name && p in ledger[n].endpoints :: p
  }

  /** An install keeps the ports it published; every other install keeps its own, running or not. */
  function ReservationsFor(ledger: Ledger, name: string): Reservations {
    Reservations(if name in ledger then Own(RowBindings(ledger[name].components)) else map[], OthersPorts(ledger, name))
  }

  function Hosts(bindings: seq<Binding>): (hosts: seq<nat>)
    ensures |hosts| == |bindings| && forall i :: 0 <= i < |hosts| ==> hosts[i] == bindings[i].host
  {
    seq(|bindings|, i requires 0 <= i < |bindings| => bindings[i].host)
  }

  function ComponentRows(components: seq<Component>, ports: map<string, seq<Published>>): seq<ComponentRow> {
    if components == [] then []
    else
      var last := components[|components| - 1];
      ComponentRows(components[..|components| - 1], ports)
        + [ComponentRow(last.name, if last.name in ports then ports[last.name] else [])]
  }

  function ToRow(components: seq<Component>, plan: Planned): Row {
    Row(Deployed, ComponentRows(components, plan.ports), Hosts(plan.bindings))
  }

  /******* What can happen to a host's ledger *******/

  /** How a deploy ends: before it touched anything, by never returning, by a failure that leaves the
      app running on purpose, by a failure that put everything back, or well. */
  datatype Ending = Refused | Interrupted | LeftRunning | RolledBack | Confirmed

  datatype Deploy = Deploy(name: string, components: seq<Component>, listening: set<nat>, coexistence: bool, ingress: bool, routes: set<Key>)

  datatype Event = DeployE(deploy: Deploy, ending: Ending) | UnexposeE(name: string) | RemoveE(name: string)

  function SettingOf(ledger: Ledger, d: Deploy): Setting {
    Setting(d.coexistence, d.ingress, d.routes, ReservationsFor(ledger, d.name).own)
  }

  function PlanFor(ledger: Ledger, d: Deploy): Option<Planned> {
    BindAll(SettingOf(ledger, d), InUse(d.listening, d.ingress, ReservationsFor(ledger, d.name)), d.components)
  }

  function Claim(ledger: Ledger, name: string, row: Row): Ledger {
    ledger[name := row.(status := Installing)]
  }

  /** Puts the ledger back to the row that was there, or to none. */
  function Revert(ledger: Ledger, name: string, prev: Option<Row>): Ledger {
    match prev
    case Some(row) => ledger[name := row]
    case None => map n | n in ledger && n != name :: ledger[n]
  }

  function Previous(ledger: Ledger, name: string): Option<Row> {
    if name in ledger then Some(ledger[name]) else None
  }

  function Record(ledger: Ledger, d: Deploy, plan: Planned, ending: Ending): Ledger {
    var row := ToRow(d.components, plan);
    match ending
    case Refused => ledger
    case Interrupted => Claim(ledger, d.name, row)
    case LeftRunning => Claim(ledger, d.name, row)
    case RolledBack => Revert(Claim(ledger, d.name, row), d.name, Previous(ledger, d.name))
    case Confirmed => Claim(ledger, d.name, row)[d.name := row]
  }

  /** Unexposing rewrites the URLs of a row's endpoints and none of its ports. */
  function Step(ledger: Ledger, e: Event): Ledger {
    match e
    case DeployE(d, ending) => if PlanFor(ledger, d).Some? then Record(ledger, d, PlanFor(ledger, d).value, ending) else ledger
    case UnexposeE(_) => ledger
    case RemoveE(name) => map n | n in ledger && n != name :: ledger[n]
  }

  function Run(events: seq<Event>): Ledger {
    if events == [] then map[] else Step(Run(events[..|events| - 1]), events[|events| - 1])
  }

  /******* The ledger as the program keeps it *******/

  class Store {
    var rows: Ledger

    constructor ()
      ensures rows == map[]
    {
      rows := map[];
    }

    method BeginInstall(name: string, row: Row)
      modifies this
      ensures rows == Claim(old(rows), name, row)
    {
      rows := rows[name := row.(status := Installing)];
    }

    method RevertInstall(name: string, prev: Option<Row>)
      modifies this
      ensures rows == Revert(old(rows), name, prev)
    {
      if prev.Some? { rows := rows[name := prev.value]; } else { DeleteInstall(name); }
    }

    method SaveInstall(name: string, row: Row)
      modifies this
      ensures rows == old(rows)[name := row]
    {
      rows := rows[name := row];
    }

    method DeleteInstall(name: string)
      modifies this
      ensures rows == map n | n in old(rows) && n != name :: old(rows)[n]
    {
      rows := rows - {name};
    }

    /** Goes through the other installs and collects the ports of their endpoints. */
    method PortReservations(name: string) returns (r: Reservations)
      ensures r == ReservationsFor(rows, name)
    {
      var own := map[];
      if name in rows { own := Own(RowBindings(rows[name].components)); }
      var names, others := rows.Keys - {name}, {};
      ghost var all := names;
      while names != {}
        invariant names <= all
        invariant others == set n, p | n in all - names && p in rows[n].endpoints :: p
        decreases |names|
      {
        var n :| n in names;
        others := others + Ports(rows[n].endpoints);
        names := names - {n};
      }
      assert all - names == all;
      assert forall p :: p in others <==> p in OthersPorts(rows, name);
      r := Reservations(own, others);
    }

    /** A deploy as far as the ledger sees it: reserve, plan, claim, and confirm or revert. */
    method DeployInstall(d: Deploy, ending: Ending) returns (planned: bool)
      modifies this
      ensures planned <==> PlanFor(old(rows), d).Some?
      ensures rows == Step(old(rows), DeployE(d, ending))
    {
      var reservations := PortReservations(d.name);
      var prev := Previous(rows, d.name);
      var plan := PlanHostDeploy(d.components, d.listening, d.coexistence, d.ingress, d.routes, reservations);
      if plan.None? { return false; }
      planned := true;
      var install := ToRow(d.components, plan.value);
      if ending.Refused? { return; }
      BeginInstall(d.name, install);
      match ending {
        case RolledBack => RevertInstall(d.name, prev);
        case Confirmed => SaveInstall(d.name, install);
        case _ =>
      }
    }
  }

  /******* Ports over every run *******/

  predicate RowsDisjoint(a: Row, b: Row) {
    forall p :: p in a.endpoints ==> p !in b.endpoints
  }

  /** A row's published ports all have endpoints. */
  predicate Advertised(row: Row) {
    forall b :: b in RowBindings(row.components) ==> b.host in row.endpoints
  }

  ghost predicate Disjoint(ledger: Ledger) {
    && (forall a, b :: a in ledger && b in ledger && a != b ==> RowsDisjoint(ledger[a], ledger[b]))
    && (forall a :: a in ledger ==> Advertised(ledger[a]))
  }

  /** What a plan leaves in `ports` it also leaves among the bindings. */
  predicate PortsBound(ports: map<string, seq<Published>>, bindings: seq<Binding>) {
    forall name, p :: name in ports && p in ports[name] ==> Binding(name, p.container, p.host) in bindings
  }

  lemma {:induction false} BindPortsListed(s: Setting, start: Bound, component: string, ports: seq<PortPlan>)
    requires BindPorts(s, start, component, ports).Some?
    requires forall p :: p in start.published ==> Binding(component, p.container, p.host) in start.bindings
    ensures var b := BindPorts(s, start, component, ports).value;
            && start.bindings <= b.bindings
            && forall p :: p in b.published ==> Binding(component, p.container, p.host) in b.bindings
  {
    if ports != [] { BindPortsListed(s, start, component, ports[..|ports| - 1]); }
  }

  lemma {:induction false} PlanListed(s: Setting, start: set<nat>, components: seq<Component>)
    requires BindAll(s, start, components).Some?
    ensures var plan := BindAll(s, start, components).value; PortsBound(plan.ports, plan.bindings)
  {
    if components != [] {
      var last := components[|components| - 1];
      PlanListed(s, start, components[..|components| - 1]);
      var before := BindAll(s, start, components[..|components| - 1]).value;
      BindPortsListed(s, Bound([], before.bindings, before.used), last.name, last.ports);
    }
  }

  lemma {:induction false} RowListed(components: seq<Component>, plan: Planned)
    requires PortsBound(plan.ports, plan.bindings)
    ensures forall b :: b in RowBindings(ComponentRows(components, plan.ports)) ==> b in plan.bindings
  {
    if components != [] {
      var earlier, last := components[..|components| - 1], components[|components| - 1];
      RowListed(earlier, plan);
      var rows := ComponentRows(components, plan.ports);
      assert rows[..|rows| - 1] == ComponentRows(earlier, plan.ports);
    }
  }

  lemma {:induction false} PlannedAdvertised(ledger: Ledger, d: Deploy)
    requires PlanFor(ledger, d).Some?
    ensures Advertised(ToRow(d.components, PlanFor(ledger, d).value))
  {
    var plan := PlanFor(ledger, d).value;
    PlanListed(SettingOf(ledger, d), InUse(d.listening, d.ingress, ReservationsFor(ledger, d.name)), d.components);
    RowListed(d.components, plan);
    var row := ToRow(d.components, plan);
    forall b | b in RowBindings(row.components) ensures b.host in row.endpoints {
      var i :| 0 <= i < |plan.bindings| && plan.bindings[i] == b;
      assert Hosts(plan.bindings)[i] == b.host;
    }
  }

  lemma {:induction false} OwnPortsOwned(ledger: Ledger, name: string, k: Key)
    requires Disjoint(ledger) && name in ledger && k in Own(RowBindings(ledger[name].components))
    ensures Own(RowBindings(ledger[name].components))[k] !in OthersPorts(ledger, name)
  {
    OwnIs(RowBindings(ledger[name].components));
    var b :| b in RowBindings(ledger[name].components) && b.Key() == k && b.host == Own(RowBindings(ledger[name].components))[k];
    assert Advertised(ledger[name]) && b.host in ledger[name].endpoints;
    forall n | n in ledger && n != name ensures b.host !in ledger[n].endpoints {
      assert RowsDisjoint(ledger[name], ledger[n]);
    }
  }

  /** No port of a new plan belongs to another install. */
  lemma {:induction false} PlannedApart(ledger: Ledger, d: Deploy, n: string)
    requires Disjoint(ledger) && PlanFor(ledger, d).Some? && n in ledger && n != d.name
    ensures RowsDisjoint(ToRow(d.components, PlanFor(ledger, d).value), ledger[n])
  {
    var s, r := SettingOf(ledger, d), ReservationsFor(ledger, d.name);
    var plan := PlanFor(ledger, d).value;
    forall p | p in Hosts(plan.bindings) ensures p !in ledger[n].endpoints {
      var i :| 0 <= i < |plan.bindings| && Hosts(plan.bindings)[i] == p;
      var b := plan.bindings[i];
      assert b in plan.bindings;
      PlanIsSafe(s, d.listening, r.others, d.components, b);
      if Kept(s, b.Key()).Some? { OwnPortsOwned(ledger, d.name, b.Key()); }
      assert p !in OthersPorts(ledger, d.name);
    }
  }

  lemma {:induction false} DisjointStep(ledger: Ledger, e: Event)
    requires Disjoint(ledger)
    ensures Disjoint(Step(ledger, e))
  {
    match e
    case DeployE(d, ending) =>
      if PlanFor(ledger, d).Some? {
        PlannedAdvertised(ledger, d);
        forall n | n in ledger && n != d.name ensures RowsDisjoint(ToRow(d.components, PlanFor(ledger, d).value), ledger[n]) {
          PlannedApart(ledger, d, n);
        }
        DisjointRecord(ledger, d, PlanFor(ledger, d).value, ending);
      }
    case UnexposeE(_) =>
    case RemoveE(_) =>
  }

  lemma {:induction false} DisjointRecord(ledger: Ledger, d: Deploy, plan: Planned, ending: Ending)
    requires Disjoint(ledger) && Advertised(ToRow(d.components, plan))
    requires forall n :: n in ledger && n != d.name ==> RowsDisjoint(ToRow(d.components, plan), ledger[n])
    ensures Disjoint(Record(ledger, d, plan, ending))
  {
    if ending.RolledBack? { RevertRestores(ledger, d.name, ToRow(d.components, plan)); }
  }

  /** Reverting a claim gives back exactly the ledger from before it. */
  lemma {:induction false} RevertRestores(ledger: Ledger, name: string, row: Row)
    ensures Revert(Claim(ledger, name, row), name, Previous(ledger, name)) == ledger
  {
  }

  /** What each ending of a deploy leaves. */
  lemma {:induction false} RecordIs(ledger: Ledger, d: Deploy, ending: Ending)
    requires PlanFor(ledger, d).Some?
    ensures var row := ToRow(d.components, PlanFor(ledger, d).value);
            Step(ledger, DeployE(d, ending)) ==
            match ending
            case Interrupted => Claim(ledger, d.name, row)
            case LeftRunning => Claim(ledger, d.name, row)
            case Confirmed => ledger[d.name := row]
            case _ => ledger
  {
    if ending.RolledBack? { RevertRestores(ledger, d.name, ToRow(d.components, PlanFor(ledger, d).value)); }
  }

  /** Whatever deploys, redeploys, failures, interruptions, unexposes and removals happened, no two
      installs of the host share a port. */
  lemma {:induction false} PortsStayDisjoint(events: seq<Event>)
    ensures Disjoint(Run(events))
  {
    if events != [] {
      PortsStayDisjoint(events[..|events| - 1]);
      DisjointStep(Run(events[..|events| - 1]), events[|events| - 1]);
    }
  }

  /******* Ports within one install *******/

  predicate NoDuplicates(d: Deploy) {
    DistinctNames(d.components) && Distinct(Keys(d.components))
  }

  predicate DistinctNames(components: seq<Component>) {
    forall i, j :: 0 <= i < j < |components| ==> components[i].name != components[j].name
  }

  predicate EventOk(e: Event) {
    e.DeployE? ==> NoDuplicates(e.deploy)
  }

  /** The row's published ports are its endpoints, in order, and all different. */
  predicate RowDistinct(row: Row) {
    && Hosts(RowBindings(row.components)) == row.endpoints
    && Distinct(row.endpoints)
  }

  ghost predicate AllDistinct(ledger: Ledger) {
    forall n :: n in ledger ==> RowDistinct(ledger[n])
  }

  lemma BindingsSnoc(name: string, published: seq<Published>, p: Published)
    ensures BindingsOf(name, published + [p]) == BindingsOf(name, published) + [Binding(name, p.container, p.host)]
  {
  }

  lemma BindPortGrows(s: Setting, b: Bound, component: string, p: PortPlan)
    requires BindPort(s, b, component, p).Some?
    ensures var after := BindPort(s, b, component, p).value;
            || (after.published == b.published && after.bindings == b.bindings)
            || (exists q :: after.published == b.published + [q] && after.bindings == b.bindings + [Binding(component, q.container, q.host)])
  {
    if p.expose { assert BindPort(s, b, component, p).value.published == b.published + [Published(Choose(s, b.used, (component, p.container)).value, p.container)]; }
  }

  /** The bindings of a component are those of the ports it publishes. */
  lemma {:induction false} BindPortsBindings(s: Setting, start: Bound, component: string, ports: seq<PortPlan>)
    requires BindPorts(s, start, component, ports).Some? && start.published == []
    ensures var b := BindPorts(s, start, component, ports).value; b.bindings == start.bindings + BindingsOf(component, b.published)
  {
    if ports == [] {
      assert start.bindings + [] == start.bindings;
    } else {
      var before := BindPorts(s, start, component, ports[..|ports| - 1]).value;
      var after := BindPorts(s, start, component, ports).value;
      BindPortsBindings(s, start, component, ports[..|ports| - 1]);
      BindPortGrows(s, before, component, ports[|ports| - 1]);
      if after.published != before.published {
        var q :| after.published == before.published + [q] && after.bindings == before.bindings + [Binding(component, q.container, q.host)];
        BindingsSnoc(component, before.published, q);
      }
    }
  }

  lemma {:induction false} ComponentRowsSame(components: seq<Component>, p: map<string, seq<Published>>, q: map<string, seq<Published>>)
    requires forall c :: c in components ==> (c.name in p <==> c.name in q) && (c.name in p ==> p[c.name] == q[c.name])
    ensures ComponentRows(components, p) == ComponentRows(components, q)
  {
    if components != [] { ComponentRowsSame(components[..|components| - 1], p, q); }
  }

  lemma {:induction false} LastNameIsNew(components: seq<Component>, c: Component)
    requires DistinctNames(components) && components != [] && c in components[..|components| - 1]
    ensures c.name != components[|components| - 1].name
  {
    var i :| 0 <= i < |components| - 1 && components[i] == c;
  }

  lemma {:induction false} LastComponentRow(earlier: seq<Component>, last: Component, ports: map<string, seq<Published>>, published: seq<Published>)
    requires forall c :: c in earlier ==> c.name != last.name
    ensures RowBindings(ComponentRows(earlier + [last], ports[last.name := published]))
            == RowBindings(ComponentRows(earlier, ports)) + BindingsOf(last.name, published)
  {
    ComponentRowsSame(earlier, ports, ports[last.name := published]);
    assert (earlier + [last])[..|earlier|] == earlier;
    var rows := ComponentRows(earlier + [last], ports[last.name := published]);
    assert rows[..|rows| - 1] == ComponentRows(earlier, ports);
  }

  lemma {:induction false} LastBindings(s: Setting, before: Planned, c: Component)
    requires BindComponent(s, before, c).Some?
    ensures var plan := BindComponent(s, before, c).value;
            exists published :: plan.ports == before.ports[c.name := published]
                                && plan.bindings == before.bindings + BindingsOf(c.name, published)
  {
    var start := Bound([], before.bindings, before.used);
    var bound := BindPorts(s, start, c.name, c.ports).value;
    BindPortsBindings(s, start, c.name, c.ports);
  }

  /** With distinct component names, what the row publishes is what was planned. */
  lemma {:induction false} RowIsPlan(s: Setting, start: set<nat>, components: seq<Component>)
    requires DistinctNames(components) && BindAll(s, start, components).Some?
    ensures var plan := BindAll(s, start, components).value; RowBindings(ComponentRows(components, plan.ports)) == plan.bindings
  {
    if components != [] {
      var n := |components| - 1;
      var earlier, last := components[..n], components[n];
      RowIsPlan(s, start, earlier);
      var before := BindAll(s, start, earlier).value;
      LastBindings(s, before, last);
      var published :| BindAll(s, start, components).value.ports == before.ports[last.name := published]
        && BindAll(s, start, components).value.bindings == before.bindings + BindingsOf(last.name, published);
      forall c | c in earlier ensures c.name != last.name { LastNameIsNew(components, c); }
      LastComponentRow(earlier, last, before.ports, published);
      assert earlier + [last] == components;
    }
  }

  /** Ports of a row under different keys are different. */
  predicate KeyedRow(row: Row) {
    forall x, y :: x in RowBindings(row.components) && y in RowBindings(row.components) && x.Key() != y.Key() ==> x.host != y.host
  }

  ghost predicate Keyed(ledger: Ledger) {
    forall n :: n in ledger ==> KeyedRow(ledger[n])
  }

  lemma {:induction false} KeyedSetting(ledger: Ledger, d: Deploy)
    requires d.name in ledger ==> KeyedRow(ledger[d.name])
    ensures var s := SettingOf(ledger, d);
            OneToOne(s.own) && s.own.Values <= InUse(d.listening, d.ingress, ReservationsFor(ledger, d.name))
  {
    if d.name in ledger { OwnOneToOne(RowBindings(ledger[d.name].components)); }
  }

  lemma {:induction false} PlannedKeyed(ledger: Ledger, d: Deploy)
    requires Keyed(ledger) && PlanFor(ledger, d).Some?
    ensures KeyedRow(ToRow(d.components, PlanFor(ledger, d).value))
  {
    var s, start := SettingOf(ledger, d), InUse(d.listening, d.ingress, ReservationsFor(ledger, d.name));
    var plan := PlanFor(ledger, d).value;
    var bindings := RowBindings(ComponentRows(d.components, plan.ports));
    KeyedSetting(ledger, d);
    PlanListed(s, start, d.components);
    RowListed(d.components, plan);
    forall x, y | x in bindings && y in bindings && x.Key() != y.Key() ensures x.host != y.host {
      KeysApart(s, start, d.components, x, y);
    }
  }

  lemma {:induction false} KeyedStep(ledger: Ledger, e: Event)
    requires Keyed(ledger)
    ensures Keyed(Step(ledger, e))
  {
    if e.DeployE? && PlanFor(ledger, e.deploy).Some? {
      PlannedKeyed(ledger, e.deploy);
      KeyedRecord(ledger, e.deploy, PlanFor(ledger, e.deploy).value, e.ending);
    }
  }

  lemma {:induction false} KeyedRecord(ledger: Ledger, d: Deploy, plan: Planned, ending: Ending)
    requires Keyed(ledger) && KeyedRow(ToRow(d.components, plan))
    ensures Keyed(Record(ledger, d, plan, ending))
  {
    if ending.RolledBack? { RevertRestores(ledger, d.name, ToRow(d.components, plan)); }
  }

  /** Over every run, doubled ports and doubled names included: an install never publishes two
      different container ports on one host port. */
  lemma {:induction false} PortsStayKeyed(events: seq<Event>)
    ensures Keyed(Run(events))
  {
    if events != [] {
      PortsStayKeyed(events[..|events| - 1]);
      KeyedStep(Run(events[..|events| - 1]), events[|events| - 1]);
    }
  }

  lemma {:induction false} HostsDistinct(bindings: seq<Binding>)
    ensures Distinct(Hosts(bindings)) <==> DistinctHosts(bindings)
  {
    forall i, j | 0 <= i < j < |bindings| ensures Hosts(bindings)[i] != Hosts(bindings)[j] <==> bindings[i].host != bindings[j].host {
    }
  }

  /** A deploy over any such ledger, in any mode and after any change of its ports, publishes
      distinct ports exactly when it asks twice for none that it keeps. */
  lemma {:induction false} PlannedDistinctIff(ledger: Ledger, d: Deploy)
    requires Keyed(ledger) && PlanFor(ledger, d).Some?
    ensures var row, undoubled := ToRow(d.components, PlanFor(ledger, d).value), DoublesFresh(SettingOf(ledger, d), Keys(d.components));
            (Distinct(row.endpoints) <==> undoubled) && (DistinctNames(d.components) ==> (RowDistinct(row) <==> undoubled))
  {
    var s, start := SettingOf(ledger, d), InUse(d.listening, d.ingress, ReservationsFor(ledger, d.name));
    KeyedSetting(ledger, d);
    PlanDistinctIff(s, start, d.components);
    HostsDistinct(PlanFor(ledger, d).value.bindings);
    if DistinctNames(d.components) { RowIsPlan(s, start, d.components); }
  }

  /** The deploy leaves a row, and asks twice for a port that it keeps. */
  predicate DoublesKept(ledger: Ledger, e: Event) {
    && e.DeployE? && PlanFor(ledger, e.deploy).Some? && !e.ending.Refused? && !e.ending.RolledBack?
    && !DoublesFresh(SettingOf(ledger, e.deploy), Keys(e.deploy.components))
  }

  ghost predicate EndpointsDistinct(ledger: Ledger) {
    forall n :: n in ledger ==> Distinct(ledger[n].endpoints)
  }

  lemma {:induction false} EndpointsStep(ledger: Ledger, e: Event)
    requires Keyed(ledger) && EndpointsDistinct(ledger)
    ensures EndpointsDistinct(Step(ledger, e)) <==> !DoublesKept(ledger, e)
  {
    if e.DeployE? && PlanFor(ledger, e.deploy).Some? {
      PlannedDistinctIff(ledger, e.deploy);
      EndpointsRecord(ledger, e.deploy, PlanFor(ledger, e.deploy).value, e.ending);
    }
  }

  lemma {:induction false} EndpointsRecord(ledger: Ledger, d: Deploy, plan: Planned, ending: Ending)
    requires EndpointsDistinct(ledger)
    ensures EndpointsDistinct(Record(ledger, d, plan, ending))
            <==> ending.Refused? || ending.RolledBack? || Distinct(ToRow(d.components, plan).endpoints)
  {
    var after, row := Record(ledger, d, plan, ending), ToRow(d.components, plan);
    if ending.RolledBack? {
      RevertRestores(ledger, d.name, row);
    } else if !ending.Refused? {
      assert d.name in after && after[d.name].endpoints == row.endpoints;
    }
  }

  /** After the first `k` events every install's ports are distinct. */
  ghost predicate DistinctAt(events: seq<Event>, k: nat)
    requires k <= |events|
  {
    EndpointsDistinct(Run(events[..k]))
  }

  predicate DoublesAt(events: seq<Event>, k: nat)
    requires k < |events|
  {
    DoublesKept(Run(events[..k]), events[k])
  }

  ghost predicate AlwaysDistinct(events: seq<Event>) {
    forall k: nat :: k <= |events| ==> DistinctAt(events, k)
  }

  predicate NeverDoubles(events: seq<Event>) {
    forall k: nat :: k < |events| ==> !DoublesAt(events, k)
  }

  lemma PrefixAt(events: seq<Event>, k: nat)
    requires events != [] && k < |events|
    ensures DistinctAt(events[..|events| - 1], k) == DistinctAt(events, k)
    ensures k < |events| - 1 ==> DoublesAt(events[..|events| - 1], k) == DoublesAt(events, k)
  {
    assert events[..|events| - 1][..k] == events[..k];
  }

  lemma LastDistinct(events: seq<Event>)
    requires events != []
    ensures AlwaysDistinct(events) <==> AlwaysDistinct(events[..|events| - 1]) && DistinctAt(events, |events|)
  {
    var earlier := events[..|events| - 1];
    if AlwaysDistinct(events) {
      forall k: nat | k <= |earlier| ensures DistinctAt(earlier, k) { PrefixAt(events, k); }
    }
    if AlwaysDistinct(earlier) && DistinctAt(events, |events|) {
      forall k: nat | k <= |events| ensures DistinctAt(events, k) {
        if k < |events| { PrefixAt(events, k); }
      }
    }
  }

  lemma LastDoubles(events: seq<Event>)
    requires events != []
    ensures NeverDoubles(events) <==> NeverDoubles(events[..|events| - 1]) && !DoublesAt(events, |events| - 1)
  {
    var earlier := events[..|events| - 1];
    if NeverDoubles(events) {
      forall k: nat | k < |earlier| ensures !DoublesAt(earlier, k) { PrefixAt(events, k); }
    }
    if NeverDoubles(earlier) && !DoublesAt(events, |events| - 1) {
      forall k: nat | k < |events| ensures !DoublesAt(events, k) {
        if k < |earlier| { PrefixAt(events, k); }
      }
    }
  }

  lemma LastStep(events: seq<Event>)
    requires events != [] && DistinctAt(events, |events| - 1)
    ensures DistinctAt(events, |events|) <==> !DoublesAt(events, |events| - 1)
  {
    PortsStayKeyed(events[..|events| - 1]);
    EndpointsStep(Run(events[..|events| - 1]), events[|events| - 1]);
    assert events[..|events|] == events;
  }

  /** Over every run: the ports within each install have been distinct all along exactly when no
      deploy on the way asked twice for a port that it kept. */
  lemma {:induction false} PortsStayDistinctIff(events: seq<Event>)
    ensures AlwaysDistinct(events) <==> NeverDoubles(events)
  {
    if events == [] {
      assert events[..0] == [] && Run([]) == map[];
    } else {
      var n := |events| - 1;
      PortsStayDistinctIff(events[..n]);
      LastDistinct(events);
      LastDoubles(events);
      PrefixAt(events, n);
      if AlwaysDistinct(events[..n]) {
        assert DistinctAt(events[..n], n);
        LastStep(events);
      }
    }
  }

  lemma {:induction false} PlannedDistinct(ledger: Ledger, d: Deploy)
    requires AllDistinct(ledger) && NoDuplicates(d) && PlanFor(ledger, d).Some?
    ensures RowDistinct(ToRow(d.components, PlanFor(ledger, d).value))
  {
    DistinctIsKeyed(ledger);
    PlannedDistinctIff(ledger, d);
  }

  lemma {:induction false} DistinctIsKeyed(ledger: Ledger)
    requires AllDistinct(ledger)
    ensures Keyed(ledger)
  {
    forall n | n in ledger ensures KeyedRow(ledger[n]) {
      var bindings := RowBindings(ledger[n].components);
      assert RowDistinct(ledger[n]);
      HostsDistinct(bindings);
      forall x, y | x in bindings && y in bindings && x.Key() != y.Key() ensures x.host != y.host { DistinctApart(bindings, x, y); }
    }
  }

  lemma {:induction false} DistinctStep(ledger: Ledger, e: Event)
    requires AllDistinct(ledger) && EventOk(e)
    ensures AllDistinct(Step(ledger, e))
  {
    match e
    case DeployE(d, ending) =>
      if PlanFor(ledger, d).Some? {
        PlannedDistinct(ledger, d);
        DistinctRecord(ledger, d, PlanFor(ledger, d).value, ending);
      }
    case UnexposeE(_) =>
    case RemoveE(_) =>
  }

  lemma {:induction false} DistinctRecord(ledger: Ledger, d: Deploy, plan: Planned, ending: Ending)
    requires AllDistinct(ledger) && RowDistinct(ToRow(d.components, plan))
    ensures AllDistinct(Record(ledger, d, plan, ending))
  {
    if ending.RolledBack? { RevertRestores(ledger, d.name, ToRow(d.components, plan)); }
  }

  /** As long as no app asks twice for the same container port or names two components alike, the
      ports of every install stay distinct, over every run. */
  lemma {:induction false} PortsStayDistinct(events: seq<Event>)
    requires forall e :: e in events ==> EventOk(e)
    ensures AllDistinct(Run(events))
  {
    if events != [] {
      PortsStayDistinct(events[..|events| - 1]);
      DistinctStep(Run(events[..|events| - 1]), events[|events| - 1]);
    }
  }

  /** An app redeployed in the same mode keeps every port it had, whatever listens by then and
      whatever the rest of the ledger has become; of a port it holds twice, the later one. If it
      asks once for each port it publishes exactly what it did. */
  lemma {:induction false} RedeployKeepsPorts(ledger: Ledger, d: Deploy, later: Ledger, again: Deploy)
    requires DistinctNames(d.components) && PlanFor(ledger, d).Some?
    requires d.name in later && later[d.name].components == ToRow(d.components, PlanFor(ledger, d).value).components
    requires again.name == d.name && again.components == d.components
    requires again.coexistence == d.coexistence && again.ingress == d.ingress
    ensures PlanFor(later, again).Some?
    ensures SameHosts(PlanFor(ledger, d).value.bindings, PlanFor(later, again).value.bindings)
    ensures Distinct(Keys(d.components)) ==>
      Hosts(PlanFor(later, again).value.bindings) == Hosts(PlanFor(ledger, d).value.bindings)
  {
    var s := SettingOf(later, again);
    RowIsPlan(SettingOf(ledger, d), InUse(d.listening, d.ingress, ReservationsFor(ledger, d.name)), d.components);
    PlanOrderly(SettingOf(ledger, d), InUse(d.listening, d.ingress, ReservationsFor(ledger, d.name)), d.components);
    NothingForbidden(ledger, d, s);
    KeepsHosts(PlanFor(ledger, d).value.bindings, s, InUse(again.listening, again.ingress, ReservationsFor(later, again.name)), d.components);
    if Distinct(Keys(d.components)) { SameWhenDistinct(PlanFor(ledger, d).value.bindings, PlanFor(later, again).value.bindings); }
  }

  /** Port by port the keys are the same, and the host is the one last held under the key. */
  predicate SameHosts(before: seq<Binding>, after: seq<Binding>) {
    && |after| == |before|
    && forall i :: 0 <= i < |before| ==>
         after[i].Key() == before[i].Key() && before[i].Key() in Own(before) && after[i].host == Own(before)[before[i].Key()]
  }

  lemma {:induction false} SameWhenDistinct(before: seq<Binding>, after: seq<Binding>)
    requires SameHosts(before, after) && Distinct(KeysOf(before))
    ensures Hosts(after) == Hosts(before)
  {
    OwnIs(before);
    forall i | 0 <= i < |before| ensures Hosts(after)[i] == Hosts(before)[i] { assert before[i] in before; }
  }

  lemma {:induction false} KeepsHosts(before: seq<Binding>, s: Setting, start: set<nat>, components: seq<Component>)
    requires KeysOf(before) == Keys(components)
    requires s.own == Own(before) && s.own.Values <= start
    requires forall b :: b in before ==> !s.Forbids(b.host)
    ensures BindAll(s, start, components).Some?
    ensures SameHosts(before, BindAll(s, start, components).value.bindings)
  {
    OwnIs(before);
    forall k | k in Keys(components) ensures k in s.own && !s.Forbids(s.own[k]) {
      var i :| 0 <= i < |before| && KeysOf(before)[i] == k;
      assert before[i] in before && before[i].Key() == k;
    }
    RedeployRepeats(before, s, start, components);
    var after := BindAll(s, start, components).value.bindings;
    PlanOrderly(s, start, components);
    assert |KeysOf(after)| == |KeysOf(before)|;
    forall i | 0 <= i < |before|
      ensures after[i].Key() == before[i].Key() && before[i].Key() in Own(before) && after[i].host == Own(before)[before[i].Key()]
    {
      RedeployIsStable(before, s, start, components, i);
      assert Keys(components)[i] == KeysOf(before)[i] && Keys(components)[i] in Keys(components);
    }
  }

  lemma {:induction false} NothingForbidden(ledger: Ledger, d: Deploy, s: Setting)
    requires PlanFor(ledger, d).Some? && s.coexistence == d.coexistence && s.ingress == d.ingress
    ensures forall b :: b in PlanFor(ledger, d).value.bindings ==> !s.Forbids(b.host)
  {
    forall b | b in PlanFor(ledger, d).value.bindings ensures !s.Forbids(b.host) {
      PlanIsSafe(SettingOf(ledger, d), d.listening, ReservationsFor(ledger, d.name).others, d.components, b);
    }
  }
}
