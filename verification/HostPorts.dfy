/** Which host port each exposed port of an app gets: kept from the last install, or allocated. */
module HostPorts {
  import opened Optional

  const ALLOC_BASE: nat := 20000
  const ALLOC_TOP: nat := 20999

  datatype PortPlan = PortPlan(container: nat, expose: bool)

  datatype Component = Component(name: string, ports: seq<PortPlan>)

  /** A component's name and one of its container ports. */
  type Key = (string, nat)

  datatype Published = Published(host: nat, container: nat)

  /** A published port with the endpoint that advertises it. */
  datatype Binding = Binding(component: string, container: nat, host: nat) {
    function Key(): Key { (component, container) }
  }

  /** What the planner knows besides the ports in use: a k3s host, an ingress with its routes, and
      the ports the app already owns. */
  datatype Setting = Setting(coexistence: bool, ingress: bool, routes: set<Key>, own: map<Key, nat>) {
    predicate Routed(key: Key) { ingress && key in routes }

    /** The ingress owns 80 and 443; a k3s host keeps everything below 1024. */
    predicate Forbids(port: nat) { (ingress && (port == 80 || port == 443)) || (coexistence && port < 1024) }
  }

  /******* Allocation *******/

  predicate PreferOk(container: nat, used: set<nat>, coexistence: bool, forceHigh: bool) {
    !forceHigh && container >= (if coexistence then 1024 else 1) && container !in used
  }

  function LowestFree(used: set<nat>, from: nat): Option<nat>
    decreases ALLOC_TOP + 1 - from
  {
    if from > ALLOC_TOP then None else if from !in used then Some(from) else LowestFree(used, from + 1)
  }

  function Allocate(container: nat, used: set<nat>, coexistence: bool, forceHigh: bool): Option<nat> {
    if PreferOk(container, used, coexistence, forceHigh) then Some(container) else LowestFree(used, ALLOC_BASE)
  }

  lemma {:induction false} LowestFreeIs(used: set<nat>, from: nat)
    ensures LowestFree(used, from).None? <==> forall p: nat :: from <= p <= ALLOC_TOP ==> p in used
    ensures LowestFree(used, from).Some? ==>
      var p := LowestFree(used, from).value;
      from <= p <= ALLOC_TOP && p !in used && forall q: nat :: from <= q < p ==> q in used
    decreases ALLOC_TOP + 1 - from
  {
    if from <= ALLOC_TOP && from in used { LowestFreeIs(used, from + 1); }
  }

  /** An allocated port is free; it is the container's own port or the lowest free one of the range;
      and there is none exactly when the preferred port is unusable and the whole range is taken. */
  lemma {:induction false} AllocateIs(container: nat, used: set<nat>, coexistence: bool, forceHigh: bool)
    ensures Allocate(container, used, coexistence, forceHigh).None? <==>
      !PreferOk(container, used, coexistence, forceHigh) && forall p: nat :: ALLOC_BASE <= p <= ALLOC_TOP ==> p in used
    ensures Allocate(container, used, coexistence, forceHigh).Some? ==>
      var port := Allocate(container, used, coexistence, forceHigh).value;
      && port !in used && port >= (if coexistence then 1024 else 1)
      && (ALLOC_BASE <= port <= ALLOC_TOP || (port == container && !forceHigh))
      && (port != container ==> forall q: nat :: ALLOC_BASE <= q < port ==> q in used)
  {
    LowestFreeIs(used, ALLOC_BASE);
  }

  /******* One app *******/

  function Kept(s: Setting, key: Key): Option<nat> {
    if key in s.own && !s.Forbids(s.own[key]) then Some(s.own[key]) else None
  }

  function Choose(s: Setting, used: set<nat>, key: Key): Option<nat> {
    if Kept(s, key).Some? then Kept(s, key) else Allocate(key.1, used, s.coexistence, s.Routed(key))
  }

  datatype Bound = Bound(published: seq<Published>, bindings: seq<Binding>, used: set<nat>)

  function BindPort(s: Setting, b: Bound, component: string, p: PortPlan): Option<Bound> {
    if !p.expose then Some(b)
    else
      var key := (component, p.container);
      match Choose(s, b.used, key)
      case None => None
      case Some(host) =>
        Some(Bound(b.published + [Published(host, p.container)], b.bindings + [Binding(component, p.container, host)],
                   if Kept(s, key).Some? then b.used else b.used + {host}))
  }

  function BindPorts(s: Setting, start: Bound, component: string, ports: seq<PortPlan>): Option<Bound> {
    if ports == [] then Some(start)
    else
      match BindPorts(s, start, component, ports[..|ports| - 1])
      case None => None
      case Some(b) => BindPort(s, b, component, ports[|ports| - 1])
  }

  datatype Planned = Planned(ports: map<string, seq<Published>>, bindings: seq<Binding>, used: set<nat>)

  function BindComponent(s: Setting, before: Planned, c: Component): Option<Planned> {
    match BindPorts(s, Bound([], before.bindings, before.used), c.name, c.ports)
    case None => None
    case Some(b) => Some(Planned(before.ports[c.name := b.published], b.bindings, b.used))
  }

  function BindAll(s: Setting, used: set<nat>, components: seq<Component>): Option<Planned> {
    if components == [] then Some(Planned(map[], [], used))
    else
      match BindAll(s, used, components[..|components| - 1])
      case None => None
      case Some(before) => BindComponent(s, before, components[|components| - 1])
  }

  datatype Reservations = Reservations(own: map<Key, nat>, others: set<nat>)

  /** Ports in use before the app gets any: listening, owned, reserved, and the ingress's own. */
  function InUse(listening: set<nat>, ingress: bool, r: Reservations): set<nat> {
    listening + r.own.Values + r.others + if ingress then {80, 443} else {}
  }

  class PortPool {
    var used: set<nat>

    constructor (listening: set<nat>)
      ensures used == listening
    {
      used := listening;
    }

    method Reserve(ports: set<nat>)
      modifies this
      ensures used == old(used) + ports
    {
      used := used + ports;
    }

    method AllocatePort(container: nat, coexistence: bool, forceHigh: bool) returns (port: Option<nat>)
      modifies this
      ensures port == Allocate(container, old(used), coexistence, forceHigh)
      ensures used == old(used) + (if port.Some? then {port.value} else {})
    {
      if !forceHigh && container >= (if coexistence then 1024 else 1) && container !in used {
        used := used + {container};
        return Some(container);
      }
      var p := ALLOC_BASE;
      while p <= ALLOC_TOP
        invariant ALLOC_BASE <= p <= ALLOC_TOP + 1 && used == old(used)
        invariant LowestFree(used, ALLOC_BASE) == LowestFree(used, p)
      {
        if p !in used {
          used := used + {p};
          return Some(p);
        }
        p := p + 1;
      }
      return None;
    }

    method BindExposedPort(s: Setting, component: string, p: PortPlan) returns (host: Option<nat>)
      modifies this
      ensures host == Choose(s, old(used), (component, p.container))
      ensures used == if host.None? || Kept(s, (component, p.container)).Some? then old(used) else old(used) + {host.value}
    {
      var key := (component, p.container);
      host := Kept(s, key);
      if host.None? {
        host := AllocatePort(p.container, s.coexistence, s.Routed(key));
      }
    }

    method BindComponentPorts(s: Setting, c: Component, endpoints: seq<Binding>)
      returns (ok: bool, published: seq<Published>, bindings: seq<Binding>)
      modifies this
      ensures BindPorts(s, Bound([], endpoints, old(used)), c.name, c.ports)
              == if ok then Some(Bound(published, bindings, used)) else None
    {
      ok, published, bindings := true, [], endpoints;
      var i := 0;
      while i < |c.ports|
        invariant 0 <= i <= |c.ports|
        invariant BindPorts(s, Bound([], endpoints, old(used)), c.name, c.ports[..i]) == Some(Bound(published, bindings, used))
      {
        assert c.ports[..i + 1][..i] == c.ports[..i];
        if c.ports[i].expose {
          var host := BindExposedPort(s, c.name, c.ports[i]);
          if host.None? {
            NoPortStays(s, Bound([], endpoints, old(used)), c.name, c.ports, i + 1);
            return false, [], [];
          }
          published := published + [Published(host.value, c.ports[i].container)];
          bindings := bindings + [Binding(c.name, c.ports[i].container, host.value)];
        }
        i := i + 1;
      }
      assert c.ports[..|c.ports|] == c.ports;
    }
  }

  lemma {:induction false} NoPortStays(s: Setting, start: Bound, component: string, ports: seq<PortPlan>, i: nat)
    requires i <= |ports| && BindPorts(s, start, component, ports[..i]).None?
    ensures BindPorts(s, start, component, ports).None?
    decreases |ports| - i
  {
    if i == |ports| {
      assert ports[..i] == ports;
    } else {
      assert ports[..i + 1][..i] == ports[..i];
      NoPortStays(s, start, component, ports, i + 1);
    }
  }

  lemma {:induction false} NoPlanStays(s: Setting, used: set<nat>, components: seq<Component>, i: nat)
    requires i <= |components| && BindAll(s, used, components[..i]).None?
    ensures BindAll(s, used, components).None?
    decreases |components| - i
  {
    if i == |components| {
      assert components[..i] == components;
    } else {
      assert components[..i + 1][..i] == components[..i];
      NoPlanStays(s, used, components, i + 1);
    }
  }

  method PlanHostDeploy(components: seq<Component>, listening: set<nat>, coexistence: bool, ingress: bool, routes: set<Key>, r: Reservations)
    returns (plan: Option<Planned>)
    ensures plan == BindAll(Setting(coexistence, ingress, routes, r.own), InUse(listening, ingress, r), components)
  {
    var s := Setting(coexistence, ingress, routes, r.own);
    var pool := new PortPool(listening);
    pool.Reserve(r.own.Values);
    pool.Reserve(r.others);
    if ingress { pool.Reserve({80, 443}); }
    ghost var start := pool.used;
    assert start == InUse(listening, ingress, r);
    var ports, endpoints, i := map[], [], 0;
    while i < |components|
      invariant 0 <= i <= |components|
      invariant BindAll(s, start, components[..i]) == Some(Planned(ports, endpoints, pool.used))
    {
      assert components[..i + 1][..i] == components[..i];
      var ok, published, bindings := pool.BindComponentPorts(s, components[i], endpoints);
      if !ok {
        NoPlanStays(s, start, components, i + 1);
        return None;
      }
      ports, endpoints := ports[components[i].name := published], bindings;
      i := i + 1;
    }
    assert components[..|components|] == components;
    return Some(Planned(ports, endpoints, pool.used));
  }

  /******* What a plan may hand out *******/

  /** The keys of the exposed ports, in planning order. */
  function PortKeys(component: string, ports: seq<PortPlan>): seq<Key> {
    if ports == [] then []
    else
      var last := ports[|ports| - 1];
      PortKeys(component, ports[..|ports| - 1]) + if last.expose then [(component, last.container)] else []
  }

  function Keys(components: seq<Component>): seq<Key> {
    if components == [] then []
    else
      var last := components[|components| - 1];
      Keys(components[..|components| - 1]) + PortKeys(last.name, last.ports)
  }

  function KeysOf(bindings: seq<Binding>): (keys: seq<Key>)
    ensures |keys| == |bindings| && forall i :: 0 <= i < |keys| ==> keys[i] == bindings[i].Key()
  {
    seq(|bindings|, i requires 0 <= i < |bindings| => bindings[i].Key())
  }

  predicate Distinct<T(==)>(xs: seq<T>) {
    forall i, j :: 0 <= i < j < |xs| ==> xs[i] != xs[j]
  }

  /** The port was kept, or it was free when the plan began and is taken now. */
  predicate Sourced(s: Setting, start: set<nat>, used: set<nat>, b: Binding) {
    match Kept(s, b.Key())
    case Some(host) => b.host == host
    case None => b.host !in start && b.host in used && !(s.coexistence && b.host < 1024)
  }

  predicate AllocatedApart(s: Setting, bindings: seq<Binding>) {
    forall i, j :: 0 <= i < j < |bindings| && Kept(s, bindings[i].Key()).None? && Kept(s, bindings[j].Key()).None?
      ==> bindings[i].host != bindings[j].host
  }

  predicate Orderly(s: Setting, start: set<nat>, used: set<nat>, bindings: seq<Binding>) {
    start <= used && AllocatedApart(s, bindings) && forall b :: b in bindings ==> Sourced(s, start, used, b)
  }

  lemma {:induction false} BindPortOrderly(s: Setting, start: set<nat>, b: Bound, component: string, p: PortPlan)
    requires Orderly(s, start, b.used, b.bindings) && BindPort(s, b, component, p).Some?
    ensures var next := BindPort(s, b, component, p).value;
            && Orderly(s, start, next.used, next.bindings)
            && KeysOf(next.bindings) == KeysOf(b.bindings) + if p.expose then [(component, p.container)] else []
  {
    AllocateIs(p.container, b.used, s.coexistence, s.Routed((component, p.container)));
    var next := BindPort(s, b, component, p).value;
    forall i, j | 0 <= i < j < |next.bindings| && Kept(s, next.bindings[i].Key()).None? && Kept(s, next.bindings[j].Key()).None?
      ensures next.bindings[i].host != next.bindings[j].host
    {
      if j == |b.bindings| { assert Sourced(s, start, b.used, b.bindings[i]); }
    }
  }

  lemma {:induction false} BindPortsOrderly(s: Setting, start: set<nat>, b: Bound, component: string, ports: seq<PortPlan>)
    requires Orderly(s, start, b.used, b.bindings) && BindPorts(s, b, component, ports).Some?
    ensures var next := BindPorts(s, b, component, ports).value;
            && Orderly(s, start, next.used, next.bindings)
            && KeysOf(next.bindings) == KeysOf(b.bindings) + PortKeys(component, ports)
  {
    if ports != [] {
      BindPortsOrderly(s, start, b, component, ports[..|ports| - 1]);
      BindPortOrderly(s, start, BindPorts(s, b, component, ports[..|ports| - 1]).value, component, ports[|ports| - 1]);
    }
  }

  /** A plan covers exactly the exposed ports, in order, and every port in it is kept or fresh. */
  lemma {:induction false} PlanOrderly(s: Setting, start: set<nat>, components: seq<Component>)
    requires BindAll(s, start, components).Some?
    ensures var plan := BindAll(s, start, components).value;
            Orderly(s, start, plan.used, plan.bindings) && KeysOf(plan.bindings) == Keys(components)
  {
    if components != [] {
      var last := components[|components| - 1];
      PlanOrderly(s, start, components[..|components| - 1]);
      var before := BindAll(s, start, components[..|components| - 1]).value;
      BindPortsOrderly(s, start, Bound([], before.bindings, before.used), last.name, last.ports);
    }
  }

  predicate OneToOne(own: map<Key, nat>) {
    forall k, l :: k in own && l in own && k != l ==> own[k] != own[l]
  }

  /** A new port was in use by no one: not listening, not owned, not another app's, not the
      ingress's. A kept port is the app's own. Behind an ingress no port is 80 or 443, and on a k3s
      host none is below 1024. */
  lemma {:induction false} PlanIsSafe(s: Setting, listening: set<nat>, others: set<nat>, components: seq<Component>, b: Binding)
    requires var plan := BindAll(s, InUse(listening, s.ingress, Reservations(s.own, others)), components);
             plan.Some? && b in plan.value.bindings
    ensures !s.Forbids(b.host)
    ensures match Kept(s, b.Key())
            case Some(host) => b.host == host == s.own[b.Key()]
            case None => b.host !in listening && b.host !in s.own.Values && b.host !in others
  {
    PlanOrderly(s, InUse(listening, s.ingress, Reservations(s.own, others)), components);
  }

  /** No port the app asks for twice is one it already holds and may keep. */
  predicate DoublesFresh(s: Setting, keys: seq<Key>) {
    forall i, j :: 0 <= i < j < |keys| && keys[i] == keys[j] ==> Kept(s, keys[i]).None?
  }

  predicate DistinctHosts(bindings: seq<Binding>) {
    forall i, j :: 0 <= i < j < |bindings| ==> bindings[i].host != bindings[j].host
  }

  /** Two bindings of a plan share a host exactly when they are one kept port asked for twice. */
  lemma {:induction false} SharedHost(s: Setting, start: set<nat>, components: seq<Component>, i: nat, j: nat)
    requires s.own.Values <= start && OneToOne(s.own) && BindAll(s, start, components).Some?
    requires i < j < |Keys(components)|
    ensures var bindings := BindAll(s, start, components).value.bindings;
            && |bindings| == |Keys(components)|
            && (bindings[i].host == bindings[j].host <==>
                  Keys(components)[i] == Keys(components)[j] && Kept(s, Keys(components)[i]).Some?)
  {
    PlanOrderly(s, start, components);
    var plan := BindAll(s, start, components).value;
    assert |KeysOf(plan.bindings)| == |plan.bindings|;
    var x, y := plan.bindings[i], plan.bindings[j];
    assert x.Key() == KeysOf(plan.bindings)[i] && y.Key() == KeysOf(plan.bindings)[j];
    assert Sourced(s, start, plan.used, x) && Sourced(s, start, plan.used, y);
  }

  /** Whatever the app held before, in whatever mode and whatever it asks for now: its ports are
      distinct exactly when it asks twice for no port that it keeps. */
  lemma {:induction false} PlanDistinctIff(s: Setting, start: set<nat>, components: seq<Component>)
    requires s.own.Values <= start && OneToOne(s.own) && BindAll(s, start, components).Some?
    ensures DistinctHosts(BindAll(s, start, components).value.bindings) <==> DoublesFresh(s, Keys(components))
  {
    PlanOrderly(s, start, components);
    var bindings := BindAll(s, start, components).value.bindings;
    assert |KeysOf(bindings)| == |bindings|;
    forall i, j | 0 <= i < j < |bindings|
      ensures bindings[i].host == bindings[j].host <==> Keys(components)[i] == Keys(components)[j] && Kept(s, Keys(components)[i]).Some?
    {
      SharedHost(s, start, components, i, j);
    }
  }

  /** Ports under different keys never share a host, doubled or not. */
  lemma {:induction false} KeysApart(s: Setting, start: set<nat>, components: seq<Component>, x: Binding, y: Binding)
    requires s.own.Values <= start && OneToOne(s.own) && BindAll(s, start, components).Some?
    requires x in BindAll(s, start, components).value.bindings && y in BindAll(s, start, components).value.bindings
    requires x.Key() != y.Key()
    ensures x.host != y.host
  {
    PlanOrderly(s, start, components);
    var bindings := BindAll(s, start, components).value.bindings;
    var i :| 0 <= i < |bindings| && bindings[i] == x;
    var j :| 0 <= j < |bindings| && bindings[j] == y;
    assert |KeysOf(bindings)| == |bindings| && KeysOf(bindings)[i] == x.Key() && KeysOf(bindings)[j] == y.Key();
    SharedHost(s, start, components, if i < j then i else j, if i < j then j else i);
  }

  /** An app that asks once for each port gets distinct ports. */
  lemma {:induction false} PlanIsDistinct(s: Setting, start: set<nat>, components: seq<Component>)
    requires s.own.Values <= start && OneToOne(s.own) && Distinct(Keys(components))
    requires BindAll(s, start, components).Some?
    ensures DistinctHosts(BindAll(s, start, components).value.bindings)
  {
    PlanDistinctIff(s, start, components);
  }

  /** A first deploy gets distinct ports, whatever it asks for twice. */
  lemma {:induction false} FirstDeployIsDistinct(s: Setting, start: set<nat>, components: seq<Component>)
    requires s.own == map[] && BindAll(s, start, components).Some?
    ensures DistinctHosts(BindAll(s, start, components).value.bindings)
  {
    PlanDistinctIff(s, start, components);
  }

  /** The bindings of an install as the map the next deploy starts from: a later entry for the same
      key replaces an earlier one. */
  function Own(bindings: seq<Binding>): map<Key, nat> {
    if bindings == [] then map[]
    else
      var last := bindings[|bindings| - 1];
      Own(bindings[..|bindings| - 1])[last.Key() := last.host]
  }

  lemma LastBinding(bindings: seq<Binding>)
    requires bindings != []
    ensures forall b :: b in bindings <==> b in bindings[..|bindings| - 1] || b == bindings[|bindings| - 1]
  {
    assert bindings == bindings[..|bindings| - 1] + [bindings[|bindings| - 1]];
  }

  predicate Holds(bindings: seq<Binding>, k: Key, host: nat) {
    exists b :: b in bindings && b.Key() == k && b.host == host
  }

  lemma {:induction false} OwnHolds(bindings: seq<Binding>, k: Key)
    ensures k in Own(bindings) <==> exists b :: b in bindings && b.Key() == k
    ensures k in Own(bindings) ==> Holds(bindings, k, Own(bindings)[k])
  {
    if bindings != [] {
      OwnHolds(bindings[..|bindings| - 1], k);
      LastBinding(bindings);
      if k != bindings[|bindings| - 1].Key() && k in Own(bindings) {
        var b :| b in bindings[..|bindings| - 1] && b.Key() == k && b.host == Own(bindings)[k];
        assert b in bindings;
      }
    }
  }

  lemma DistinctPrefix(bindings: seq<Binding>, n: nat)
    requires Distinct(KeysOf(bindings)) && n <= |bindings|
    ensures Distinct(KeysOf(bindings[..n]))
  {
    var keys, fewer := KeysOf(bindings), KeysOf(bindings[..n]);
    forall j, k | 0 <= j < k < |fewer| ensures fewer[j] != fewer[k] {
      assert fewer[j] == bindings[..n][j].Key() == keys[j] && fewer[k] == bindings[..n][k].Key() == keys[k];
    }
  }

  lemma {:induction false} OwnOnce(bindings: seq<Binding>, b: Binding)
    requires Distinct(KeysOf(bindings)) && b in bindings
    ensures b.Key() in Own(bindings) && Own(bindings)[b.Key()] == b.host
  {
    var n := |bindings| - 1;
    if b != bindings[n] {
      var i :| 0 <= i < n && bindings[i] == b;
      assert KeysOf(bindings)[i] != KeysOf(bindings)[n];
      DistinctPrefix(bindings, n);
      assert bindings[..n][i] == b;
      OwnOnce(bindings[..n], b);
    }
  }

  lemma OwnIs(bindings: seq<Binding>)
    ensures forall k :: k in Own(bindings) <==> exists b :: b in bindings && b.Key() == k
    ensures forall k :: k in Own(bindings) ==> exists b :: b in bindings && b.Key() == k && b.host == Own(bindings)[k]
    ensures Distinct(KeysOf(bindings)) ==> forall b :: b in bindings ==> b.Key() in Own(bindings) && Own(bindings)[b.Key()] == b.host
  {
    forall k
      ensures k in Own(bindings) <==> exists b :: b in bindings && b.Key() == k
      ensures k in Own(bindings) ==> Holds(bindings, k, Own(bindings)[k])
    {
      OwnHolds(bindings, k);
    }
    if Distinct(KeysOf(bindings)) {
      forall b | b in bindings ensures b.Key() in Own(bindings) && Own(bindings)[b.Key()] == b.host { OwnOnce(bindings, b); }
    }
  }

  /** Redeploying with the install's own ports reserved, whatever now listens, whatever else is
      reserved, and whatever the app asks for by now: a port the app held stays what it was if the
      new shape of the host allows it, and otherwise becomes one that nobody had; so does a new one.
      Of a port held twice the later entry is the one that counts. */
  lemma {:induction false} RedeployIsStable(before: seq<Binding>, s: Setting, start: set<nat>, components: seq<Component>, i: nat)
    requires s.own == Own(before) && s.own.Values <= start
    requires BindAll(s, start, components).Some? && i < |Keys(components)|
    ensures var after, key := BindAll(s, start, components).value.bindings, Keys(components)[i];
            && |after| == |Keys(components)| && after[i].Key() == key
            && (key in Own(before) ==> (after[i].host == Own(before)[key] <==> !s.Forbids(Own(before)[key])))
            && ((key in Own(before) ==> s.Forbids(Own(before)[key])) ==> after[i].host !in start)
    ensures Distinct(KeysOf(before)) ==> forall b :: b in before && b.Key() == Keys(components)[i] ==>
              (BindAll(s, start, components).value.bindings[i].host == b.host <==> !s.Forbids(b.host))
  {
    PlanOrderly(s, start, components);
    OwnIs(before);
    var after := BindAll(s, start, components).value;
    assert |KeysOf(after.bindings)| == |after.bindings|;
    assert after.bindings[i].Key() == KeysOf(after.bindings)[i];
    assert Sourced(s, start, after.used, after.bindings[i]);
    if after.bindings[i].Key() in s.own { assert s.own[after.bindings[i].Key()] in s.own.Values; }
  }

  /** In an unchanged mode a redeploy never fails, and publishes the same ports again. */
  lemma {:induction false} RedeployRepeats(before: seq<Binding>, s: Setting, start: set<nat>, components: seq<Component>)
    requires forall b :: b in before ==> !s.Forbids(b.host)
    requires s.own == Own(before) && s.own.Values <= start
    requires forall k :: k in Keys(components) ==> k in s.own
    ensures BindAll(s, start, components).Some?
  {
    OwnIs(before);
    assert forall k :: k in s.own ==> !s.Forbids(s.own[k]);
    KeptKeysPlan(s, start, components);
  }

  lemma {:induction false} KeptPortsBind(s: Setting, b: Bound, component: string, ports: seq<PortPlan>)
    requires forall k :: k in PortKeys(component, ports) ==> Kept(s, k).Some?
    ensures BindPorts(s, b, component, ports).Some?
  {
    if ports != [] {
      var last := ports[|ports| - 1];
      KeptPortsBind(s, b, component, ports[..|ports| - 1]);
      if last.expose { assert (component, last.container) in PortKeys(component, ports); }
    }
  }

  lemma {:induction false} KeptKeysPlan(s: Setting, start: set<nat>, components: seq<Component>)
    requires forall k :: k in Keys(components) ==> Kept(s, k).Some?
    ensures BindAll(s, start, components).Some?
  {
    if components != [] {
      var last := components[|components| - 1];
      KeptKeysPlan(s, start, components[..|components| - 1]);
      var before := BindAll(s, start, components[..|components| - 1]).value;
      KeptPortsBind(s, Bound([], before.bindings, before.used), last.name, last.ports);
    }
  }

  /** In an unchanged mode, with the same list of ports, they come out distinct exactly when the app
      asks once for each: a second entry for the same container port collides with the first. */
  lemma {:induction false} RedeployDistinctIff(before: seq<Binding>, s: Setting, start: set<nat>, components: seq<Component>)
    requires KeysOf(before) == Keys(components) && (forall b :: b in before ==> !s.Forbids(b.host))
    requires s.own == Own(before) && s.own.Values <= start
    requires DistinctHosts(before)
    ensures BindAll(s, start, components).Some?
    ensures DistinctHosts(BindAll(s, start, components).value.bindings) <==> Distinct(Keys(components))
  {
    OwnIs(before);
    forall k | k in Keys(components) ensures Kept(s, k).Some? {
      var i :| 0 <= i < |before| && KeysOf(before)[i] == k;
      assert before[i] in before && before[i].Key() == k;
    }
    KeptKeysPlan(s, start, components);
    forall x, y | x in before && y in before && x.Key() != y.Key() ensures x.host != y.host { DistinctApart(before, x, y); }
    OwnOneToOne(before);
    PlanDistinctIff(s, start, components);
  }

  lemma {:induction false} OwnOneToOne(bindings: seq<Binding>)
    requires forall x, y :: x in bindings && y in bindings && x.Key() != y.Key() ==> x.host != y.host
    ensures OneToOne(Own(bindings))
  {
    OwnIs(bindings);
    forall k, l | k in Own(bindings) && l in Own(bindings) && k != l ensures Own(bindings)[k] != Own(bindings)[l] {
      var x :| x in bindings && x.Key() == k && x.host == Own(bindings)[k];
      var y :| y in bindings && y.Key() == l && y.host == Own(bindings)[l];
    }
  }

  lemma DistinctApart(bindings: seq<Binding>, x: Binding, y: Binding)
    requires DistinctHosts(bindings) && x in bindings && y in bindings && x != y
    ensures x.host != y.host
  {
    var i :| 0 <= i < |bindings| && bindings[i] == x;
    var j :| 0 <= j < |bindings| && bindings[j] == y;
    assert i != j;
  }
}
