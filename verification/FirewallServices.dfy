/** Named services and the firewall rules they stand for, there and back. */
module FirewallServices {
  import opened Strings
  import opened PortSpecs
  import opened Nftables

  datatype Service = Service(id: string, title: string, protocol: Protocol, port: string, enabled: bool, sources: seq<string>)

  /** One row per protocol and port spec. */
  type Key = (Protocol, string)

  function KeyOf(s: Service): Key { (s.protocol, s.port) }

  function ProtocolName(p: Protocol): string {
    match p
    case Tcp => "tcp"
    case Udp => "udp"
    case Icmp => "icmp"
  }

  function IdFor(k: Key): string {
    if k == (Tcp, "22") then "ssh"
    else if k == (Tcp, "80") then "http"
    else if k == (Tcp, "443") then "https"
    else "port-" + ProtocolName(k.0) + "-" + k.1
  }

  function TitleFor(k: Key): string {
    if k == (Tcp, "22") then "SSH"
    else if k == (Tcp, "80") then "Web (HTTP)"
    else if k == (Tcp, "443") then "Web (HTTPS)"
    else "Port " + k.1
  }

  function ToRule(s: Service): Rule {
    Rule(s.title, true, s.protocol, s.port, s.sources)
  }

  function ToRules(services: seq<Service>): seq<Rule> {
    if services == [] then []
    else
      var last := services[|services| - 1];
      ToRules(services[..|services| - 1]) + if last.enabled then [ToRule(last)] else []
  }

  /** A rule the simple model can show: inbound, tcp or udp, with a port. */
  predicate IsServiceRule(r: Rule) {
    r.inbound && r.protocol != Icmp && r.port != ""
  }

  function ToService(r: Rule): Service {
    var k := (r.protocol, r.port);
    Service(IdFor(k), TitleFor(k), r.protocol, r.port, true, r.sources)
  }

  predicate HasKey(services: seq<Service>, k: Key) {
    exists s :: s in services && KeyOf(s) == k
  }

  /** One service per key; the first rule wins. */
  function ToServices(rules: seq<Rule>): seq<Service> {
    if rules == [] then []
    else
      var earlier, last := ToServices(rules[..|rules| - 1]), rules[|rules| - 1];
      if !IsServiceRule(last) || HasKey(earlier, (last.protocol, last.port)) then earlier else earlier + [ToService(last)]
  }

  method RulesToServices(rules: seq<Rule>) returns (services: seq<Service>)
    ensures services == ToServices(rules)
  {
    services := [];
    var seen: set<Key> := {};
    var i := 0;
    while i < |rules|
      invariant 0 <= i <= |rules| && services == ToServices(rules[..i])
      invariant forall k :: k in seen <==> HasKey(services, k)
    {
      assert rules[..i + 1][..i] == rules[..i];
      var r := rules[i];
      if IsServiceRule(r) && (r.protocol, r.port) !in seen {
        ghost var before := services;
        services := services + [ToService(r)];
        seen := seen + {(r.protocol, r.port)};
        forall k ensures k in seen <==> HasKey(services, k) {
          if s :| s in before && KeyOf(s) == k { assert s in services; }
          assert ToService(r) in services;
        }
      }
      i := i + 1;
    }
    assert rules[..|rules|] == rules;
  }

  /******* Round trips *******/

  /** Just as the rules would be shown again. */
  predicate Canonical(s: Service) {
    s.enabled && s.protocol != Icmp && s.port != "" && s.id == IdFor(KeyOf(s)) && s.title == TitleFor(KeyOf(s))
  }

  predicate DistinctKeys(services: seq<Service>) {
    forall i, j :: 0 <= i < j < |services| ==> KeyOf(services[i]) != KeyOf(services[j])
  }

  predicate Shown(services: seq<Service>) {
    (forall s :: s in services ==> Canonical(s)) && DistinctKeys(services)
  }

  /** Every list of services read back is canonical, with one row per key. */
  lemma {:induction false} ReadIsShown(rules: seq<Rule>)
    ensures Shown(ToServices(rules))
  {
    if rules != [] {
      var n := |rules| - 1;
      var earlier, last := ToServices(rules[..n]), rules[n];
      ReadIsShown(rules[..n]);
      if IsServiceRule(last) && !HasKey(earlier, (last.protocol, last.port)) {
        var services := ToServices(rules);
        forall i, j | 0 <= i < j < |services| ensures KeyOf(services[i]) != KeyOf(services[j]) {
          if j == |earlier| { assert earlier[i] in earlier; }
        }
      }
    }
  }

  lemma {:induction false} ShownPrefix(services: seq<Service>, n: nat)
    requires Shown(services) && n <= |services|
    ensures Shown(services[..n])
  {
    forall s | s in services[..n] ensures Canonical(s) { assert s in services; }
  }

  /** Rules made from services, and read back, give the same services in the same order exactly when
      those are canonical with one row per key. */
  lemma {:induction false} ServicesRoundTrip(services: seq<Service>)
    ensures ToServices(ToRules(services)) == services <==> Shown(services)
  {
    if Shown(services) {
      ShownRoundTrip(services);
    }
    ReadIsShown(ToRules(services));
  }

  lemma {:induction false} ShownRoundTrip(services: seq<Service>)
    requires Shown(services)
    ensures ToServices(ToRules(services)) == services
  {
    if services != [] {
      var n := |services| - 1;
      var earlier, last := services[..n], services[n];
      ShownPrefix(services, n);
      ShownRoundTrip(earlier);
      assert last in services && Canonical(last);
      var rules := ToRules(services);
      assert rules == ToRules(earlier) + [ToRule(last)];
      assert rules[..|rules| - 1] == ToRules(earlier) && rules[|rules| - 1] == ToRule(last);
      assert ToService(ToRule(last)) == last;
      LastKeyIsNew(services);
    }
  }

  lemma {:induction false} LastKeyIsNew(services: seq<Service>)
    requires services != [] && DistinctKeys(services)
    ensures !HasKey(services[..|services| - 1], KeyOf(services[|services| - 1]))
  {
    forall s | s in services[..|services| - 1] ensures KeyOf(s) != KeyOf(services[|services| - 1]) {
      var i :| 0 <= i < |services| - 1 && services[i] == s;
    }
  }

  /** Whatever the rules, one reading settles: written out and read again it stays the same. */
  lemma {:induction false} ReadingSettles(rules: seq<Rule>)
    ensures ToServices(ToRules(ToServices(rules))) == ToServices(rules)
  {
    ReadIsShown(rules);
    ShownRoundTrip(ToServices(rules));
  }

  /******* Rules the simple model cannot show *******/

  function Preserved(rules: seq<Rule>): seq<Rule> {
    if rules == [] then []
    else
      var last := rules[|rules| - 1];
      Preserved(rules[..|rules| - 1]) + if IsServiceRule(last) then [] else [last]
  }

  lemma {:induction false} PreservedIs(rules: seq<Rule>)
    ensures forall r :: r in Preserved(rules) ==> !IsServiceRule(r)
  {
    if rules != [] { PreservedIs(rules[..|rules| - 1]); }
  }

  lemma {:induction false} ToRulesAreServices(services: seq<Service>)
    requires forall s :: s in services ==> s.protocol != Icmp && s.port != ""
    ensures forall r :: r in ToRules(services) ==> IsServiceRule(r)
  {
    if services != [] {
      assert forall s :: s in services[..|services| - 1] ==> s in services;
      ToRulesAreServices(services[..|services| - 1]);
    }
  }

  lemma {:induction false} AllPreserved(kept: seq<Rule>)
    requires forall r :: r in kept ==> !IsServiceRule(r)
    ensures Preserved(kept) == kept && ToServices(kept) == []
  {
    if kept != [] {
      var n := |kept| - 1;
      assert kept == kept[..n] + [kept[n]] && kept[n] in kept;
      AllPreserved(kept[..n]);
    }
  }

  lemma {:induction false} NothingToPreserve(kept: seq<Rule>, rules: seq<Rule>)
    requires (forall r :: r in kept ==> !IsServiceRule(r)) && forall r :: r in rules ==> IsServiceRule(r)
    ensures Preserved(kept + rules) == kept
  {
    if rules == [] {
      assert kept + rules == kept;
      AllPreserved(kept);
    } else {
      var n := |rules| - 1;
      assert (kept + rules)[..|kept + rules| - 1] == kept + rules[..n];
      assert rules[n] in rules;
      NothingToPreserve(kept, rules[..n]);
    }
  }

  lemma {:induction false} PrependedUnseen(kept: seq<Rule>, rules: seq<Rule>)
    requires forall r :: r in kept ==> !IsServiceRule(r)
    ensures ToServices(kept + rules) == ToServices(rules)
  {
    if rules == [] {
      assert kept + rules == kept;
      AllPreserved(kept);
    } else {
      var n := |rules| - 1;
      assert (kept + rules)[..|kept + rules| - 1] == kept + rules[..n];
      PrependedUnseen(kept, rules[..n]);
    }
  }

  /** The provider's firewall for a host, as `set` leaves it. */
  class ProviderFirewall {
    var present: bool
    var rules: seq<Rule>
    var appliedTo: set<string>

    constructor ()
      ensures !present && rules == [] && appliedTo == {}
    {
      present, rules, appliedTo := false, [], {};
    }

    /** Replaces what the simple model shows and keeps the rest; the server is attached once. */
    method ApplyProvider(services: seq<Service>, server: string)
      requires forall s :: s in services ==> s.protocol != Icmp && s.port != ""
      modifies this
      ensures present && appliedTo == (if old(present) then old(appliedTo) else {}) + {server}
      ensures rules == (if old(present) then Preserved(old(rules)) else []) + ToRules(services)
      ensures Preserved(rules) == if old(present) then Preserved(old(rules)) else []
      ensures ToServices(rules) == ToServices(ToRules(services))
      ensures Shown(services) ==> ToServices(rules) == services
    {
      var kept := if present then Preserved(rules) else [];
      if present { PreservedIs(rules); }
      ToRulesAreServices(services);
      NothingToPreserve(kept, ToRules(services));
      PrependedUnseen(kept, ToRules(services));
      if Shown(services) { ShownRoundTrip(services); }
      if !present { appliedTo := {}; }
      rules := kept + ToRules(services);
      if server !in appliedTo { appliedTo := appliedTo + {server}; }
      present := true;
    }
  }

  /** Applying a second time replaces the first: the rules the model cannot show are neither lost
      nor repeated, however often services are set. */
  lemma {:induction false} ApplyingTwice(rules: seq<Rule>, first: seq<Service>, second: seq<Service>)
    requires forall s :: s in first ==> s.protocol != Icmp && s.port != ""
    ensures Preserved(Preserved(rules) + ToRules(first)) + ToRules(second) == Preserved(rules) + ToRules(second)
  {
    PreservedIs(rules);
    ToRulesAreServices(first);
    NothingToPreserve(Preserved(rules), ToRules(first));
  }

  /******* The lock-out check *******/

  predicate PartAllows(part: string, port: nat) {
    var p := Trim(part);
    || p == Digits(port)
    || (var ends := Split(p, '-');
        |ends| == 2 && IsNumber(ends[0]) && IsNumber(ends[1]) && Value(ends[0]) <= port <= Value(ends[1]))
  }

  predicate RuleAllows(r: Rule, port: nat) {
    r.protocol == Tcp && r.port != "" && exists part :: part in Split(r.port, ',') && PartAllows(part, port)
  }

  predicate RulesAllowPort(rules: seq<Rule>, port: nat) {
    exists r :: r in rules && RuleAllows(r, port)
  }

  lemma {:induction false} ElementIsTrimmed(e: string)
    requires ParseElement(e).Some?
    ensures Trim(e) == e
  {
    if IsNumber(e) {
      assert e[0] in e && e[|e| - 1] in e;
    } else {
      var ends := Split(e, '-');
      JoinTwo(e, ends[0], ends[1]);
      assert ends[0][0] in ends[0] && ends[1][|ends[1]| - 1] in ends[1];
    }
  }

  lemma {:induction false} JoinTwo(e: string, a: string, b: string)
    requires Split(e, '-') == [a, b]
    ensures e == a + "-" + b
  {
    if e[0] == '-' {
      var rest := Split(e[1..], '-');
      assert Split(e, '-') == [""] + rest && Split(e, '-')[0] == "" && Split(e, '-')[1] == rest[0];
      assert rest == [b];
      JoinOne(e[1..], b);
    } else {
      var rest := Split(e[1..], '-');
      assert Split(e, '-') == [[e[0]] + rest[0]] + rest[1..];
      assert Split(e, '-')[0] == [e[0]] + rest[0] && Split(e, '-')[1] == rest[1];
      assert rest == [rest[0], b];
      JoinTwo(e[1..], rest[0], b);
    }
  }

  lemma {:induction false} JoinOne(e: string, b: string)
    requires Split(e, '-') == [b]
    ensures e == b
  {
    if e != "" {
      var rest := Split(e[1..], '-');
      assert e[0] != '-';
      assert Split(e, '-') == [[e[0]] + rest[0]] + rest[1..];
      assert Split(e, '-')[0] == [e[0]] + rest[0] && rest == [rest[0]];
      JoinOne(e[1..], rest[0]);
    }
  }

  lemma {:induction false} AllowedRule(rules: seq<Rule>, port: nat) returns (r: Rule)
    requires RulesAllowPort(rules, port) && forall r :: r in rules && r.protocol == Tcp ==> ParsePorts(r.port).Some?
    ensures r in rules && r.protocol == Tcp && ParsePorts(r.port).Some? && Within(port, ParsePorts(r.port).value)
  {
    r :| r in rules && RuleAllows(r, port);
    var part :| part in Split(r.port, ',') && PartAllows(part, port);
    var i :| 0 <= i < |Split(r.port, ',')| && Split(r.port, ',')[i] == part;
    TrimmedParts(r.port, ',', i);
    var spec := Trim(r.port);
    DigitsNumber(port);
    assert spec != "";
    var es := Split(spec, ',');
    ElementsIs(es, i);
    ElementIsTrimmed(es[i]);
    assert Trim(part) == es[i];
    AllowedElement(es[i], port);
    MemberCovers(es, ParsePorts(r.port).value, es[i], port);
  }

  lemma {:induction false} RuleOfService(services: seq<Service>, r: Rule) returns (s: Service)
    requires r in ToRules(services)
    ensures s in services && s.enabled && r == ToRule(s)
  {
    var n := |services| - 1;
    if services[n].enabled && r == ToRule(services[n]) {
      s := services[n];
    } else {
      s := RuleOfService(services[..n], r);
    }
  }

  lemma SomeoneFrom(net: Net, sources: seq<string>, port: nat) returns (p: Packet)
    requires forall source :: source in sources && !IsAny(source) ==> NamesSomeone(net, source)
    ensures From(net, sources, p) && p.transport == TcpPacket && p.port == port && p.connection == New && !p.loopback
  {
    p := Packet(V4, 0, TcpPacket, port, New, false);
    if sources != [] {
      var source := sources[0];
      if source == ANY_V6 {
        p := p.(family := V6);
      } else if source != ANY_V4 {
        assert NamesSomeone(net, source);
        var a: nat :| net.contains(source, a);
        p := p.(family := if IsV6(source) then V6 else V4, source := a);
      }
      assert Names(net, source, p);
    }
  }

  /** Services that pass the lock-out check really leave the port open: one of their inbound rules
      opens it for a new connection from somewhere. */
  lemma AllowedMeansOpen(net: Net, services: seq<Service>, port: nat) returns (r: Rule, p: Packet)
    requires RulesAllowPort(ToRules(services), port)
    requires forall s :: s in services && s.enabled && s.protocol == Tcp ==> ParsePorts(s.port).Some?
    requires forall s, source :: s in services && s.enabled && source in s.sources && !IsAny(source) ==> NamesSomeone(net, source)
    ensures r in ToRules(services) && r.inbound && Opens(net, r, p)
    ensures p.transport == TcpPacket && p.port == port && p.connection == New && !p.loopback
  {
    forall x | x in ToRules(services) && x.protocol == Tcp ensures ParsePorts(x.port).Some? {
      var _ := RuleOfService(services, x);
    }
    r := AllowedRule(ToRules(services), port);
    var s := RuleOfService(services, r);
    p := SomeoneFrom(net, r.sources, port);
  }

  lemma {:induction false} AllowedElement(e: string, port: nat)
    requires ParseElement(e).Some? && Trim(e) == e && PartAllows(e, port)
    ensures ParseElement(e).value.lo <= port <= ParseElement(e).value.hi
  {
    DigitsNumber(port);
    if e != Digits(port) { RangeNotNumber(e); }
  }

  /******* Opening and closing one port *******/

  function WithoutId(services: seq<Service>, id: string): seq<Service> {
    if services == [] then []
    else
      var last := services[|services| - 1];
      WithoutId(services[..|services| - 1], id) + if last.id == id then [] else [last]
  }

  function WithoutKey(services: seq<Service>, k: Key): seq<Service> {
    if services == [] then []
    else
      var last := services[|services| - 1];
      WithoutKey(services[..|services| - 1], k) + if KeyOf(last) == k then [] else [last]
  }

  /** Opening a port drops the service of the same id and adds the new one at the end. */
  function Open(services: seq<Service>, s: Service): seq<Service> {
    WithoutId(services, s.id) + [s]
  }

  function Close(services: seq<Service>, s: Service): seq<Service> {
    WithoutKey(services, KeyOf(s))
  }

  lemma {:induction false} WithoutIdIs(services: seq<Service>, id: string)
    ensures forall s :: s in WithoutId(services, id) <==> s in services && s.id != id
  {
    if services != [] {
      WithoutIdIs(services[..|services| - 1], id);
      assert services == services[..|services| - 1] + [services[|services| - 1]];
    }
  }

  lemma {:induction false} WithoutKeyIs(services: seq<Service>, k: Key)
    ensures forall s :: s in WithoutKey(services, k) <==> s in services && KeyOf(s) != k
  {
    if services != [] {
      WithoutKeyIs(services[..|services| - 1], k);
      assert services == services[..|services| - 1] + [services[|services| - 1]];
    }
  }

  lemma {:induction false} FirstWins(services: seq<Service>, k: Key)
    requires forall s :: s in services ==> s.enabled && s.protocol != Icmp && s.port != ""
    ensures HasKey(ToServices(ToRules(services)), k) <==> HasKey(services, k)
    ensures forall s :: s in ToServices(ToRules(services)) ==> exists t :: t in services && KeyOf(t) == KeyOf(s) && t.sources == s.sources
  {
    if services != [] {
      var n := |services| - 1;
      var earlier, last := services[..n], services[n];
      assert forall s :: s in services <==> s in earlier || s == last;
      FirstWins(earlier, k);
      FirstWins(earlier, KeyOf(last));
      var rules := ToRules(services);
      assert last in services;
      assert rules == ToRules(earlier) + [ToRule(last)];
      assert rules[..|rules| - 1] == ToRules(earlier);
      var read, before := ToServices(rules), ToServices(ToRules(earlier));
      if HasKey(before, KeyOf(last)) {
        assert read == before;
      } else {
        assert read == before + [ToService(ToRule(last))];
        assert KeyOf(ToService(ToRule(last))) == KeyOf(last);
        if s :| s in before && KeyOf(s) == k { assert s in read; }
        assert read[|before|] in read;
      }
    }
  }

  lemma {:induction false} ReadSnoc(services: seq<Service>, s: Service)
    requires s.enabled && s.protocol != Icmp && s.port != ""
    ensures var before := ToServices(ToRules(services));
            ToServices(ToRules(services + [s])) == if HasKey(before, KeyOf(s)) then before else before + [ToService(ToRule(s))]
  {
    assert (services + [s])[..|services|] == services;
    var rules := ToRules(services + [s]);
    assert rules == ToRules(services) + [ToRule(s)];
    assert rules[..|rules| - 1] == ToRules(services);
  }

  /** After a port is opened it is shown last, open to just the sources asked for, exactly when no row
      of the same port goes by another id. Opening a well-known port by its number leaves the old
      row, and the view goes on showing the old row's sources. */
  lemma {:induction false} OpenIsShownIff(services: seq<Service>, s: Service)
    requires Shown(services) && s.enabled && s.protocol != Icmp && s.port != ""
    ensures var view := ToServices(ToRules(Open(services, s)));
            (view != [] && view[|view| - 1] == ToService(ToRule(s)) && view == WithoutId(services, s.id) + [ToService(ToRule(s))])
            <==> !(exists t :: t in services && KeyOf(t) == KeyOf(s) && t.id != s.id)
  {
    var kept := WithoutId(services, s.id);
    WithoutIdIs(services, s.id);
    KeptShown(services, s.id);
    ShownRoundTrip(kept);
    ReadSnoc(kept, s);
    if HasKey(kept, KeyOf(s)) {
      var t :| t in kept && KeyOf(t) == KeyOf(s);
      assert t in services && t.id != s.id;
    }
    if t :| t in services && KeyOf(t) == KeyOf(s) && t.id != s.id { assert t in kept && HasKey(kept, KeyOf(s)); }
  }

  lemma {:induction false} KeptShown(services: seq<Service>, id: string)
    requires Shown(services)
    ensures Shown(WithoutId(services, id))
  {
    if services != [] {
      var n := |services| - 1;
      ShownPrefix(services, n);
      KeptShown(services[..n], id);
      WithoutIdIs(services[..n], id);
      WithoutIdIs(services, id);
      var kept, earlier := WithoutId(services, id), WithoutId(services[..n], id);
      forall i, j | 0 <= i < j < |kept| ensures KeyOf(kept[i]) != KeyOf(kept[j]) {
        if j == |earlier| {
          assert earlier[i] in earlier;
          var x :| 0 <= x < n && services[..n][x] == earlier[i];
          assert KeyOf(services[x]) != KeyOf(services[n]);
        }
      }
    }
  }

  /** Closing takes every row of the port away, whatever its id. */
  lemma {:induction false} CloseShutsPort(services: seq<Service>, s: Service)
    requires forall t :: t in services ==> t.enabled && t.protocol != Icmp && t.port != ""
    ensures !HasKey(ToServices(ToRules(Close(services, s))), KeyOf(s))
  {
    WithoutKeyIs(services, KeyOf(s));
    FirstWins(Close(services, s), KeyOf(s));
  }
}
