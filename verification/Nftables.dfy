/** The host firewall as a compiler: rules and options in, an nftables input chain out. */
module Nftables {
  import opened Optional
  import opened Strings
  import opened PortSpecs

  datatype Protocol = Tcp | Udp | Icmp

  datatype Rule = Rule(description: string, inbound: bool, protocol: Protocol, port: string, sources: seq<string>)

  datatype Options = Options(acceptByDefault: bool, keepSshOpen: bool, sshPort: nat, sshAlwaysOpen: bool, allowPing: bool)

  const ANY_V4 := "0.0.0.0/0"
  const ANY_V6 := "::/0"

  /******* Packets and chains *******/

  datatype Family = V4 | V6

  datatype Connection = New | Established | Invalid

  datatype Transport = TcpPacket | UdpPacket | IcmpPacket | Icmpv6Packet | OtherPacket

  datatype Packet = Packet(family: Family, source: nat, transport: Transport, port: nat, connection: Connection, loopback: bool)

  /** Which addresses a source names; the text of an address is read by nftables itself. */
  datatype Net = Net(contains: (string, nat) -> bool)

  datatype Line =
    | AcceptEstablished
    | DropInvalid
    | AcceptLoopback
    | AcceptIcmp
    | AcceptIcmpv6
    | AcceptPort(protocol: Protocol, ranges: seq<Range>)
    | AcceptPortFrom(family: Family, sources: seq<string>, protocol: Protocol, ranges: seq<Range>)

  predicate Carries(p: Packet, protocol: Protocol) {
    match protocol
    case Tcp => p.transport == TcpPacket
    case Udp => p.transport == UdpPacket
    case Icmp => p.transport == IcmpPacket || p.transport == Icmpv6Packet
  }

  predicate InAny(net: Net, sources: seq<string>, source: nat) {
    exists s :: s in sources && net.contains(s, source)
  }

  predicate Matches(net: Net, line: Line, p: Packet) {
    match line
    case AcceptEstablished => p.connection == Established
    case DropInvalid => p.connection == Invalid
    case AcceptLoopback => p.loopback
    case AcceptIcmp => p.family == V4 && p.transport == IcmpPacket
    case AcceptIcmpv6 => p.transport == Icmpv6Packet
    case AcceptPort(protocol, ranges) => Carries(p, protocol) && Within(p.port, ranges)
    case AcceptPortFrom(family, sources, protocol, ranges) =>
      p.family == family && InAny(net, sources, p.source) && Carries(p, protocol) && Within(p.port, ranges)
  }

  /** The first line that matches decides; after the last one, the chain's policy. */
  predicate Accepts(net: Net, lines: seq<Line>, policy: bool, p: Packet) {
    if lines == [] then policy
    else if Matches(net, lines[0], p) then !lines[0].DropInvalid?
    else Accepts(net, lines[1..], policy, p)
  }

  /******* The renderer *******/

  predicate IsV6(source: string) { ':' in source }

  predicate IsAny(source: string) { source == ANY_V4 || source == ANY_V6 }

  function OfFamily(sources: seq<string>, family: Family): seq<string> {
    if sources == [] then []
    else
      var last := sources[|sources| - 1];
      OfFamily(sources[..|sources| - 1], family) + if !IsAny(last) && (family == V6 <==> IsV6(last)) then [last] else []
  }

  method SplitCidrs(sources: seq<string>) returns (v4: seq<string>, v6: seq<string>)
    ensures v4 == OfFamily(sources, V4) && v6 == OfFamily(sources, V6)
  {
    v4, v6 := [], [];
    var i := 0;
    while i < |sources|
      invariant 0 <= i <= |sources| && v4 == OfFamily(sources[..i], V4) && v6 == OfFamily(sources[..i], V6)
    {
      assert sources[..i + 1][..i] == sources[..i];
      var c := sources[i];
      if c != ANY_V4 && c != ANY_V6 {
        if ':' in c { v6 := v6 + [c]; } else { v4 := v4 + [c]; }
      }
      i := i + 1;
    }
    assert sources[..|sources|] == sources;
  }

  function RenderInbound(protocol: Protocol, ranges: seq<Range>, v4: seq<string>, v6: seq<string>): seq<Line> {
    if v4 == [] && v6 == [] then [AcceptPort(protocol, ranges)]
    else
      (if v4 != [] then [AcceptPortFrom(V4, v4, protocol, ranges)] else [])
      + (if v6 != [] then [AcceptPortFrom(V6, v6, protocol, ranges)] else [])
  }

  predicate IsPortRule(r: Rule) { r.inbound && r.protocol != Icmp }
  predicate IsPingRule(r: Rule) { r.inbound && r.protocol == Icmp }

  /** The lines of one rule; none at all when its port spec is malformed. */
  function RenderRule(r: Rule): Option<seq<Line>> {
    if !IsPortRule(r) then Some([])
    else
      match ParsePorts(r.port)
      case None => None
      case Some(ranges) => Some(RenderInbound(r.protocol, ranges, OfFamily(r.sources, V4), OfFamily(r.sources, V6)))
  }

  function RenderRules(rules: seq<Rule>): Option<seq<Line>> {
    if rules == [] then Some([])
    else
      match (RenderRule(rules[0]), RenderRules(rules[1..]))
      case (Some(first), Some(rest)) => Some(first + rest)
      case _ => None
  }

  predicate PingWanted(rules: seq<Rule>, opts: Options) {
    opts.allowPing || exists r :: r in rules && IsPingRule(r)
  }

  predicate SomeRuleCovers(rules: seq<Rule>, port: nat) {
    exists r :: r in rules && r.inbound && r.protocol == Tcp && CoversPort(r.port, port)
  }

  predicate KeepsSsh(rules: seq<Rule>, opts: Options) {
    opts.sshAlwaysOpen || (opts.keepSshOpen && !opts.acceptByDefault && !SomeRuleCovers(rules, opts.sshPort))
  }

  function Preamble(rules: seq<Rule>, opts: Options): seq<Line> {
    [AcceptEstablished, DropInvalid, AcceptLoopback]
      + (if PingWanted(rules, opts) then [AcceptIcmp, AcceptIcmpv6] else [])
      + (if KeepsSsh(rules, opts) then [AcceptPort(Tcp, [Range(opts.sshPort, opts.sshPort)])] else [])
  }

  /** The input chain, or nothing when some port spec is malformed. */
  function Render(rules: seq<Rule>, opts: Options): Option<seq<Line>> {
    match RenderRules(rules)
    case None => None
    case Some(lines) => Some(Preamble(rules, opts) + lines)
  }

  lemma {:induction false} RenderPrefix(rules: seq<Rule>, i: nat)
    requires i < |rules|
    ensures RenderRules(rules[..i + 1]).Some? <==> RenderRules(rules[..i]).Some? && RenderRule(rules[i]).Some?
    ensures RenderRules(rules[..i + 1]).Some? ==>
      RenderRules(rules[..i + 1]).value == RenderRules(rules[..i]).value + RenderRule(rules[i]).value
  {
    var more := rules[..i + 1];
    if i == 0 {
      assert more[1..] == [];
      assert rules[..0] == [];
    } else {
      assert more[1..] == rules[1..][..i];
      assert rules[..i][1..] == rules[1..][..i - 1];
      RenderPrefix(rules[1..], i - 1);
    }
  }

  lemma {:induction false} MalformedStays(rules: seq<Rule>, i: nat)
    requires i <= |rules| && RenderRules(rules[..i]).None?
    ensures RenderRules(rules).None?
    decreases |rules| - i
  {
    if i == |rules| {
      assert rules[..i] == rules;
    } else {
      RenderPrefix(rules, i);
      MalformedStays(rules, i + 1);
    }
  }

  method BuildInboundLines(rules: seq<Rule>) returns (lines: Option<seq<Line>>)
    ensures lines == RenderRules(rules)
  {
    var out, i := [], 0;
    while i < |rules|
      invariant 0 <= i <= |rules| && RenderRules(rules[..i]) == Some(out)
    {
      RenderPrefix(rules, i);
      if IsPortRule(rules[i]) {
        var v4, v6 := SplitCidrs(rules[i].sources);
        var ranges := ParsePorts(rules[i].port);
        if ranges.None? {
          MalformedStays(rules, i + 1);
          return None;
        }
        out := out + RenderInbound(rules[i].protocol, ranges.value, v4, v6);
      } else {
        assert out + [] == out;
      }
      i := i + 1;
    }
    assert rules[..|rules|] == rules;
    return Some(out);
  }

  method RenderNftables(rules: seq<Rule>, opts: Options) returns (chain: Option<seq<Line>>)
    ensures chain == Render(rules, opts)
  {
    var lines := BuildInboundLines(rules);
    if lines.None? { return None; }
    return Some(Preamble(rules, opts) + lines.value);
  }

  /******* What the rules mean *******/

  /** The addresses a rule's sources stand for: none named means everyone. */
  predicate From(net: Net, sources: seq<string>, p: Packet) {
    sources == [] || exists s :: s in sources && Names(net, s, p)
  }

  predicate Names(net: Net, source: string, p: Packet) {
    if source == ANY_V4 then p.family == V4
    else if source == ANY_V6 then p.family == V6
    else (p.family == V6 <==> IsV6(source)) && net.contains(source, p.source)
  }

  predicate Opens(net: Net, r: Rule, p: Packet) {
    && IsPortRule(r) && Carries(p, r.protocol) && From(net, r.sources, p)
    && ParsePorts(r.port).Some? && Within(p.port, ParsePorts(r.port).value)
  }

  predicate Ping(p: Packet) {
    (p.family == V4 && p.transport == IcmpPacket) || p.transport == Icmpv6Packet
  }

  predicate OpensPing(net: Net, r: Rule, p: Packet) {
    IsPingRule(r) && Ping(p) && From(net, r.sources, p)
  }

  /** The rule opens the port to someone, whatever its spec looks like. */
  predicate Covers(r: Rule, protocol: Protocol, port: nat) {
    IsPortRule(r) && r.protocol == protocol && ParsePorts(r.port).Some? && Within(port, ParsePorts(r.port).value)
  }

  /** SSH is to be open to everyone: always, or under a dropping policy when no rule is about it. */
  predicate AsksForSsh(rules: seq<Rule>, opts: Options) {
    || opts.sshAlwaysOpen
    || (opts.keepSshOpen && !opts.acceptByDefault && !exists r :: r in rules && Covers(r, Tcp, opts.sshPort))
  }

  /** What rules, options and policy ask for, packet by packet. */
  predicate Denotes(net: Net, rules: seq<Rule>, opts: Options, p: Packet) {
    if p.connection == Established then true
    else if p.connection == Invalid then false
    else
      || p.loopback
      || (opts.allowPing && Ping(p))
      || (exists r :: r in rules && (OpensPing(net, r, p) || Opens(net, r, p)))
      || (AsksForSsh(rules, opts) && p.transport == TcpPacket && p.port == opts.sshPort)
      || opts.acceptByDefault
  }

  /******* One rule *******/

  predicate RuleAccepts(net: Net, r: Rule, p: Packet)
    requires RenderRule(r).Some?
  {
    AnyLine(net, RenderRule(r).value, p)
  }

  predicate AnyLine(net: Net, lines: seq<Line>, p: Packet) {
    exists l :: l in lines && Matches(net, l, p)
  }

  predicate AnyRule(net: Net, rules: seq<Rule>, p: Packet) {
    exists r :: r in rules && RenderRule(r).Some? && RuleAccepts(net, r, p)
  }

  /** The sources name everyone, or nobody in particular is everyone: no entry says "any", or both
      families' do and nothing else does. */
  predicate PlainSources(sources: seq<string>) {
    || (forall s :: s in sources ==> !IsAny(s))
    || (ANY_V4 in sources && ANY_V6 in sources && forall s :: s in sources ==> IsAny(s))
  }

  predicate OutsideAll(net: Net, sources: seq<string>, a: nat) {
    forall s :: s in sources ==> !net.contains(s, a)
  }

  /** A list of plain addresses never covers a whole family. */
  ghost predicate LeavesSomeOut(net: Net, sources: seq<string>) {
    && (exists a: nat :: OutsideAll(net, OfFamily(sources, V4), a))
    && (exists a: nat :: OutsideAll(net, OfFamily(sources, V6), a))
  }

  lemma {:induction false} OfFamilyIs(sources: seq<string>, family: Family)
    ensures forall s :: s in OfFamily(sources, family) <==> s in sources && !IsAny(s) && (family == V6 <==> IsV6(s))
  {
    if sources != [] {
      OfFamilyIs(sources[..|sources| - 1], family);
      assert sources == sources[..|sources| - 1] + [sources[|sources| - 1]];
    }
  }

  lemma {:induction false} LineAmong(net: Net, r: Rule, p: Packet, family: Family)
    requires IsPortRule(r) && RenderRule(r).Some? && OfFamily(r.sources, family) != []
    ensures AcceptPortFrom(family, OfFamily(r.sources, family), r.protocol, ParsePorts(r.port).value) in RenderRule(r).value
  {
  }

  lemma {:induction false} NamedByFamily(net: Net, sources: seq<string>, p: Packet)
    ensures InAny(net, OfFamily(sources, p.family), p.source) <==> exists s :: s in sources && !IsAny(s) && Names(net, s, p)
  {
    OfFamilyIs(sources, p.family);
    if s :| s in sources && !IsAny(s) && Names(net, s, p) { assert s in OfFamily(sources, p.family); }
  }

  lemma {:induction false} NoneLeft(sources: seq<string>)
    ensures OfFamily(sources, V4) == [] && OfFamily(sources, V6) == [] <==> forall s :: s in sources ==> IsAny(s)
  {
    OfFamilyIs(sources, V4);
    OfFamilyIs(sources, V6);
    assert OfFamily(sources, V4) != [] ==> OfFamily(sources, V4)[0] in OfFamily(sources, V4);
    assert OfFamily(sources, V6) != [] ==> OfFamily(sources, V6)[0] in OfFamily(sources, V6);
  }

  lemma {:induction false} FamilyLines(net: Net, r: Rule, p: Packet)
    requires IsPortRule(r) && RenderRule(r).Some? && !(OfFamily(r.sources, V4) == [] && OfFamily(r.sources, V6) == [])
    ensures RuleAccepts(net, r, p) <==>
      Carries(p, r.protocol) && Within(p.port, ParsePorts(r.port).value) && InAny(net, OfFamily(r.sources, p.family), p.source)
  {
    if OfFamily(r.sources, p.family) != [] { LineAmong(net, r, p, p.family); }
  }

  /** The rendered lines let in exactly: everyone, when no plain source is left; else the plain ones. */
  lemma {:induction false} RuleAcceptsIs(net: Net, r: Rule, p: Packet)
    requires IsPortRule(r) && RenderRule(r).Some?
    ensures RuleAccepts(net, r, p) <==>
      && Carries(p, r.protocol) && Within(p.port, ParsePorts(r.port).value)
      && ((forall s :: s in r.sources ==> IsAny(s)) || exists s :: s in r.sources && !IsAny(s) && Names(net, s, p))
  {
    NoneLeft(r.sources);
    if OfFamily(r.sources, V4) == [] && OfFamily(r.sources, V6) == [] {
      var line := AcceptPort(r.protocol, ParsePorts(r.port).value);
      assert RenderRule(r).value == [line] && line in [line];
    } else {
      FamilyLines(net, r, p);
      NamedByFamily(net, r.sources, p);
    }
  }

  /** A rule means what it says, for every packet, as long as its sources are plain. */
  lemma {:induction false} PlainRuleMeans(net: Net, r: Rule, p: Packet)
    requires IsPortRule(r) && RenderRule(r).Some? && PlainSources(r.sources)
    ensures RuleAccepts(net, r, p) <==> Opens(net, r, p)
  {
    RuleAcceptsIs(net, r, p);
    if forall s :: s in r.sources ==> IsAny(s) {
      if r.sources != [] {
        assert r.sources[0] in r.sources;
        assert Names(net, if p.family == V4 then ANY_V4 else ANY_V6, p);
      }
    }
  }

  function ProbePacket(r: Rule, family: Family, a: nat, port: nat): Packet {
    Packet(family, a, if r.protocol == Tcp then TcpPacket else UdpPacket, port, New, false)
  }

  /** ... and only then: a rule that names "any" beside a plain source, or "any" of one family alone,
      is compiled to something else. */
  lemma {:induction false} RuleMeansIffPlain(net: Net, r: Rule, port: nat)
    requires IsPortRule(r) && RenderRule(r).Some? && Within(port, ParsePorts(r.port).value) && LeavesSomeOut(net, r.sources)
    ensures (forall p :: RuleAccepts(net, r, p) <==> Opens(net, r, p)) <==> PlainSources(r.sources)
  {
    if PlainSources(r.sources) {
      forall p ensures RuleAccepts(net, r, p) <==> Opens(net, r, p) { PlainRuleMeans(net, r, p); }
    } else {
      var p := Misread(net, r, port);
    }
  }

  lemma {:induction false} Misread(net: Net, r: Rule, port: nat) returns (p: Packet)
    requires IsPortRule(r) && RenderRule(r).Some? && Within(port, ParsePorts(r.port).value) && LeavesSomeOut(net, r.sources)
    requires !PlainSources(r.sources)
    ensures RuleAccepts(net, r, p) != Opens(net, r, p)
  {
    if forall s :: s in r.sources ==> IsAny(s) {
      var family := if ANY_V4 in r.sources then V6 else V4;
      p := ProbePacket(r, family, 0, port);
      RuleAcceptsIs(net, r, p);
    } else {
      var family := if ANY_V4 in r.sources then V4 else V6;
      var a: nat :| OutsideAll(net, OfFamily(r.sources, family), a);
      OfFamilyIs(r.sources, family);
      p := ProbePacket(r, family, a, port);
      RuleAcceptsIs(net, r, p);
      assert Names(net, if family == V4 then ANY_V4 else ANY_V6, p);
    }
  }

  /******* The whole chain *******/

  lemma {:induction false} AcceptsAppend(net: Net, a: seq<Line>, b: seq<Line>, policy: bool, p: Packet)
    ensures Accepts(net, a + b, policy, p) == Accepts(net, a, Accepts(net, b, policy, p), p)
  {
    if a == [] {
      assert a + b == b;
    } else {
      assert (a + b)[1..] == a[1..] + b;
      AcceptsAppend(net, a[1..], b, policy, p);
    }
  }

  /** Lines that only accept let a packet in when one of them matches, or the policy does. */
  lemma {:induction false} AcceptLines(net: Net, lines: seq<Line>, policy: bool, p: Packet)
    requires forall l :: l in lines ==> !l.DropInvalid?
    ensures Accepts(net, lines, policy, p) <==> policy || AnyLine(net, lines, p)
  {
    if lines != [] {
      AcceptLines(net, lines[1..], policy, p);
      assert lines == [lines[0]] + lines[1..];
    }
  }

  lemma {:induction false} AnyLineAppend(net: Net, a: seq<Line>, b: seq<Line>, p: Packet)
    ensures AnyLine(net, a + b, p) <==> AnyLine(net, a, p) || AnyLine(net, b, p)
  {
    if l :| l in a && Matches(net, l, p) { assert l in a + b; }
    if l :| l in b && Matches(net, l, p) { assert l in a + b; }
  }

  lemma {:induction false} AnyRuleCons(net: Net, rules: seq<Rule>, p: Packet)
    requires rules != [] && RenderRule(rules[0]).Some?
    ensures AnyRule(net, rules, p) <==> RuleAccepts(net, rules[0], p) || AnyRule(net, rules[1..], p)
  {
    assert rules == [rules[0]] + rules[1..];
  }

  lemma {:induction false} RenderedLines(net: Net, rules: seq<Rule>, p: Packet)
    requires RenderRules(rules).Some?
    ensures forall r :: r in rules ==> RenderRule(r).Some?
    ensures forall l :: l in RenderRules(rules).value ==> !l.DropInvalid?
    ensures AnyLine(net, RenderRules(rules).value, p) <==> AnyRule(net, rules, p)
  {
    if rules != [] {
      RenderedLines(net, rules[1..], p);
      AnyLineAppend(net, RenderRule(rules[0]).value, RenderRules(rules[1..]).value, p);
      AnyRuleCons(net, rules, p);
      assert rules == [rules[0]] + rules[1..];
    }
  }

  lemma {:induction false} PreambleAccepts(net: Net, rules: seq<Rule>, opts: Options, rest: bool, p: Packet)
    ensures Accepts(net, Preamble(rules, opts), rest, p) ==
      if p.connection == Established then true
      else if p.connection == Invalid then false
      else p.loopback || (PingWanted(rules, opts) && Ping(p))
           || (KeepsSsh(rules, opts) && p.transport == TcpPacket && p.port == opts.sshPort) || rest
  {
    var ping := if PingWanted(rules, opts) then [AcceptIcmp, AcceptIcmpv6] else [];
    var range := Range(opts.sshPort, opts.sshPort);
    var ssh := if KeepsSsh(rules, opts) then [AcceptPort(Tcp, [range])] else [];
    var first := [AcceptEstablished, DropInvalid, AcceptLoopback];
    assert Preamble(rules, opts) == first + (ping + ssh);
    AcceptsAppend(net, first, ping + ssh, rest, p);
    AcceptsAppend(net, ping, ssh, rest, p);
    AcceptLines(net, ssh, rest, p);
    AcceptLines(net, ping, Accepts(net, ssh, rest, p), p);
    PingLines(net, p);
    SshLine(net, opts.sshPort, p);
    FirstThree(net, Accepts(net, ping + ssh, rest, p), p);
  }

  lemma {:induction false} PingLines(net: Net, p: Packet)
    ensures AnyLine(net, [AcceptIcmp, AcceptIcmpv6], p) <==> Ping(p)
  {
    assert AcceptIcmp in [AcceptIcmp, AcceptIcmpv6] && AcceptIcmpv6 in [AcceptIcmp, AcceptIcmpv6];
  }

  lemma {:induction false} SshLine(net: Net, port: nat, p: Packet)
    ensures AnyLine(net, [AcceptPort(Tcp, [Range(port, port)])], p) <==> p.transport == TcpPacket && p.port == port
  {
    var range := Range(port, port);
    var line := AcceptPort(Tcp, [range]);
    assert range in [range] && line in [line];
    assert Matches(net, line, p) <==> p.transport == TcpPacket && p.port == port;
  }

  lemma {:induction false} FirstThree(net: Net, rest: bool, p: Packet)
    ensures Accepts(net, [AcceptEstablished, DropInvalid, AcceptLoopback], rest, p) ==
      if p.connection == Established then true else if p.connection == Invalid then false else p.loopback || rest
  {
    var lines := [AcceptEstablished, DropInvalid, AcceptLoopback];
    assert lines[1..] == [DropInvalid, AcceptLoopback];
    assert [DropInvalid, AcceptLoopback][1..] == [AcceptLoopback];
    assert [AcceptLoopback][1..] == [];
    assert Accepts(net, [], rest, p) == rest;
    assert Accepts(net, [AcceptLoopback], rest, p) == (p.loopback || rest);
    assert Accepts(net, [DropInvalid, AcceptLoopback], rest, p) == (if p.connection == Invalid then false else p.loopback || rest);
  }

  /** What the rendered chain does, rule by rule. */
  lemma {:induction false} ChainAccepts(net: Net, rules: seq<Rule>, opts: Options, p: Packet)
    requires Render(rules, opts).Some?
    ensures Accepts(net, Render(rules, opts).value, opts.acceptByDefault, p) ==
      if p.connection == Established then true
      else if p.connection == Invalid then false
      else p.loopback || (PingWanted(rules, opts) && Ping(p))
           || (KeepsSsh(rules, opts) && p.transport == TcpPacket && p.port == opts.sshPort)
           || AnyRule(net, rules, p) || opts.acceptByDefault
  {
    var lines := RenderRules(rules).value;
    RenderedLines(net, rules, p);
    AcceptsAppend(net, Preamble(rules, opts), lines, opts.acceptByDefault, p);
    AcceptLines(net, lines, opts.acceptByDefault, p);
    PreambleAccepts(net, rules, opts, Accepts(net, lines, opts.acceptByDefault, p), p);
  }

  /** Some ping rule is for everyone of the family whose "any" this is. */
  predicate OpensFamily(rules: seq<Rule>, any: string) {
    exists r :: r in rules && IsPingRule(r) && (r.sources == [] || any in r.sources)
  }

  /** Pinging is either not asked for by any rule, or open to everyone of both families. */
  predicate PlainPing(rules: seq<Rule>, opts: Options) {
    || opts.allowPing || opts.acceptByDefault
    || (forall r :: r in rules ==> !IsPingRule(r))
    || (OpensFamily(rules, ANY_V4) && OpensFamily(rules, ANY_V6))
  }

  /** Address `a` is none of the plain sources of a ping rule. */
  predicate NoPingSource(net: Net, rules: seq<Rule>, a: nat) {
    forall r, s :: r in rules && IsPingRule(r) && s in r.sources && !IsAny(s) ==> !net.contains(s, a)
  }

  lemma NoPortForOthers(net: Net, rules: seq<Rule>, p: Packet)
    requires p.transport != TcpPacket && p.transport != UdpPacket
    ensures !AnyRule(net, rules, p) && forall r :: r in rules ==> !Opens(net, r, p)
  {
    forall r | r in rules && RenderRule(r).Some? ensures !RuleAccepts(net, r, p) {
      if IsPortRule(r) { RuleAcceptsIs(net, r, p); }
    }
  }

  lemma PlainPingMeans(net: Net, rules: seq<Rule>, opts: Options, p: Packet)
    requires Render(rules, opts).Some? && PlainPing(rules, opts) && Ping(p)
    ensures Accepts(net, Render(rules, opts).value, opts.acceptByDefault, p) <==> Denotes(net, rules, opts, p)
  {
    ChainAccepts(net, rules, opts, p);
    NoPortForOthers(net, rules, p);
    var any := if p.family == V4 then ANY_V4 else ANY_V6;
    if r :| r in rules && IsPingRule(r) && (r.sources == [] || any in r.sources) {
      assert r.sources != [] ==> Names(net, any, p);
      assert OpensPing(net, r, p);
    }
  }

  lemma PingMisread(net: Net, rules: seq<Rule>, opts: Options, a: nat) returns (p: Packet)
    requires Render(rules, opts).Some? && !PlainPing(rules, opts) && NoPingSource(net, rules, a)
    ensures Ping(p) && p.connection == New
    ensures Accepts(net, Render(rules, opts).value, opts.acceptByDefault, p) && !Denotes(net, rules, opts, p)
  {
    p := if OpensFamily(rules, ANY_V4) then Packet(V6, a, Icmpv6Packet, 0, New, false) else Packet(V4, a, IcmpPacket, 0, New, false);
    ChainAccepts(net, rules, opts, p);
    NoPortForOthers(net, rules, p);
    forall r | r in rules ensures !OpensPing(net, r, p) {
      if IsPingRule(r) { assert forall s :: s in r.sources ==> !Names(net, s, p); }
    }
  }

  /** Sources of ping rules are dropped: pings are treated as rules, options and policy say if and
      only if some ping rule is for everyone of each family, or none is needed. */
  lemma {:induction false} PingMeansIff(net: Net, rules: seq<Rule>, opts: Options, a: nat)
    requires Render(rules, opts).Some? && NoPingSource(net, rules, a)
    ensures (forall p :: Ping(p) ==> (Accepts(net, Render(rules, opts).value, opts.acceptByDefault, p) <==> Denotes(net, rules, opts, p)))
            <==> PlainPing(rules, opts)
  {
    if PlainPing(rules, opts) {
      forall p | Ping(p) ensures Accepts(net, Render(rules, opts).value, opts.acceptByDefault, p) <==> Denotes(net, rules, opts, p) {
        PlainPingMeans(net, rules, opts, p);
      }
    } else {
      var p := PingMisread(net, rules, opts, a);
      assert Ping(p);
    }
  }

  /******* The whole chain, exactly *******/

  /** Some rule for the port is rendered without sources: it has none but "any" ones. */
  predicate OpenInChain(rules: seq<Rule>, protocol: Protocol, port: nat) {
    exists r :: r in rules && Covers(r, protocol, port) && forall s :: s in r.sources ==> IsAny(s)
  }

  /** Some rule for the port is for everyone of the family whose "any" this is. */
  predicate OpenToFamily(rules: seq<Rule>, protocol: Protocol, port: nat, any: string) {
    exists r :: r in rules && Covers(r, protocol, port) && (r.sources == [] || any in r.sources)
  }

  /** Some rule for the packet's port names its sender among its plain sources. */
  predicate OpenToSender(net: Net, rules: seq<Rule>, protocol: Protocol, p: Packet) {
    exists r, s :: r in rules && Covers(r, protocol, p.port) && s in r.sources && !IsAny(s) && Names(net, s, p)
  }

  function AnyOf(family: Family): string {
    if family == V4 then ANY_V4 else ANY_V6
  }

  /** A rule is about SSH, and the renderer takes none to be. */
  predicate SshRuleMissed(rules: seq<Rule>, opts: Options) {
    KeepsSsh(rules, opts) && !AsksForSsh(rules, opts)
  }

  /** No rule about SSH is missed, unless SSH is meant to be open to everyone of both families. */
  predicate PlainSsh(rules: seq<Rule>, opts: Options) {
    SshRuleMissed(rules, opts) ==>
      OpenToFamily(rules, Tcp, opts.sshPort, ANY_V4) && OpenToFamily(rules, Tcp, opts.sshPort, ANY_V6)
  }

  lemma CoveringRule(rules: seq<Rule>, port: nat)
    requires RenderRules(rules).Some? && SomeRuleCovers(rules, port)
    ensures exists r :: r in rules && Covers(r, Tcp, port)
  {
    var r :| r in rules && r.inbound && r.protocol == Tcp && CoversPort(r.port, port);
    RenderedLines(Net((s, a) => false), rules, Packet(V4, 0, TcpPacket, port, New, false));
    CoversIsSound(r.port, port);
    assert Covers(r, Tcp, port);
  }

  /** The renderer keeps SSH open whenever it is asked to. */
  lemma AskedIsKept(rules: seq<Rule>, opts: Options)
    requires Render(rules, opts).Some?
    ensures AsksForSsh(rules, opts) ==> KeepsSsh(rules, opts)
  {
    if SomeRuleCovers(rules, opts.sshPort) { CoveringRule(rules, opts.sshPort); }
  }

  /** Rules whose specs are recognised in full are never missed. */
  lemma RecognisedIsNotMissed(rules: seq<Rule>, opts: Options)
    requires forall r :: r in rules && r.inbound && r.protocol == Tcp ==> Recognised(r.port)
    ensures !SshRuleMissed(rules, opts)
  {
    forall r | r in rules && Covers(r, Tcp, opts.sshPort) ensures CoversPort(r.port, opts.sshPort) {
      CoversEverythingIff(r.port);
    }
  }

  /** The port is opened anyway, to keep SSH reachable. */
  predicate KeptForSsh(rules: seq<Rule>, opts: Options, protocol: Protocol, port: nat) {
    KeepsSsh(rules, opts) && protocol == Tcp && port == opts.sshPort
  }

  /** Port by port and family by family: rendered open to everyone if and only if meant to be. */
  ghost predicate PlainPorts(rules: seq<Rule>, opts: Options) {
    opts.acceptByDefault
    || forall protocol, port: nat, family :: protocol != Icmp && !KeptForSsh(rules, opts, protocol, port) ==>
         (OpenInChain(rules, protocol, port) <==> OpenToFamily(rules, protocol, port, AnyOf(family)))
  }

  lemma {:induction false} RulesAccept(net: Net, rules: seq<Rule>, protocol: Protocol, p: Packet)
    requires RenderRules(rules).Some? && protocol != Icmp && Carries(p, protocol)
    ensures AnyRule(net, rules, p) <==> OpenInChain(rules, protocol, p.port) || OpenToSender(net, rules, protocol, p)
  {
    RenderedLines(net, rules, p);
    if AnyRule(net, rules, p) {
      var r :| r in rules && RenderRule(r).Some? && RuleAccepts(net, r, p);
      assert IsPortRule(r);
      RuleAcceptsIs(net, r, p);
      assert Covers(r, protocol, p.port);
    }
    if r :| r in rules && Covers(r, protocol, p.port) && forall s :: s in r.sources ==> IsAny(s) { RuleAcceptsIs(net, r, p); }
    if OpenToSender(net, rules, protocol, p) {
      var r, s :| r in rules && Covers(r, protocol, p.port) && s in r.sources && !IsAny(s) && Names(net, s, p);
      RuleAcceptsIs(net, r, p);
    }
  }

  lemma {:induction false} RulesOpen(net: Net, rules: seq<Rule>, protocol: Protocol, p: Packet)
    requires protocol != Icmp && Carries(p, protocol)
    ensures (exists r :: r in rules && Opens(net, r, p))
            <==> OpenToFamily(rules, protocol, p.port, AnyOf(p.family)) || OpenToSender(net, rules, protocol, p)
  {
    if r :| r in rules && Opens(net, r, p) {
      assert Covers(r, protocol, p.port);
      if s :| s in r.sources && Names(net, s, p) { assert IsAny(s) ==> s == AnyOf(p.family); }
    }
    if r :| r in rules && Covers(r, protocol, p.port) && (r.sources == [] || AnyOf(p.family) in r.sources) {
      assert r.sources != [] ==> Names(net, AnyOf(p.family), p);
      assert Opens(net, r, p);
    }
    if OpenToSender(net, rules, protocol, p) {
      var r, s :| r in rules && Covers(r, protocol, p.port) && s in r.sources && !IsAny(s) && Names(net, s, p);
      assert Opens(net, r, p);
    }
  }

  /** The rendered chain accepts a packet exactly when the rules, the options and the policy say so. */
  lemma {:induction false} CompilationPreservesMeaning(net: Net, rules: seq<Rule>, opts: Options, p: Packet)
    requires Render(rules, opts).Some? && PlainPing(rules, opts) && PlainPorts(rules, opts) && PlainSsh(rules, opts)
    ensures Accepts(net, Render(rules, opts).value, opts.acceptByDefault, p) <==> Denotes(net, rules, opts, p)
  {
    if Ping(p) {
      PlainPingMeans(net, rules, opts, p);
    } else {
      ChainAccepts(net, rules, opts, p);
      AskedIsKept(rules, opts);
      if p.transport == TcpPacket || p.transport == UdpPacket {
        var protocol := if p.transport == TcpPacket then Tcp else Udp;
        RulesAccept(net, rules, protocol, p);
        RulesOpen(net, rules, protocol, p);
      } else {
        NoPortForOthers(net, rules, p);
      }
    }
  }

  /** Plain sources in every rule are enough for that. */
  lemma {:induction false} PlainRulesSuffice(rules: seq<Rule>, opts: Options)
    requires forall r :: r in rules && IsPortRule(r) ==> PlainSources(r.sources)
    ensures PlainPorts(rules, opts)
  {
    forall protocol, port: nat, family
      ensures OpenInChain(rules, protocol, port) <==> OpenToFamily(rules, protocol, port, AnyOf(family))
    {
      if r :| r in rules && Covers(r, protocol, port) && forall s :: s in r.sources ==> IsAny(s) {
        assert r.sources != [] ==> r.sources[0] in r.sources;
      }
    }
  }

  /** Address `a` is none of the plain sources of any rule. */
  predicate NoSource(net: Net, rules: seq<Rule>, a: nat) {
    forall r, s :: r in rules && s in r.sources && !IsAny(s) ==> !net.contains(s, a)
  }

  lemma PortMisread(net: Net, rules: seq<Rule>, opts: Options, a: nat) returns (p: Packet)
    requires Render(rules, opts).Some? && !PlainPorts(rules, opts) && NoSource(net, rules, a)
    ensures Accepts(net, Render(rules, opts).value, opts.acceptByDefault, p) != Denotes(net, rules, opts, p)
  {
    var protocol, port: nat, family :| protocol != Icmp && !KeptForSsh(rules, opts, protocol, port)
      && OpenInChain(rules, protocol, port) != OpenToFamily(rules, protocol, port, AnyOf(family));
    p := Packet(family, a, if protocol == Tcp then TcpPacket else UdpPacket, port, New, false);
    AskedIsKept(rules, opts);
    PortVerdicts(net, rules, opts, protocol, p);
    assert !OpenToSender(net, rules, protocol, p);
  }

  /** A new packet to a port that is not kept open for SSH. */
  lemma PortVerdicts(net: Net, rules: seq<Rule>, opts: Options, protocol: Protocol, p: Packet)
    requires Render(rules, opts).Some? && protocol != Icmp && p.transport == (if protocol == Tcp then TcpPacket else UdpPacket)
    requires p.connection == New && !p.loopback && !opts.acceptByDefault && !KeptForSsh(rules, opts, protocol, p.port)
    requires AsksForSsh(rules, opts) ==> KeepsSsh(rules, opts)
    ensures Accepts(net, Render(rules, opts).value, opts.acceptByDefault, p)
            <==> OpenInChain(rules, protocol, p.port) || OpenToSender(net, rules, protocol, p)
    ensures Denotes(net, rules, opts, p)
            <==> OpenToFamily(rules, protocol, p.port, AnyOf(p.family)) || OpenToSender(net, rules, protocol, p)
  {
    ChainAccepts(net, rules, opts, p);
    RulesAccept(net, rules, protocol, p);
    RulesOpen(net, rules, protocol, p);
  }

  /** A missed rule about SSH opens the port to everyone, though the rules only open it to some. */
  lemma MissedSshWidens(net: Net, rules: seq<Rule>, opts: Options, p: Packet)
    requires Render(rules, opts).Some? && SshRuleMissed(rules, opts)
    requires p.transport == TcpPacket && p.port == opts.sshPort && p.connection == New
    ensures Accepts(net, Render(rules, opts).value, opts.acceptByDefault, p)
    ensures Denotes(net, rules, opts, p) <==>
      p.loopback || OpenToFamily(rules, Tcp, opts.sshPort, AnyOf(p.family)) || OpenToSender(net, rules, Tcp, p)
  {
    ChainAccepts(net, rules, opts, p);
    RulesOpen(net, rules, Tcp, p);
  }

  lemma SshMisread(net: Net, rules: seq<Rule>, opts: Options, a: nat) returns (p: Packet)
    requires Render(rules, opts).Some? && !PlainSsh(rules, opts) && NoSource(net, rules, a)
    ensures Accepts(net, Render(rules, opts).value, opts.acceptByDefault, p) && !Denotes(net, rules, opts, p)
  {
    var family := if OpenToFamily(rules, Tcp, opts.sshPort, ANY_V4) then V6 else V4;
    p := Packet(family, a, TcpPacket, opts.sshPort, New, false);
    MissedSshWidens(net, rules, opts, p);
    assert !OpenToSender(net, rules, Tcp, p);
  }

  /** A single rule for some sources, in a spec the renderer does not recognise. */
  lemma MissedRuleOpensSsh(net: Net, r: Rule, opts: Options, p: Packet)
    requires r.inbound && Covers(r, Tcp, opts.sshPort) && !CoversPort(r.port, opts.sshPort)
    requires opts.keepSshOpen && !opts.acceptByDefault && !opts.sshAlwaysOpen
    requires r.sources != [] && forall s :: s in r.sources ==> !IsAny(s) && !net.contains(s, p.source)
    requires p.transport == TcpPacket && p.port == opts.sshPort && p.connection == New && !p.loopback
    ensures Render([r], opts).Some?
    ensures Accepts(net, Render([r], opts).value, opts.acceptByDefault, p) && !Denotes(net, [r], opts, p)
  {
    assert [r][1..] == [] && RenderRules([]) == Some([]) && RenderRule(r).Some?;
    assert r in [r];
    MissedSshWidens(net, [r], opts, p);
  }

  /** Under the softer guard a rule for "22,8000-8100" from one source opens SSH to everyone; and so
      with any port and range. */
  lemma MixedListOpensSsh(net: Net, source: string, lo: nat, hi: nat, opts: Options, p: Packet)
    requires opts.keepSshOpen && !opts.acceptByDefault && !opts.sshAlwaysOpen
    requires !IsAny(source) && !net.contains(source, p.source)
    requires p.transport == TcpPacket && p.port == opts.sshPort && p.connection == New && !p.loopback
    ensures var rules := [Rule("", true, Tcp, PortAndRange(opts.sshPort, lo, hi), [source])];
            Render(rules, opts).Some?
            && Accepts(net, Render(rules, opts).value, opts.acceptByDefault, p) && !Denotes(net, rules, opts, p)
  {
    PortAndRangeMissed(opts.sshPort, lo, hi, opts.sshPort);
    MissedRuleOpensSsh(net, Rule("", true, Tcp, PortAndRange(opts.sshPort, lo, hi), [source]), opts, p);
  }

  /** The whole chain means what rules, options and policy say, for every packet, if and only if pings
      and ports are as above and no rule about SSH is missed, or only such as are for everyone; given
      one address that no rule names. */
  lemma {:induction false} ChainMeansIff(net: Net, rules: seq<Rule>, opts: Options, a: nat)
    requires Render(rules, opts).Some? && NoSource(net, rules, a)
    ensures (forall p :: Accepts(net, Render(rules, opts).value, opts.acceptByDefault, p) <==> Denotes(net, rules, opts, p))
            <==> PlainPing(rules, opts) && PlainPorts(rules, opts) && PlainSsh(rules, opts)
  {
    if PlainPing(rules, opts) && PlainPorts(rules, opts) && PlainSsh(rules, opts) {
      forall p ensures Accepts(net, Render(rules, opts).value, opts.acceptByDefault, p) <==> Denotes(net, rules, opts, p) {
        CompilationPreservesMeaning(net, rules, opts, p);
      }
    } else if !PlainPing(rules, opts) {
      var p := PingMisread(net, rules, opts, a);
    } else if !PlainSsh(rules, opts) {
      var p := SshMisread(net, rules, opts, a);
    } else {
      var p := PortMisread(net, rules, opts, a);
    }
  }

  /** A rule that lets only some sources ping lets everyone ping. */
  lemma {:induction false} PingIgnoresSources(net: Net, rules: seq<Rule>, opts: Options, r: Rule, p: Packet)
    requires Render(rules, opts).Some? && r in rules && IsPingRule(r) && Ping(p) && p.connection == New
    ensures Accepts(net, Render(rules, opts).value, opts.acceptByDefault, p)
  {
    ChainAccepts(net, rules, opts, p);
  }

  /** A malformed port spec stops the whole rendering; it never widens to every port. */
  lemma {:induction false} MalformedFailsClosed(rules: seq<Rule>, opts: Options)
    ensures Render(rules, opts).None? <==> exists r :: r in rules && IsPortRule(r) && ParsePorts(r.port).None?
  {
    if rules != [] {
      MalformedFailsClosed(rules[1..], opts);
      assert rules == [rules[0]] + rules[1..];
    }
  }

  /******* SSH *******/

  predicate IsManagedSshRule(r: Rule, sshPort: nat) {
    r.inbound && r.protocol == Tcp && Trim(r.port) == Digits(sshPort)
  }

  function WithoutSshRules(rules: seq<Rule>, sshPort: nat): seq<Rule> {
    if rules == [] then []
    else (if IsManagedSshRule(rules[0], sshPort) then [] else [rules[0]]) + WithoutSshRules(rules[1..], sshPort)
  }

  /** In the managed mode no rule can shut SSH: every packet to the port that is not invalid gets in. */
  lemma {:induction false} SshAlwaysOpens(net: Net, rules: seq<Rule>, opts: Options, p: Packet)
    requires Render(rules, opts).Some? && opts.sshAlwaysOpen
    requires p.transport == TcpPacket && p.port == opts.sshPort && p.connection != Invalid
    ensures Accepts(net, Render(rules, opts).value, opts.acceptByDefault, p)
  {
    ChainAccepts(net, rules, opts, p);
  }

  lemma {:induction false} WithoutSshIs(rules: seq<Rule>, sshPort: nat)
    ensures forall r :: r in WithoutSshRules(rules, sshPort) <==> r in rules && !IsManagedSshRule(r, sshPort)
  {
    if rules != [] {
      WithoutSshIs(rules[1..], sshPort);
      assert rules == [rules[0]] + rules[1..];
    }
  }

  lemma {:induction false} SshRuleParses(r: Rule, sshPort: nat)
    requires IsManagedSshRule(r, sshPort)
    ensures ParsePorts(r.port) == Some([Range(sshPort, sshPort)])
  {
    DigitsNumber(sshPort);
    NoSeparator(Trim(r.port), ',');
    var es := [Trim(r.port)];
    assert es[..0] == [];
    assert ParseElements([]) == Some([]);
    assert [] + [Range(sshPort, sshPort)] == [Range(sshPort, sshPort)];
  }

  lemma {:induction false} SshRuleOpensOnlySsh(net: Net, r: Rule, sshPort: nat, p: Packet)
    requires IsManagedSshRule(r, sshPort) && RenderRule(r).Some? && RuleAccepts(net, r, p)
    ensures p.transport == TcpPacket && p.port == sshPort
  {
    SshRuleParses(r, sshPort);
    RuleAcceptsIs(net, r, p);
  }

  /** Dropping the explicit SSH rules first, as the managed engine does, changes no verdict. */
  lemma {:induction false} DroppingSshRulesChangesNothing(net: Net, rules: seq<Rule>, opts: Options, p: Packet)
    requires opts.sshAlwaysOpen
    ensures Render(WithoutSshRules(rules, opts.sshPort), opts).Some? <==> Render(rules, opts).Some?
    ensures Render(rules, opts).Some? ==>
      (Accepts(net, Render(WithoutSshRules(rules, opts.sshPort), opts).value, opts.acceptByDefault, p)
       <==> Accepts(net, Render(rules, opts).value, opts.acceptByDefault, p))
  {
    var fewer := WithoutSshRules(rules, opts.sshPort);
    WithoutSshIs(rules, opts.sshPort);
    MalformedFailsClosed(rules, opts);
    MalformedFailsClosed(fewer, opts);
    forall r | r in rules && IsManagedSshRule(r, opts.sshPort) ensures ParsePorts(r.port).Some? { SshRuleParses(r, opts.sshPort); }
    if Render(rules, opts).Some? {
      ChainAccepts(net, rules, opts, p);
      ChainAccepts(net, fewer, opts, p);
      if r :| r in rules && RenderRule(r).Some? && RuleAccepts(net, r, p) && r !in fewer {
        SshRuleOpensOnlySsh(net, r, opts.sshPort, p);
      }
    }
  }

  ghost predicate NamesSomeone(net: Net, source: string) {
    exists a: nat :: net.contains(source, a)
  }

  /** The softer guard: with a dropping policy SSH stays reachable from somewhere, because a rule
      is only taken to cover the port when it does, and its plain sources name someone. */
  lemma {:induction false} SoftGuardLeavesSshReachable(net: Net, rules: seq<Rule>, opts: Options) returns (p: Packet)
    requires Render(rules, opts).Some? && opts.keepSshOpen
    requires forall r, s :: r in rules && s in r.sources && !IsAny(s) ==> NamesSomeone(net, s)
    ensures p.transport == TcpPacket && p.port == opts.sshPort && p.connection == New && !p.loopback
    ensures Accepts(net, Render(rules, opts).value, opts.acceptByDefault, p)
  {
    p := Packet(V4, 0, TcpPacket, opts.sshPort, New, false);
    ChainAccepts(net, rules, opts, p);
    if !KeepsSsh(rules, opts) && !opts.acceptByDefault {
      var r :| r in rules && r.inbound && r.protocol == Tcp && CoversPort(r.port, opts.sshPort);
      RenderedLines(net, rules, p);
      CoversIsSound(r.port, opts.sshPort);
      if s :| s in r.sources && !IsAny(s) {
        assert NamesSomeone(net, s);
        var a: nat :| net.contains(s, a);
        p := Packet(if IsV6(s) then V6 else V4, a, TcpPacket, opts.sshPort, New, false);
        ChainAccepts(net, rules, opts, p);
        assert Names(net, s, p);
      }
      RuleAcceptsIs(net, r, p);
    }
  }

  /******* The managed engine *******/

  datatype Intent = Intent(rules: seq<Rule>, acceptByDefault: bool)

  function ManagedOptions(sshPort: nat, acceptByDefault: bool): Options {
    Options(acceptByDefault, true, sshPort, true, true)
  }

  class ManagedHost {
    const sshPort: nat
    var firewall: Option<Intent>
    var loaded: Option<seq<Line>>

    constructor (sshPort: nat)
      ensures this.sshPort == sshPort && firewall.None? && loaded.None?
    {
      this.sshPort := sshPort;
      firewall, loaded := None, None;
    }

    /** The chain on the host is the one the recorded intent renders to. */
    ghost predicate Valid()
      reads this
    {
      match firewall
      case None => loaded.None?
      case Some(intent) =>
        && WithoutSshRules(intent.rules, sshPort) == intent.rules
        && loaded == Render(intent.rules, ManagedOptions(sshPort, intent.acceptByDefault)) && loaded.Some?
    }

    /** Records and loads the rules without the SSH ones; a malformed port or a host that refuses the
        ruleset leaves both as they were. */
    method Apply(rules: seq<Rule>, acceptByDefault: bool, hostAccepts: bool) returns (ok: bool)
      requires Valid()
      modifies this
      ensures Valid()
      ensures ok <==> hostAccepts && Render(rules, ManagedOptions(sshPort, acceptByDefault)).Some?
      ensures !ok ==> firewall == old(firewall) && loaded == old(loaded)
      ensures ok ==> firewall == Some(Intent(WithoutSshRules(rules, sshPort), acceptByDefault))
      ensures ok ==> forall net, p ::
        Accepts(net, loaded.value, acceptByDefault, p)
        <==> Accepts(net, Render(rules, ManagedOptions(sshPort, acceptByDefault)).value, acceptByDefault, p)
    {
      var opts := ManagedOptions(sshPort, acceptByDefault);
      var clean := WithoutSshRules(rules, sshPort);
      CleanIsClean(rules, sshPort);
      var chain := RenderNftables(clean, opts);
      forall net, p
        ensures chain.Some? <==> Render(rules, opts).Some?
        ensures chain.Some? ==> (Accepts(net, chain.value, acceptByDefault, p) <==> Accepts(net, Render(rules, opts).value, acceptByDefault, p))
      {
        DroppingSshRulesChangesNothing(net, rules, opts, p);
      }
      MalformedFailsClosed(rules, opts);
      assert chain.Some? <==> Render(rules, opts).Some? by {
        DroppingSshRulesChangesNothing(Net((s, a) => false), rules, opts, Packet(V4, 0, TcpPacket, 0, New, false));
      }
      if chain.None? || !hostAccepts { return false; }
      firewall, loaded := Some(Intent(clean, acceptByDefault)), chain;
      return true;
    }

    /** Only forgets the intent once the table is gone. */
    method Clear(hostAccepts: bool) returns (ok: bool)
      requires Valid()
      modifies this
      ensures Valid()
      ensures ok <==> old(firewall).Some? && hostAccepts
      ensures if ok then firewall.None? && loaded.None? else firewall == old(firewall) && loaded == old(loaded)
    {
      if firewall.None? || !hostAccepts { return false; }
      firewall, loaded := None, None;
      return true;
    }
  }

  lemma {:induction false} CleanIsClean(rules: seq<Rule>, sshPort: nat)
    ensures WithoutSshRules(WithoutSshRules(rules, sshPort), sshPort) == WithoutSshRules(rules, sshPort)
  {
    if rules != [] {
      CleanIsClean(rules[1..], sshPort);
      var rest := WithoutSshRules(rules[1..], sshPort);
      assert [] + rest == rest;
      if !IsManagedSshRule(rules[0], sshPort) {
        assert ([rules[0]] + rest)[1..] == rest;
        assert WithoutSshRules(rules, sshPort) == [rules[0]] + rest;
        assert WithoutSshRules([rules[0]] + rest, sshPort) == [rules[0]] + WithoutSshRules(rest, sshPort);
      }
    }
  }
}
