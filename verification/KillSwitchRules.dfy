/**
 * The kill switch's rule generators for nftables and for iptables/ip6tables,
 * and the policy both are meant to enforce.
 */
module KillSwitchRules {
  import opened Common
  import opened PacketFilter

  const CAPTURE_MARK := 0x2023
  const OUTBOUND_MARK := 0x2024

  const LOOPBACK_V4 := Network(false, "127.0.0.0/8", 0x7F00_0000, 0x7FFF_FFFF)
  const LOOPBACK_V6 := Network(true, "::1/128", 1, 1)
  const EVERY_V6 := Network(true, "::/0", 0, 0xFFFF_FFFF_FFFF_FFFF_FFFF_FFFF_FFFF_FFFF)

  /** The resolver inside the tunnel, 172.19.0.2. */
  const RESOLVER := Network(false, "172.19.0.2", 0xAC13_0002, 0xAC13_0002)

  const DEFAULT_LAN := [
    Network(false, "10.0.0.0/8", 0x0A00_0000, 0x0AFF_FFFF),
    Network(false, "172.16.0.0/12", 0xAC10_0000, 0xAC1F_FFFF),
    Network(false, "192.168.0.0/16", 0xC0A8_0000, 0xC0A8_FFFF),
    Network(false, "169.254.0.0/16", 0xA9FE_0000, 0xA9FE_FFFF)]

  /** Address parsing and printing, as the library does them. */
  datatype AddressText = AddressText(parse: string -> Option<Address>, show: Address -> string)

  datatype Config = Config(
    tunnel: string, blockIpv6: bool, allowLan: bool, endpoints: seq<string>, uid: Option<nat>,
    lan: seq<Network>, text: AddressText)

  predicate LanIsV4(c: Config) {
    forall i :: 0 <= i < |c.lan| ==> !c.lan[i].v6
  }

  function Host(c: Config, a: Address): Network {
    Network(a.V6?, c.text.show(a), a.bits, a.bits)
  }

  function Allow(condition: Condition): Rule {
    Rule([condition], Accept)
  }

  // ---------------------------------------------------------------------
  // nftables
  // ---------------------------------------------------------------------

  function DirectEgressRules(c: Config): seq<Rule> {
    if c.uid.None? then [] else [Rule([Owner(c.uid.value), Mark(OUTBOUND_MARK)], Accept)]
  }

  /** One rule for each endpoint text that parses, repeats included. */
  function EndpointRules(c: Config, endpoints: seq<string>): seq<Rule> {
    if endpoints == [] then []
    else
      var last := c.text.parse(endpoints[|endpoints| - 1]);
      EndpointRules(c, endpoints[..|endpoints| - 1]) + if last.None? then [] else [Allow(Destination(Host(c, last.value)))]
  }

  const INTERNAL_DNS_RULES := [
    Rule([Destination(RESOLVER), DestinationPort(Udp, 53)], Accept),
    Rule([Destination(RESOLVER), DestinationPort(Tcp, 53)], Accept)]

  const DNS_BLOCK_RULES := [
    Rule([DestinationPort(Udp, 53)], Reject), Rule([DestinationPort(Udp, 853)], Reject),
    Rule([DestinationPort(Tcp, 53)], Reject), Rule([DestinationPort(Tcp, 853)], Reject)]

  const TERMINAL_DROP_RULES := [
    Rule([Protocol(Tcp)], Drop), Rule([Protocol(Udp)], Drop), Rule([Protocol(Icmp)], Drop),
    Rule([Protocol(Icmp6)], Drop), Rule([], Drop)]

  function LanRules(c: Config): seq<Rule> {
    seq(|c.lan|, i requires 0 <= i < |c.lan| => Allow(Destination(c.lan[i])))
  }

  function GuardChain(c: Config): seq<Rule> {
    [Rule([Mark(CAPTURE_MARK), Oif(c.tunnel)], Accept), Rule([Mark(CAPTURE_MARK)], Drop)]
  }

  /** The rules in front of the DNS block. */
  function NftAllowed(c: Config): seq<Rule> {
    [Allow(Oif("lo")), Allow(Destination(LOOPBACK_V4)), Allow(Destination(LOOPBACK_V6)), Allow(Oif(c.tunnel))]
    + DirectEgressRules(c)
    + EndpointRules(c, c.endpoints)
    + INTERNAL_DNS_RULES
  }

  /** The rules behind the DNS block. */
  function NftTolerated(c: Config): seq<Rule> {
    [Allow(Mark(CAPTURE_MARK)), Allow(Established)]
    + (if c.allowLan then LanRules(c) else [])
    + (if c.blockIpv6 then [] else [Allow(Destination(EVERY_V6))])
  }

  function OutputChain(c: Config): seq<Rule> {
    NftAllowed(c) + DNS_BLOCK_RULES + NftTolerated(c) + TERMINAL_DROP_RULES
  }

  /** Both hooks let the packet go; the output chain drops by default, the guard accepts. */
  predicate NftPasses(c: Config, p: Packet) {
    && Filter(OutputChain(c), Drop, p, Output) == Accept
    && Filter(GuardChain(c), Accept, p, Postrouting) == Accept
  }

  // ---------------------------------------------------------------------
  // iptables and ip6tables
  // ---------------------------------------------------------------------

  function FamilyEndpointRules(c: Config, endpoints: seq<string>, v6: bool): seq<Rule> {
    if endpoints == [] then []
    else
      var last := c.text.parse(endpoints[|endpoints| - 1]);
      FamilyEndpointRules(c, endpoints[..|endpoints| - 1], v6) +
      if last.None? || last.value.V6? != v6 then [] else [Allow(Destination(Host(c, last.value)))]
  }

  function FamilyAllowed(c: Config, v6: bool): seq<Rule> {
    [Allow(Oif("lo")), Allow(Destination(if v6 then LOOPBACK_V6 else LOOPBACK_V4)), Allow(Oif(c.tunnel))]
    + DirectEgressRules(c)
    + FamilyEndpointRules(c, c.endpoints, v6)
    + (if v6 then [] else INTERNAL_DNS_RULES)
  }

  function FamilyTolerated(c: Config, v6: bool): seq<Rule> {
    [Allow(Established)] + if !v6 && c.allowLan then LanRules(c) else []
  }

  function FamilyChain(c: Config, v6: bool): seq<Rule> {
    FamilyAllowed(c, v6) + DNS_BLOCK_RULES + FamilyTolerated(c, v6) + [Rule([], Reject)]
  }

  /** Each family has its own chain; IPv6 has one only when it is blocked. */
  predicate IptablesPasses(c: Config, p: Packet) {
    if p.dst.V6? && !c.blockIpv6 then true
    else Filter(FamilyChain(c, p.dst.V6?), Accept, p, IptablesOutput) == Accept
  }

  // ---------------------------------------------------------------------
  // The policy, without chains
  // ---------------------------------------------------------------------

  ghost predicate Listed(c: Config, endpoints: seq<string>, a: Address) {
    exists i :: 0 <= i < |endpoints| && c.text.parse(endpoints[i]) == Some(a)
  }

  ghost predicate ToLan(c: Config, p: Packet) {
    exists i :: 0 <= i < |c.lan| && Covers(c.lan[i], p.dst)
  }

  predicate ToLoopback(p: Packet) {
    p.oif == "lo" || Covers(LOOPBACK_V4, p.dst) || Covers(LOOPBACK_V6, p.dst)
  }

  predicate ByDirectUser(c: Config, p: Packet) {
    c.uid == Some(p.uid) && p.mark == OUTBOUND_MARK
  }

  predicate ToResolver(p: Packet) {
    Covers(RESOLVER, p.dst) && (p.protocol.Udp? || p.protocol.Tcp?) && p.dport == 53
  }

  /** Allowed whatever the port, tunnel aside. */
  ghost predicate Exempt(c: Config, p: Packet) {
    ToLoopback(p) || ByDirectUser(c, p) || Listed(c, c.endpoints, p.dst) || ToResolver(p)
  }

  /** The packet's route at the output hook names the tunnel, as the backend reads that name. */
  predicate ThroughTunnel(c: Config, p: Packet, hook: Hook) {
    NamesInterface(c.tunnel, p.oif, hook)
  }

  predicate IsDns(p: Packet) {
    (p.protocol.Udp? || p.protocol.Tcp?) && (p.dport == 53 || p.dport == 853)
  }

  /** Allowed unless it is DNS. */
  ghost predicate Ordinary(c: Config, p: Packet) {
    p.established || (c.allowLan && ToLan(c, p))
  }

  predicate InRange(p: Packet) {
    p.dst.V6? ==> p.dst.bits <= EVERY_V6.last
  }

  ghost predicate Policy(c: Config, p: Packet) {
    && (p.mark != CAPTURE_MARK || NamesInterface(c.tunnel, p.finalOif, Postrouting))
    && (Exempt(c, p) || ThroughTunnel(c, p, Output) ||
        (!IsDns(p) && (p.mark == CAPTURE_MARK || Ordinary(c, p) || (p.dst.V6? && !c.blockIpv6))))
  }

  // ---------------------------------------------------------------------
  // What each group of rules matches
  // ---------------------------------------------------------------------

  lemma SingleMatches(condition: Condition, v: Verdict, p: Packet, hook: Hook)
    ensures Matched([Rule([condition], v)], p, hook) <==> Holds(condition, p, hook)
  {
    One(condition, p, hook);
    assert [Rule([condition], v)][0].conditions == [condition];
  }

  lemma PairMatches(x: Condition, y: Condition, v: Verdict, p: Packet, hook: Hook)
    ensures Matched([Rule([x, y], v)], p, hook) <==> Holds(x, p, hook) && Holds(y, p, hook)
  {
    Both(x, y, p, hook);
    assert [Rule([x, y], v)][0].conditions == [x, y];
  }

  lemma {:induction false} EndpointsMatch(c: Config, endpoints: seq<string>, p: Packet)
    ensures Uniform(EndpointRules(c, endpoints), Accept)
    ensures Matched(EndpointRules(c, endpoints), p, Output) <==> Listed(c, endpoints, p.dst)
  {
    if endpoints != [] {
      var n := |endpoints| - 1;
      var init, last := endpoints[..n], c.text.parse(endpoints[n]);
      EndpointsMatch(c, init, p);
      if last.Some? {
        SingleMatches(Destination(Host(c, last.value)), Accept, p, Output);
        MatchedConcat(EndpointRules(c, init), [Allow(Destination(Host(c, last.value)))], p, Output);
      } else {
        assert EndpointRules(c, endpoints) == EndpointRules(c, init);
      }
      ListedSnoc(c, endpoints, p.dst);
    }
  }

  lemma ListedSnoc(c: Config, endpoints: seq<string>, a: Address)
    requires endpoints != []
    ensures Listed(c, endpoints, a) <==>
            Listed(c, endpoints[..|endpoints| - 1], a) || c.text.parse(endpoints[|endpoints| - 1]) == Some(a)
  {
    var init := endpoints[..|endpoints| - 1];
    if Listed(c, init, a) {
      var i :| 0 <= i < |init| && c.text.parse(init[i]) == Some(a);
      assert endpoints[i] == init[i];
    }
    if Listed(c, endpoints, a) {
      var i :| 0 <= i < |endpoints| && c.text.parse(endpoints[i]) == Some(a);
      assert i == |init| || init[i] == endpoints[i];
    }
  }

  lemma {:induction false} FamilyEndpointsMatch(c: Config, endpoints: seq<string>, p: Packet)
    ensures Uniform(FamilyEndpointRules(c, endpoints, p.dst.V6?), Accept)
    ensures Matched(FamilyEndpointRules(c, endpoints, p.dst.V6?), p, IptablesOutput) <==> Listed(c, endpoints, p.dst)
  {
    if endpoints != [] {
      var n := |endpoints| - 1;
      var init, last := endpoints[..n], c.text.parse(endpoints[n]);
      FamilyEndpointsMatch(c, init, p);
      if last.Some? && last.value.V6? == p.dst.V6? {
        SingleMatches(Destination(Host(c, last.value)), Accept, p, IptablesOutput);
        MatchedConcat(FamilyEndpointRules(c, init, p.dst.V6?), [Allow(Destination(Host(c, last.value)))], p, IptablesOutput);
      } else {
        assert FamilyEndpointRules(c, endpoints, p.dst.V6?) == FamilyEndpointRules(c, init, p.dst.V6?);
      }
      ListedSnoc(c, endpoints, p.dst);
    }
  }

  lemma LanMatch(c: Config, p: Packet, hook: Hook)
    ensures Uniform(LanRules(c), Accept)
    ensures Matched(LanRules(c), p, hook) <==> ToLan(c, p)
  {
    forall i | 0 <= i < |c.lan| ensures AllHold(LanRules(c)[i].conditions, p, hook) <==> Covers(c.lan[i], p.dst) {
      One(Destination(c.lan[i]), p, hook);
    }
  }

  lemma DirectMatch(c: Config, p: Packet, hook: Hook)
    ensures Uniform(DirectEgressRules(c), Accept)
    ensures Matched(DirectEgressRules(c), p, hook) <==> ByDirectUser(c, p)
  {
    if c.uid.Some? {
      PairMatches(Owner(c.uid.value), Mark(OUTBOUND_MARK), Accept, p, hook);
    }
  }

  lemma ResolverMatch(p: Packet, hook: Hook)
    ensures Uniform(INTERNAL_DNS_RULES, Accept)
    ensures Matched(INTERNAL_DNS_RULES, p, hook) <==> ToResolver(p)
  {
    var a := [Rule([Destination(RESOLVER), DestinationPort(Udp, 53)], Accept)];
    var b := [Rule([Destination(RESOLVER), DestinationPort(Tcp, 53)], Accept)];
    assert INTERNAL_DNS_RULES == a + b;
    MatchedConcat(a, b, p, hook);
    PairMatches(Destination(RESOLVER), DestinationPort(Udp, 53), Accept, p, hook);
    PairMatches(Destination(RESOLVER), DestinationPort(Tcp, 53), Accept, p, hook);
  }

  lemma DnsMatch(p: Packet, hook: Hook)
    ensures Uniform(DNS_BLOCK_RULES, Reject)
    ensures Matched(DNS_BLOCK_RULES, p, hook) <==> IsDns(p)
  {
    var u := [Rule([DestinationPort(Udp, 53)], Reject)];
    var v := [Rule([DestinationPort(Udp, 853)], Reject)];
    var t := [Rule([DestinationPort(Tcp, 53)], Reject)];
    var w := [Rule([DestinationPort(Tcp, 853)], Reject)];
    assert DNS_BLOCK_RULES == ((u + v) + t) + w;
    MatchedConcat((u + v) + t, w, p, hook);
    MatchedConcat(u + v, t, p, hook);
    MatchedConcat(u, v, p, hook);
    SingleMatches(DestinationPort(Udp, 53), Reject, p, hook);
    SingleMatches(DestinationPort(Udp, 853), Reject, p, hook);
    SingleMatches(DestinationPort(Tcp, 53), Reject, p, hook);
    SingleMatches(DestinationPort(Tcp, 853), Reject, p, hook);
  }

  lemma NftAllowedMatch(c: Config, p: Packet)
    ensures Uniform(NftAllowed(c), Accept)
    ensures Matched(NftAllowed(c), p, Output) <==> Exempt(c, p) || ThroughTunnel(c, p, Output)
  {
    var lo, v4, v6, tunnel := [Allow(Oif("lo"))], [Allow(Destination(LOOPBACK_V4))], [Allow(Destination(LOOPBACK_V6))], [Allow(Oif(c.tunnel))];
    var direct, endpoints := DirectEgressRules(c), EndpointRules(c, c.endpoints);
    assert NftAllowed(c) == (((((lo + v4) + v6) + tunnel) + direct) + endpoints) + INTERNAL_DNS_RULES;
    DirectMatch(c, p, Output);
    EndpointsMatch(c, c.endpoints, p);
    ResolverMatch(p, Output);
    SingleMatches(Oif("lo"), Accept, p, Output);
    SingleMatches(Destination(LOOPBACK_V4), Accept, p, Output);
    SingleMatches(Destination(LOOPBACK_V6), Accept, p, Output);
    SingleMatches(Oif(c.tunnel), Accept, p, Output);
    hide Matched, Listed, Covers, EndpointRules, DirectEgressRules, ByDirectUser, ToResolver;
    MatchedConcat(lo, v4, p, Output);
    MatchedConcat(lo + v4, v6, p, Output);
    MatchedConcat((lo + v4) + v6, tunnel, p, Output);
    MatchedConcat(((lo + v4) + v6) + tunnel, direct, p, Output);
    MatchedConcat((((lo + v4) + v6) + tunnel) + direct, endpoints, p, Output);
    MatchedConcat(((((lo + v4) + v6) + tunnel) + direct) + endpoints, INTERNAL_DNS_RULES, p, Output);
  }

  lemma FamilyAllowedMatch(c: Config, p: Packet)
    ensures Uniform(FamilyAllowed(c, p.dst.V6?), Accept)
    ensures Matched(FamilyAllowed(c, p.dst.V6?), p, IptablesOutput) <==> Exempt(c, p) || ThroughTunnel(c, p, IptablesOutput)
  {
    var v6 := p.dst.V6?;
    var loopback := if v6 then LOOPBACK_V6 else LOOPBACK_V4;
    var lo, own, tunnel := [Allow(Oif("lo"))], [Allow(Destination(loopback))], [Allow(Oif(c.tunnel))];
    var direct, endpoints, dns := DirectEgressRules(c), FamilyEndpointRules(c, c.endpoints, v6), if v6 then [] else INTERNAL_DNS_RULES;
    assert FamilyAllowed(c, v6) == ((((lo + own) + tunnel) + direct) + endpoints) + dns;
    DirectMatch(c, p, IptablesOutput);
    FamilyEndpointsMatch(c, c.endpoints, p);
    ResolverMatch(p, IptablesOutput);
    SingleMatches(Oif("lo"), Accept, p, IptablesOutput);
    SingleMatches(Destination(loopback), Accept, p, IptablesOutput);
    SingleMatches(Oif(c.tunnel), Accept, p, IptablesOutput);
    assert Matched(dns, p, IptablesOutput) <==> ToResolver(p);
    hide Matched, Listed, FamilyEndpointRules, DirectEgressRules, ByDirectUser, ToResolver;
    MatchedConcat(lo, own, p, IptablesOutput);
    MatchedConcat(lo + own, tunnel, p, IptablesOutput);
    MatchedConcat((lo + own) + tunnel, direct, p, IptablesOutput);
    MatchedConcat(((lo + own) + tunnel) + direct, endpoints, p, IptablesOutput);
    MatchedConcat((((lo + own) + tunnel) + direct) + endpoints, dns, p, IptablesOutput);
  }

  lemma NftToleratedMatch(c: Config, p: Packet)
    requires InRange(p)
    ensures Uniform(NftTolerated(c), Accept)
    ensures Matched(NftTolerated(c), p, Output) <==> p.mark == CAPTURE_MARK || Ordinary(c, p) || (p.dst.V6? && !c.blockIpv6)
  {
    var mark, established := [Allow(Mark(CAPTURE_MARK))], [Allow(Established)];
    var lan := if c.allowLan then LanRules(c) else [];
    var v6 := if c.blockIpv6 then [] else [Allow(Destination(EVERY_V6))];
    assert NftTolerated(c) == ((mark + established) + lan) + v6;
    LanMatch(c, p, Output);
    SingleMatches(Mark(CAPTURE_MARK), Accept, p, Output);
    SingleMatches(Established, Accept, p, Output);
    SingleMatches(Destination(EVERY_V6), Accept, p, Output);
    assert Matched(lan, p, Output) <==> c.allowLan && ToLan(c, p);
    assert Matched(v6, p, Output) <==> p.dst.V6? && !c.blockIpv6;
    hide Matched, ToLan, LanRules;
    MatchedConcat(mark, established, p, Output);
    MatchedConcat(mark + established, lan, p, Output);
    MatchedConcat((mark + established) + lan, v6, p, Output);
  }

  lemma FamilyToleratedMatch(c: Config, p: Packet)
    requires LanIsV4(c)
    ensures Uniform(FamilyTolerated(c, p.dst.V6?), Accept)
    ensures Matched(FamilyTolerated(c, p.dst.V6?), p, IptablesOutput) <==> Ordinary(c, p)
  {
    var established, lan := [Allow(Established)], if !p.dst.V6? && c.allowLan then LanRules(c) else [];
    LanMatch(c, p, IptablesOutput);
    SingleMatches(Established, Accept, p, IptablesOutput);
    assert Matched(lan, p, IptablesOutput) <==> c.allowLan && ToLan(c, p);
    MatchedConcat(established, lan, p, IptablesOutput);
  }

  /** A chain of allow rules, a DNS block, more allow rules and a rule for the rest. */
  lemma Layers(allowed: seq<Rule>, tolerated: seq<Rule>, rest: seq<Rule>, policy: Verdict, p: Packet, hook: Hook)
    requires Uniform(allowed, Accept) && Uniform(tolerated, Accept)
    requires Decide(rest, p, hook).Some? && Decide(rest, p, hook).value != Accept
    ensures Filter(allowed + DNS_BLOCK_RULES + tolerated + rest, policy, p, hook) == Accept <==>
            Matched(allowed, p, hook) || (!IsDns(p) && Matched(tolerated, p, hook))
  {
    DnsMatch(p, hook);
    DecideUniform(allowed, Accept, p, hook);
    DecideUniform(DNS_BLOCK_RULES, Reject, p, hook);
    DecideUniform(tolerated, Accept, p, hook);
    hide Decide, Matched, Uniform, IsDns;
    DecideConcat(allowed + DNS_BLOCK_RULES + tolerated, rest, p, hook);
    DecideConcat(allowed + DNS_BLOCK_RULES, tolerated, p, hook);
    DecideConcat(allowed, DNS_BLOCK_RULES, p, hook);
  }

  lemma GuardPasses(c: Config, p: Packet)
    ensures Filter(GuardChain(c), Accept, p, Postrouting) == Accept <==>
            p.mark != CAPTURE_MARK || NamesInterface(c.tunnel, p.finalOif, Postrouting)
  {
    var own, other := [Rule([Mark(CAPTURE_MARK), Oif(c.tunnel)], Accept)], [Rule([Mark(CAPTURE_MARK)], Drop)];
    assert GuardChain(c) == own + other;
    DecideConcat(own, other, p, Postrouting);
    DecideUniform(own, Accept, p, Postrouting);
    DecideUniform(other, Drop, p, Postrouting);
    PairMatches(Mark(CAPTURE_MARK), Oif(c.tunnel), Accept, p, Postrouting);
    SingleMatches(Mark(CAPTURE_MARK), Drop, p, Postrouting);
  }

  lemma TerminalDecides(p: Packet, hook: Hook)
    ensures Decide(TERMINAL_DROP_RULES, p, hook) == Some(Drop)
    ensures Decide([Rule([], Reject)], p, hook) == Some(Reject)
  {
    assert TERMINAL_DROP_RULES[4].conditions == [];
    assert Matched(TERMINAL_DROP_RULES, p, hook);
    DecideUniform(TERMINAL_DROP_RULES, Drop, p, hook);
  }

  /** What the nftables output chain lets through, before the guard. */
  lemma OutputChainPasses(c: Config, p: Packet)
    requires InRange(p)
    ensures Filter(OutputChain(c), Drop, p, Output) == Accept <==>
            || Exempt(c, p) || ThroughTunnel(c, p, Output)
            || (!IsDns(p) && (p.mark == CAPTURE_MARK || Ordinary(c, p) || (p.dst.V6? && !c.blockIpv6)))
  {
    NftAllowedMatch(c, p);
    NftToleratedMatch(c, p);
    TerminalDecides(p, Output);
    hide Matched, Uniform, Decide, Exempt, Ordinary, IsDns, NftAllowed, NftTolerated, NamesInterface;
    Layers(NftAllowed(c), NftTolerated(c), TERMINAL_DROP_RULES, Drop, p, Output);
  }

  /** The two nftables chains together pass exactly the packets of the policy. */
  lemma NftablesEnforcesPolicy(c: Config, p: Packet)
    requires InRange(p)
    ensures NftPasses(c, p) <==> Policy(c, p)
  {
    GuardPasses(c, p);
    OutputChainPasses(c, p);
    hide Filter, Exempt, Ordinary, GuardChain, OutputChain, IsDns, NamesInterface;
  }

  /** What the chain of the packet's family lets through. */
  lemma FamilyChainPasses(c: Config, p: Packet)
    requires LanIsV4(c)
    ensures Filter(FamilyChain(c, p.dst.V6?), Accept, p, IptablesOutput) == Accept <==>
            Exempt(c, p) || ThroughTunnel(c, p, IptablesOutput) || (!IsDns(p) && Ordinary(c, p))
  {
    var v6 := p.dst.V6?;
    FamilyAllowedMatch(c, p);
    FamilyToleratedMatch(c, p);
    TerminalDecides(p, IptablesOutput);
    hide Matched, Uniform, Decide, Exempt, Ordinary, IsDns, FamilyAllowed, FamilyTolerated, NamesInterface;
    Layers(FamilyAllowed(c, v6), FamilyTolerated(c, v6), [Rule([], Reject)], Accept, p, IptablesOutput);
  }

  lemma IptablesEnforces(c: Config, p: Packet)
    requires LanIsV4(c)
    ensures IptablesPasses(c, p) <==>
            || (p.dst.V6? && !c.blockIpv6)
            || Exempt(c, p) || ThroughTunnel(c, p, IptablesOutput) || (!IsDns(p) && Ordinary(c, p))
  {
    hide Filter, FamilyChain, Exempt, Ordinary, IsDns, ThroughTunnel;
    FamilyChainPasses(c, p);
  }

  /**
   * On packets without the capture mark the backends disagree exactly on these:
   * with IPv6 unblocked ip6tables has no chain and lets IPv6 DNS out; and a tunnel
   * name ending in "+" or "*" is a wildcard for one backend and not for the other.
   */
  lemma BackendsAgree(c: Config, p: Packet)
    requires LanIsV4(c) && InRange(p) && p.mark != CAPTURE_MARK
    ensures (NftPasses(c, p) <==> IptablesPasses(c, p)) <==>
            if p.dst.V6? && !c.blockIpv6
            then Exempt(c, p) || ThroughTunnel(c, p, Output) || !IsDns(p)
            else
              || Exempt(c, p) || (!IsDns(p) && Ordinary(c, p))
              || (ThroughTunnel(c, p, Output) <==> ThroughTunnel(c, p, IptablesOutput))
  {
    NftablesEnforcesPolicy(c, p);
    IptablesEnforces(c, p);
    hide NftPasses, IptablesPasses, Exempt, Ordinary, IsDns, ThroughTunnel, NamesInterface;
  }

  /** Neither backend reads the name as a wildcard. */
  predicate PlainName(name: string) {
    name == "" || (name[|name| - 1] != '+' && name[|name| - 1] != '*')
  }

  /** With a plain tunnel name and IPv4, or IPv6 blocked, the backends pass the same unmarked packets. */
  lemma PlainNamesAgree(c: Config, p: Packet)
    requires LanIsV4(c) && InRange(p) && p.mark != CAPTURE_MARK
    requires PlainName(c.tunnel) && (p.dst.V4? || c.blockIpv6)
    ensures NftPasses(c, p) <==> IptablesPasses(c, p)
  {
    BackendsAgree(c, p);
    hide NftPasses, IptablesPasses, Exempt, Ordinary, IsDns;
  }

  /** An IPv6 DNS packet that iptables passes and nftables stops. */
  lemma BackendsDiffer(text: AddressText)
    ensures var c := Config("wdvpn-tun0", false, true, [], None, DEFAULT_LAN, text);
            var p := Packet(V6(2), "eth0", "eth0", Udp, 53, 0, 0, false);
            LanIsV4(c) && IptablesPasses(c, p) && !NftPasses(c, p)
  {
    var c := Config("wdvpn-tun0", false, true, [], None, DEFAULT_LAN, text);
    var p := Packet(V6(2), "eth0", "eth0", Udp, 53, 0, 0, false);
    NftablesEnforcesPolicy(c, p);
    hide NftPasses;
    assert "eth0"[0] != "lo"[0] && "eth0"[0] != "wdvpn-tun0"[0];
  }

  /** A packet that only the tunnel rule can let through. */
  lemma OnlyByTunnel(tunnel: string, text: AddressText)
    ensures var c := Config(tunnel, true, true, [], None, DEFAULT_LAN, text);
            var p := Packet(V4(0x0808_0808), "tun5", "tun5", Tcp, 443, 0, 0, false);
            !Exempt(c, p) && !Ordinary(c, p)
  {
    assert |"lo"| != |"tun5"|;
  }

  /** With a tunnel named "tun+", iptables lets everything out of tun5 and nftables does not; "tun*" is the reverse. */
  lemma WildcardsDiffer(text: AddressText)
    ensures var p := Packet(V4(0x0808_0808), "tun5", "tun5", Tcp, 443, 0, 0, false);
            var plus := Config("tun+", true, true, [], None, DEFAULT_LAN, text);
            var star := Config("tun*", true, true, [], None, DEFAULT_LAN, text);
            && IptablesPasses(plus, p) && !NftPasses(plus, p)
            && !IptablesPasses(star, p) && NftPasses(star, p)
  {
    hide NftPasses, IptablesPasses, Exempt, Ordinary;
    var p := Packet(V4(0x0808_0808), "tun5", "tun5", Tcp, 443, 0, 0, false);
    var plus := Config("tun+", true, true, [], None, DEFAULT_LAN, text);
    var star := Config("tun*", true, true, [], None, DEFAULT_LAN, text);
    OnlyByTunnel("tun+", text);
    OnlyByTunnel("tun*", text);
    NftablesEnforcesPolicy(plus, p);
    NftablesEnforcesPolicy(star, p);
    IptablesEnforces(plus, p);
    IptablesEnforces(star, p);
    assert "tun+"[..3] == "tun" && "tun*"[..3] == "tun" && "tun" <= "tun5";
    assert "tun+"[3] == '+' && "tun*"[3] == '*' && "tun5"[3] == '5';
  }

  // ---------------------------------------------------------------------
  // Generators and counts
  // ---------------------------------------------------------------------

  method NftEndpointRules(c: Config) returns (rules: seq<Rule>)
    ensures rules == EndpointRules(c, c.endpoints)
  {
    rules := [];
    for i := 0 to |c.endpoints|
      invariant rules == EndpointRules(c, c.endpoints[..i])
    {
      assert c.endpoints[..i + 1][..i] == c.endpoints[..i];
      var parsed := c.text.parse(c.endpoints[i]);
      if parsed.Some? {
        rules := rules + [Allow(Destination(Host(c, parsed.value)))];
      }
    }
    assert c.endpoints[..|c.endpoints|] == c.endpoints;
  }

  method IptablesEndpointRules(c: Config, v6: bool) returns (rules: seq<Rule>)
    ensures rules == FamilyEndpointRules(c, c.endpoints, v6)
  {
    rules := [];
    for i := 0 to |c.endpoints|
      invariant rules == FamilyEndpointRules(c, c.endpoints[..i], v6)
    {
      assert c.endpoints[..i + 1][..i] == c.endpoints[..i];
      var parsed := c.text.parse(c.endpoints[i]);
      if parsed.Some? && parsed.value.V6? == v6 {
        rules := rules + [Allow(Destination(Host(c, parsed.value)))];
      }
    }
    assert c.endpoints[..|c.endpoints|] == c.endpoints;
  }

  /** The rules decide every packet as the policy's output half says. */
  method NftOutputRules(c: Config) returns (rules: seq<Rule>)
    ensures rules == OutputChain(c)
    ensures forall p :: InRange(p) ==>
              (Filter(rules, Drop, p, Output) == Accept <==>
                 || Exempt(c, p) || ThroughTunnel(c, p, Output)
                 || (!IsDns(p) && (p.mark == CAPTURE_MARK || Ordinary(c, p) || (p.dst.V6? && !c.blockIpv6))))
  {
    hide EndpointRules, LanRules, DirectEgressRules, Filter, Exempt, Ordinary, IsDns, ThroughTunnel;
    forall p | InRange(p)
      ensures Filter(OutputChain(c), Drop, p, Output) == Accept <==>
                || Exempt(c, p) || ThroughTunnel(c, p, Output)
                || (!IsDns(p) && (p.mark == CAPTURE_MARK || Ordinary(c, p) || (p.dst.V6? && !c.blockIpv6)))
    {
      OutputChainPasses(c, p);
    }
    var endpoints := NftEndpointRules(c);
    rules := [Allow(Oif("lo")), Allow(Destination(LOOPBACK_V4)), Allow(Destination(LOOPBACK_V6)), Allow(Oif(c.tunnel))]
      + DirectEgressRules(c) + endpoints + INTERNAL_DNS_RULES + DNS_BLOCK_RULES
      + [Allow(Mark(CAPTURE_MARK))] + [Allow(Established)];
    if c.allowLan {
      rules := rules + LanRules(c);
    }
    if !c.blockIpv6 {
      rules := rules + [Allow(Destination(EVERY_V6))];
    }
    rules := rules + TERMINAL_DROP_RULES;
  }

  /** The chain for one family; it decides every packet of that family as the policy says. */
  method IptablesRules(c: Config, v6: bool) returns (rules: seq<Rule>)
    ensures rules == FamilyChain(c, v6)
    ensures LanIsV4(c) ==> forall p: Packet :: p.dst.V6? == v6 ==>
              (Filter(rules, Accept, p, IptablesOutput) == Accept <==>
                 Exempt(c, p) || ThroughTunnel(c, p, IptablesOutput) || (!IsDns(p) && Ordinary(c, p)))
  {
    hide FamilyEndpointRules, LanRules, DirectEgressRules, Filter, Exempt, Ordinary, IsDns, ThroughTunnel, LanIsV4;
    forall p: Packet | LanIsV4(c) && p.dst.V6? == v6
      ensures Filter(FamilyChain(c, v6), Accept, p, IptablesOutput) == Accept <==>
                Exempt(c, p) || ThroughTunnel(c, p, IptablesOutput) || (!IsDns(p) && Ordinary(c, p))
    {
      FamilyChainPasses(c, p);
    }
    var endpoints := IptablesEndpointRules(c, v6);
    rules := [Allow(Oif("lo")), Allow(Destination(if v6 then LOOPBACK_V6 else LOOPBACK_V4)), Allow(Oif(c.tunnel))];
    rules := rules + DirectEgressRules(c);
    rules := rules + endpoints;
    if !v6 {
      rules := rules + INTERNAL_DNS_RULES;
    }
    rules := rules + DNS_BLOCK_RULES;
    rules := rules + [Allow(Established)];
    if !v6 && c.allowLan {
      rules := rules + LanRules(c);
    }
    rules := rules + [Rule([], Reject)];
  }

  /** The count the inspector expects is the number of rules the generator emits. */
  method ExpectedNftRuleCount(c: Config) returns (count: nat)
    ensures count == |OutputChain(c)| + |GuardChain(c)|
  {
    var endpoints := 0;
    for i := 0 to |c.endpoints|
      invariant endpoints == |EndpointRules(c, c.endpoints[..i])|
    {
      assert c.endpoints[..i + 1][..i] == c.endpoints[..i];
      if c.text.parse(c.endpoints[i]).Some? {
        endpoints := endpoints + 1;
      }
    }
    assert c.endpoints[..|c.endpoints|] == c.endpoints;
    count := 19 + endpoints
      + (if c.uid.Some? then 1 else 0)
      + (if c.allowLan then |c.lan| else 0)
      + (if c.blockIpv6 then 0 else 1);
  }
}
