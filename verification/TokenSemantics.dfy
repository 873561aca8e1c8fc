/**
 * What the emitted iptables tokens mean, read flag by flag as the tool reads them,
 * and that the token lists decide every packet as the rules they stand for.
 */
module TokenSemantics {
  import opened Common
  import opened PacketFilter
  import opened KillSwitchRules
  import opened TokenMatching
  import opened FirewallInspection

  /** How the tool reads the text of an address or a network: its family and the interval it covers. */
  type NetworkText = string -> Option<(bool, nat, nat)>

  predicate NetworkHolds(net: (bool, nat, nat), a: Address) {
    net.0 == a.V6? && net.1 <= a.bits <= net.2
  }

  function HexDigit(c: char): Option<nat> {
    if '0' <= c <= '9' then Some((c - '0') as nat)
    else if 'a' <= c <= 'f' then Some((c - 'a') as nat + 10)
    else None
  }

  function HexDigits(s: string): Option<nat> {
    if s == "" then Some(0)
    else
      var high, low := HexDigits(s[..|s| - 1]), HexDigit(s[|s| - 1]);
      if high.None? || low.None? then None else Some(16 * high.value + low.value)
  }

  /** A number written with the prefix 0x. */
  function HexNumber(s: string): Option<nat> {
    if |s| > 2 && s[0] == '0' && s[1] == 'x' then HexDigits(s[2..]) else None
  }

  function ProtocolNamed(s: string): Option<Protocol> {
    if s == "tcp" then Some(Tcp)
    else if s == "udp" then Some(Udp)
    else if s == "icmp" then Some(Icmp)
    else if s == "ipv6-icmp" then Some(Icmp6)
    else None
  }

  function VerdictNamed(s: string): Option<Verdict> {
    if s == "ACCEPT" then Some(Accept)
    else if s == "REJECT" then Some(Reject)
    else if s == "DROP" then Some(Drop)
    else None
  }

  /** Whether a packet satisfies one flag with its value; None for a flag that is not understood. */
  function FlagHolds(net: NetworkText, flag: string, value: string, p: Packet): Option<bool> {
    if flag == "-o" then Some(NamesInterface(value, p.oif, IptablesOutput))
    else if flag == "-d" then (match net(value) case None => None case Some(n) => Some(NetworkHolds(n, p.dst)))
    else if flag == "-p" then (match ProtocolNamed(value) case None => None case Some(q) => Some(p.protocol == q))
    else if flag == "--dport" then Some(value == Decimal(p.dport))
    else if flag == "--uid-owner" then Some(value == Decimal(p.uid))
    else if flag == "--mark" then (match HexNumber(value) case None => None case Some(m) => Some(p.mark == m))
    else if flag == "--ctstate" then (if value == "ESTABLISHED,RELATED" then Some(p.established) else None)
    else if flag == "--comment" then Some(true)
    else if flag == "-m" && value in {"owner", "mark", "conntrack", "comment"} then Some(true)
    else None
  }

  datatype Reading = Unreadable | NoMatch | Decides(verdict: Verdict)

  /** A rule is a list of flags with values that ends in a jump. */
  function ReadRule(net: NetworkText, tokens: Tokens, p: Packet): Reading {
    if |tokens| < 2 then Unreadable
    else if tokens[0] == "-j" then
      var v := VerdictNamed(tokens[1]);
      if |tokens| == 2 && v.Some? then Decides(v.value) else Unreadable
    else
      var holds, rest := FlagHolds(net, tokens[0], tokens[1], p), ReadRule(net, tokens[2..], p);
      if holds.None? || rest.Unreadable? then Unreadable else if holds.value then rest else NoMatch
  }

  /** The first listed rule that matches decides. */
  function ReadChain(net: NetworkText, lines: seq<Tokens>, p: Packet): Reading {
    if lines == [] then NoMatch
    else
      var first, rest := ReadRule(net, lines[0], p), ReadChain(net, lines[1..], p);
      if first.Unreadable? || rest.Unreadable? then Unreadable else if first.NoMatch? then rest else first
  }

  // ---------------------------------------------------------------------
  // One rule
  // ---------------------------------------------------------------------

  /** The tool reads a network's text as the network, and a condition is one the generator uses. */
  predicate Understood(net: NetworkText, c: Condition) {
    match c
    case Destination(n) => net(n.text) == Some((n.v6, n.first, n.last))
    case Mark(mark) => mark == OUTBOUND_MARK || mark == CAPTURE_MARK
    case Protocol(protocol) => protocol != OtherProtocol
    case DestinationPort(transport, _) => transport.Tcp? || transport.Udp?
    case _ => true
  }

  predicate AllUnderstood(net: NetworkText, cs: seq<Condition>) {
    forall i :: 0 <= i < |cs| ==> Understood(net, cs[i])
  }

  /** Reading two more tokens in front of a readable rest. */
  lemma ReadPair(net: NetworkText, flag: string, value: string, rest: Tokens, p: Packet)
    requires flag != "-j" && FlagHolds(net, flag, value, p).Some? && !ReadRule(net, rest, p).Unreadable?
    ensures ReadRule(net, [flag, value] + rest, p) == if FlagHolds(net, flag, value, p).value then ReadRule(net, rest, p) else NoMatch
  {
    assert ([flag, value] + rest)[2..] == rest;
    assert |[flag, value] + rest| >= 2;
  }

  lemma FlagTexts()
    ensures "-o" != "-j" && "-d" != "-j" && "-p" != "-j" && "-m" != "-j" && |"--dport"| != |"-j"|
    ensures "-d" != "-o" && "-p" != "-o" && "-m" != "-o" && "-p" != "-d" && "-m" != "-d" && "-m" != "-p"
  {
    assert "-o"[1] == 'o' && "-d"[1] == 'd' && "-p"[1] == 'p' && "-m"[1] == 'm' && "-j"[1] == 'j';
  }

  lemma Marks()
    ensures HexNumber("0x2024") == Some(OUTBOUND_MARK) && HexNumber("0x2023") == Some(CAPTURE_MARK)
  {
    assert "0x2024"[2..] == "2024" && "0x2023"[2..] == "2023";
    assert "2024"[..3] == "202" && "2023"[..3] == "202" && "202"[..2] == "20" && "20"[..1] == "2" && "2"[..0] == "";
    assert HexDigits("2") == Some(2);
    assert HexDigits("20") == Some(0x20);
    assert HexDigits("202") == Some(0x202);
  }

  lemma LongFlags(net: NetworkText, value: string, p: Packet)
    ensures FlagHolds(net, "--dport", value, p) == Some(value == Decimal(p.dport))
    ensures FlagHolds(net, "--uid-owner", value, p) == Some(value == Decimal(p.uid))
    ensures HexNumber(value).Some? ==> FlagHolds(net, "--mark", value, p) == Some(p.mark == HexNumber(value).value)
    ensures value == "ESTABLISHED,RELATED" ==> FlagHolds(net, "--ctstate", value, p) == Some(p.established)
    ensures FlagHolds(net, "--comment", value, p) == Some(true)
  {
    hide HexNumber, ProtocolNamed, Decimal;
    assert |"--dport"| == 7 && |"--uid-owner"| == 11 && |"--mark"| == 6 && |"--ctstate"| == 9 && |"--comment"| == 9;
    assert "--ctstate"[3] == 't' && "--comment"[3] == 'o';
  }

  lemma ShortFlags(net: NetworkText, value: string, p: Packet)
    ensures FlagHolds(net, "-o", value, p) == Some(NamesInterface(value, p.oif, IptablesOutput))
    ensures net(value).Some? ==> FlagHolds(net, "-d", value, p) == Some(NetworkHolds(net(value).value, p.dst))
    ensures ProtocolNamed(value).Some? ==> FlagHolds(net, "-p", value, p) == Some(p.protocol == ProtocolNamed(value).value)
    ensures value in {"owner", "mark", "conntrack", "comment"} ==> FlagHolds(net, "-m", value, p) == Some(true)
  {
    hide HexNumber, ProtocolNamed, Decimal;
    FlagTexts();
  }

  lemma ProtocolTexts(q: Protocol)
    requires q != OtherProtocol
    ensures ProtocolNamed(ProtocolText(q)) == Some(q)
  {
    assert "tcp"[0] == 't' && "udp"[0] == 'u' && |"icmp"| == 4 && |"ipv6-icmp"| == 9;
  }

  lemma SameDecimal(a: nat, b: nat)
    ensures Decimal(a) == Decimal(b) <==> a == b
  {
    if Decimal(a) == Decimal(b) {
      DecimalInjective(a, b);
    }
  }

  /** The tokens of one condition, in front of a readable rest, are read as the condition. */
  lemma ConditionReads(net: NetworkText, c: Condition, rest: Tokens, p: Packet)
    requires Understood(net, c) && !ReadRule(net, rest, p).Unreadable?
    ensures ReadRule(net, ConditionTokens(c) + rest, p) == if Holds(c, p, IptablesOutput) then ReadRule(net, rest, p) else NoMatch
  {
    FlagTexts();
    hide ReadRule, FlagHolds, HexNumber, ProtocolNamed, Decimal, ProtocolText;
    match c
    case Oif(name) =>
      ShortFlags(net, name, p);
      ReadPair(net, "-o", name, rest, p);
    case Destination(n) =>
      ShortFlags(net, n.text, p);
      ReadPair(net, "-d", n.text, rest, p);
    case Owner(uid) =>
      LongFlags(net, Decimal(uid), p);
      SameDecimal(uid, p.uid);
      ReadLong(net, "owner", "--uid-owner", Decimal(uid), rest, p);
    case Mark(mark) =>
      Marks();
      var text := if mark == OUTBOUND_MARK then "0x2024" else "0x2023";
      LongFlags(net, text, p);
      ReadLong(net, "mark", "--mark", text, rest, p);
    case Protocol(protocol) =>
      ProtocolTexts(protocol);
      ShortFlags(net, ProtocolText(protocol), p);
      ReadPair(net, "-p", ProtocolText(protocol), rest, p);
    case DestinationPort(transport, port) =>
      ProtocolTexts(transport);
      ShortFlags(net, ProtocolText(transport), p);
      LongFlags(net, Decimal(port), p);
      SameDecimal(port, p.dport);
      ReadPair(net, "--dport", Decimal(port), rest, p);
      ReadPair(net, "-p", ProtocolText(transport), ["--dport", Decimal(port)] + rest, p);
      assert ["-p", ProtocolText(transport), "--dport", Decimal(port)] + rest ==
             ["-p", ProtocolText(transport)] + (["--dport", Decimal(port)] + rest);
    case Established =>
      LongFlags(net, "ESTABLISHED,RELATED", p);
      ReadLong(net, "conntrack", "--ctstate", "ESTABLISHED,RELATED", rest, p);
  }

  /** A module is named and then its flag with a value. */
  lemma ReadLong(net: NetworkText, extension: string, flag: string, value: string, rest: Tokens, p: Packet)
    requires extension in {"owner", "mark", "conntrack", "comment"} && |flag| > 2
    requires FlagHolds(net, flag, value, p).Some? && !ReadRule(net, rest, p).Unreadable?
    ensures ReadRule(net, ["-m", extension, flag, value] + rest, p) ==
            if FlagHolds(net, flag, value, p).value then ReadRule(net, rest, p) else NoMatch
  {
    FlagTexts();
    hide ReadRule, FlagHolds;
    ReadPair(net, flag, value, rest, p);
    ShortFlags(net, extension, p);
    ReadPair(net, "-m", extension, [flag, value] + rest, p);
    assert ["-m", extension, flag, value] + rest == ["-m", extension] + ([flag, value] + rest);
  }

  lemma {:induction false} ConditionsRead(net: NetworkText, cs: seq<Condition>, rest: Tokens, p: Packet)
    requires AllUnderstood(net, cs) && !ReadRule(net, rest, p).Unreadable?
    ensures ReadRule(net, ConditionsTokens(cs) + rest, p) == if AllHold(cs, p, IptablesOutput) then ReadRule(net, rest, p) else NoMatch
    decreases |cs|
  {
    hide ReadRule, ConditionTokens, Holds, Understood;
    if cs == [] {
      assert ConditionsTokens(cs) + rest == rest;
    } else {
      ConditionsRead(net, cs[1..], rest, p);
      ConditionReads(net, cs[0], ConditionsTokens(cs[1..]) + rest, p);
      assert ConditionsTokens(cs) + rest == ConditionTokens(cs[0]) + (ConditionsTokens(cs[1..]) + rest);
      assert AllHold(cs, p, IptablesOutput) <==> Holds(cs[0], p, IptablesOutput) && AllHold(cs[1..], p, IptablesOutput);
    }
  }

  lemma VerdictTexts(v: Verdict)
    ensures VerdictNamed(VerdictText(v)) == Some(v)
  {
    assert "ACCEPT"[0] == 'A' && "REJECT"[0] == 'R' && "DROP"[0] == 'D';
  }

  /** The tokens of a rule match exactly the packets of the rule and give its verdict. */
  lemma RenderReads(net: NetworkText, r: Rule, p: Packet)
    requires AllUnderstood(net, r.conditions)
    ensures ReadRule(net, Render(r), p) == if AllHold(r.conditions, p, IptablesOutput) then Decides(r.verdict) else NoMatch
  {
    VerdictTexts(r.verdict);
    FlagTexts();
    var jump := ["-j", VerdictText(r.verdict)];
    assert ReadRule(net, jump, p) == Decides(r.verdict);
    hide ReadRule, FlagHolds, VerdictText, ConditionsTokens, AllHold;
    LongFlags(net, "WatchdogVPN kill switch", p);
    assert |"--comment"| == 9;
    ReadLong(net, "comment", "--comment", "WatchdogVPN kill switch", jump, p);
    ConditionsRead(net, r.conditions, COMMENT + jump, p);
    assert Render(r) == ConditionsTokens(r.conditions) + (COMMENT + jump);
  }

  // ---------------------------------------------------------------------
  // The chain
  // ---------------------------------------------------------------------

  predicate ChainUnderstood(net: NetworkText, rules: seq<Rule>) {
    forall i :: 0 <= i < |rules| ==> AllUnderstood(net, rules[i].conditions)
  }

  function AsReading(d: Option<Verdict>): Reading {
    match d case None => NoMatch case Some(v) => Decides(v)
  }

  lemma {:induction false} ChainReads(net: NetworkText, rules: seq<Rule>, p: Packet)
    requires ChainUnderstood(net, rules)
    ensures ReadChain(net, RenderAll(rules), p) == AsReading(Decide(rules, p, IptablesOutput))
    decreases |rules|
  {
    hide ReadRule, Render, AllUnderstood, AllHold;
    if rules != [] {
      RenderReads(net, rules[0], p);
      ChainReads(net, rules[1..], p);
      assert RenderAll(rules)[1..] == RenderAll(rules[1..]);
    }
  }

  /** The tool reads the networks of a configuration as what they are. */
  ghost predicate ReadsNetworks(net: NetworkText, c: Config) {
    && (forall n :: n == LOOPBACK_V4 || n == LOOPBACK_V6 || n == RESOLVER || n in c.lan ==> net(n.text) == Some((n.v6, n.first, n.last)))
    && (forall a: Address :: Listed(c, c.endpoints, a) ==> net(c.text.show(a)) == Some((a.V6?, a.bits, a.bits)))
  }

  lemma {:induction false} EndpointsUnderstood(net: NetworkText, c: Config, endpoints: seq<string>, v6: bool)
    requires forall a: Address :: Listed(c, endpoints, a) ==> net(c.text.show(a)) == Some((a.V6?, a.bits, a.bits))
    ensures ChainUnderstood(net, FamilyEndpointRules(c, endpoints, v6))
  {
    if endpoints != [] {
      var init, last := endpoints[..|endpoints| - 1], c.text.parse(endpoints[|endpoints| - 1]);
      forall a: Address | Listed(c, init, a) ensures Listed(c, endpoints, a) {
        ListedSnoc(c, endpoints, a);
      }
      EndpointsUnderstood(net, c, init, v6);
      if last.Some? {
        ListedSnoc(c, endpoints, last.value);
      }
    }
  }

  lemma UnderstoodConcat(net: NetworkText, a: seq<Rule>, b: seq<Rule>)
    requires ChainUnderstood(net, a) && ChainUnderstood(net, b)
    ensures ChainUnderstood(net, a + b)
  {
  }

  lemma FamilyUnderstood(net: NetworkText, c: Config, v6: bool)
    requires ReadsNetworks(net, c)
    ensures ChainUnderstood(net, FamilyChain(c, v6))
  {
    EndpointsUnderstood(net, c, c.endpoints, v6);
    var head := [Allow(Oif("lo")), Allow(Destination(if v6 then LOOPBACK_V6 else LOOPBACK_V4)), Allow(Oif(c.tunnel))];
    var dns := if v6 then [] else INTERNAL_DNS_RULES;
    assert ChainUnderstood(net, head) && ChainUnderstood(net, DirectEgressRules(c)) && ChainUnderstood(net, dns);
    assert ChainUnderstood(net, DNS_BLOCK_RULES) && ChainUnderstood(net, LanRules(c)) && ChainUnderstood(net, [Rule([], Reject)]);
    assert ChainUnderstood(net, FamilyTolerated(c, v6));
    hide ChainUnderstood, FamilyEndpointRules, DirectEgressRules, FamilyTolerated;
    UnderstoodConcat(net, head, DirectEgressRules(c));
    UnderstoodConcat(net, head + DirectEgressRules(c), FamilyEndpointRules(c, c.endpoints, v6));
    UnderstoodConcat(net, head + DirectEgressRules(c) + FamilyEndpointRules(c, c.endpoints, v6), dns);
    UnderstoodConcat(net, FamilyAllowed(c, v6), DNS_BLOCK_RULES);
    UnderstoodConcat(net, FamilyAllowed(c, v6) + DNS_BLOCK_RULES, FamilyTolerated(c, v6));
    UnderstoodConcat(net, FamilyAllowed(c, v6) + DNS_BLOCK_RULES + FamilyTolerated(c, v6), [Rule([], Reject)]);
  }

  /**
   * The emitted token lists, read by the tool, decide every packet of the family: it is
   * accepted exactly when it is exempt, goes through the tunnel, or is ordinary and not
   * DNS, and rejected otherwise.
   */
  lemma EmittedTokensEnforce(net: NetworkText, c: Config, p: Packet)
    requires ReadsNetworks(net, c) && LanIsV4(c)
    ensures ReadChain(net, RenderAll(FamilyChain(c, p.dst.V6?)), p) ==
            Decides(if Exempt(c, p) || ThroughTunnel(c, p, IptablesOutput) || (!IsDns(p) && Ordinary(c, p)) then Accept else Reject)
  {
    hide ReadChain, Exempt, Ordinary, IsDns, ThroughTunnel, LanIsV4, ReadsNetworks;
    FamilyUnderstood(net, c, p.dst.V6?);
    ChainReads(net, FamilyChain(c, p.dst.V6?), p);
    FamilyChainPasses(c, p);
    FamilyDecides(c, p.dst.V6?, p);
  }

  /** Nothing is left undecided, and nothing is dropped silently. */
  lemma FamilyDecides(c: Config, v6: bool, p: Packet)
    requires p.dst.V6? == v6
    ensures var d := Decide(FamilyChain(c, v6), p, IptablesOutput); d == Some(Accept) || d == Some(Reject)
  {
    var allowed, tolerated := FamilyAllowed(c, v6), FamilyTolerated(c, v6);
    FamilyAllowedMatch(c, p);
    LanMatch(c, p, IptablesOutput);
    DnsMatch(p, IptablesOutput);
    assert Uniform(tolerated, Accept);
    DecideUniform(allowed, Accept, p, IptablesOutput);
    DecideUniform(DNS_BLOCK_RULES, Reject, p, IptablesOutput);
    DecideUniform(tolerated, Accept, p, IptablesOutput);
    TerminalDecides(p, IptablesOutput);
    hide Decide, Matched, Uniform, FamilyAllowed, FamilyTolerated;
    DecideConcat(allowed + DNS_BLOCK_RULES + tolerated, [Rule([], Reject)], p, IptablesOutput);
    DecideConcat(allowed + DNS_BLOCK_RULES, tolerated, p, IptablesOutput);
    DecideConcat(allowed, DNS_BLOCK_RULES, p, IptablesOutput);
  }

  /** The inspector expects exactly these tokens, unless the tunnel is named "-j". */
  lemma ExpectedTokensEnforce(net: NetworkText, c: Config, p: Packet)
    requires ReadsNetworks(net, c) && LanIsV4(c) && c.tunnel != "-j"
    ensures ReadChain(net, Expected(c, p.dst.V6?), p) ==
            Decides(if Exempt(c, p) || ThroughTunnel(c, p, IptablesOutput) || (!IsDns(p) && Ordinary(c, p)) then Accept else Reject)
  {
    hide ReadChain, Exempt, Ordinary, IsDns, ThroughTunnel, LanIsV4, ReadsNetworks, Expected, RenderAll, FamilyChain;
    ExpectedIsEmitted(c, p.dst.V6?);
    EmittedTokensEnforce(net, c, p);
  }
}
