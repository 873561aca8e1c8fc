/**
 * The iptables rules as tokens: what is emitted, what the inspector expects,
 * and how it matches what the tool lists.
 */
module FirewallInspection {
  import opened Common
  import opened PacketFilter
  import opened KillSwitchRules
  import opened TokenMatching

  const COMMENT: Tokens := ["-m", "comment", "--comment", "WatchdogVPN kill switch"]

  // ---------------------------------------------------------------------
  // Rules as tokens
  // ---------------------------------------------------------------------

  function ProtocolText(p: Protocol): string {
    match p
    case Tcp => "tcp" case Udp => "udp" case Icmp => "icmp" case Icmp6 => "ipv6-icmp" case OtherProtocol => "all"
  }

  function ConditionTokens(c: Condition): Tokens {
    match c
    case Oif(name) => ["-o", name]
    case Destination(network) => ["-d", network.text]
    case Owner(uid) => ["-m", "owner", "--uid-owner", Decimal(uid)]
    case Mark(mark) => ["-m", "mark", "--mark", if mark == OUTBOUND_MARK then "0x2024" else "0x2023"]
    case Protocol(protocol) => ["-p", ProtocolText(protocol)]
    case DestinationPort(transport, port) => ["-p", ProtocolText(transport), "--dport", Decimal(port)]
    case Established => ["-m", "conntrack", "--ctstate", "ESTABLISHED,RELATED"]
  }

  function ConditionsTokens(cs: seq<Condition>): Tokens {
    if cs == [] then [] else ConditionTokens(cs[0]) + ConditionsTokens(cs[1..])
  }

  function VerdictText(v: Verdict): string {
    match v case Accept => "ACCEPT" case Drop => "DROP" case Reject => "REJECT"
  }

  /** A rule as appended to its chain: conditions, comment, verdict. */
  function Render(r: Rule): Tokens {
    ConditionsTokens(r.conditions) + COMMENT + ["-j", VerdictText(r.verdict)]
  }

  function RenderAll(rules: seq<Rule>): seq<Tokens> {
    seq(|rules|, i requires 0 <= i < |rules| => Render(rules[i]))
  }

  // ---------------------------------------------------------------------
  // What the inspector expects
  // ---------------------------------------------------------------------

  function IndexOf(tokens: Tokens, t: string): (k: nat)
    requires t in tokens
    ensures k < |tokens| && tokens[k] == t && t !in tokens[..k]
  {
    if tokens[0] == t then 0 else 1 + IndexOf(tokens[1..], t)
  }

  /** The comment goes in front of the first "-j". */
  function RuleCommand(tokens: Tokens): Tokens
    requires "-j" in tokens
  {
    var k := IndexOf(tokens, "-j");
    tokens[..k] + COMMENT + tokens[k..]
  }

  /** The command builder on the tokens of some conditions and a verdict. */
  function Command(cs: seq<Condition>, v: Verdict): Tokens {
    var tokens := ConditionsTokens(cs) + ["-j", VerdictText(v)];
    assert tokens[|ConditionsTokens(cs)|] == "-j";
    RuleCommand(tokens)
  }

  function ExpectedHead(c: Config, v6: bool): seq<Tokens> {
    [Command([Oif("lo")], Accept),
     Command([Destination(if v6 then LOOPBACK_V6 else LOOPBACK_V4)], Accept),
     Command([Oif(c.tunnel)], Accept)]
  }

  function ExpectedTail(c: Config, v6: bool): seq<Tokens> {
    (if c.uid.None? then [] else [Command([Owner(c.uid.value), Mark(OUTBOUND_MARK)], Accept)])
    + RenderAll(FamilyEndpointRules(c, c.endpoints, v6))
    + (if v6 then [] else RenderAll(INTERNAL_DNS_RULES))
    + RenderAll(DNS_BLOCK_RULES)
    + [Command([Established], Accept)]
    + (if !v6 && c.allowLan then RenderAll(LanRules(c)) else [])
    + [Command([], Reject)]
  }

  function Expected(c: Config, v6: bool): seq<Tokens> {
    ExpectedHead(c, v6) + ExpectedTail(c, v6)
  }

  lemma {:induction false} FirstIndex(tokens: Tokens, t: string, k: nat)
    requires k < |tokens| && tokens[k] == t && t !in tokens[..k]
    ensures IndexOf(tokens, t) == k
  {
    if k > 0 {
      assert tokens[0] == tokens[..k][0];
      assert tokens[1..][..k - 1] == tokens[..k][1..];
      FirstIndex(tokens[1..], t, k - 1);
    }
  }

  /** With no earlier "-j" the comment lands where the emitted rule has it. */
  lemma CommandIsRule(cs: seq<Condition>, v: Verdict)
    requires "-j" !in ConditionsTokens(cs)
    ensures Command(cs, v) == Render(Rule(cs, v))
  {
    var front := ConditionsTokens(cs);
    var tokens := front + ["-j", VerdictText(v)];
    assert tokens[|front|] == "-j" && tokens[..|front|] == front && tokens[|front|..] == ["-j", VerdictText(v)];
    FirstIndex(tokens, "-j", |front|);
  }

  /** A token that is not "-j": another length or another second letter. */
  predicate Other(t: string) {
    |t| != 2 || t[1] != 'j'
  }

  lemma AllOther(tokens: Tokens)
    requires forall i :: 0 <= i < |tokens| ==> Other(tokens[i])
    ensures "-j" !in tokens
  {
  }

  lemma DecimalOther(n: nat)
    ensures Other(Decimal(n))
    ensures Decimal(n) != "" && Decimal(n)[|Decimal(n)| - 1] in "0123456789"
  {
  }

  lemma OneCondition(c: Condition)
    ensures ConditionsTokens([c]) == ConditionTokens(c)
  {
    assert [c][1..] == [];
  }

  lemma UidCommand(uid: nat)
    ensures Command([Owner(uid), Mark(OUTBOUND_MARK)], Accept) == Render(Rule([Owner(uid), Mark(OUTBOUND_MARK)], Accept))
  {
    var cs := [Owner(uid), Mark(OUTBOUND_MARK)];
    assert cs[1..] == [Mark(OUTBOUND_MARK)];
    OneCondition(Mark(OUTBOUND_MARK));
    DecimalOther(uid);
    AllOther(ConditionsTokens(cs));
    CommandIsRule(cs, Accept);
  }

  lemma PlainCommand(c: Condition)
    requires c == Oif("lo") || c == Destination(LOOPBACK_V4) || c == Destination(LOOPBACK_V6) || c == Established
    ensures Command([c], Accept) == Render(Allow(c))
  {
    OneCondition(c);
    AllOther(ConditionTokens(c));
    CommandIsRule([c], Accept);
  }

  /** The tunnel rule comes out the same unless the interface is itself named "-j". */
  lemma TunnelCommand(c: Config)
    ensures Command([Oif(c.tunnel)], Accept) == Render(Allow(Oif(c.tunnel))) <==> c.tunnel != "-j"
  {
    OneCondition(Oif(c.tunnel));
    if c.tunnel != "-j" {
      assert Other("-o");
      CommandIsRule([Oif(c.tunnel)], Accept);
    } else {
      var tokens := ["-o", "-j"] + ["-j", "ACCEPT"];
      assert tokens[..1] == ["-o"] && Other("-o");
      FirstIndex(tokens, "-j", 1);
      assert Command([Oif(c.tunnel)], Accept)[1] == "-m";
      assert Render(Allow(Oif(c.tunnel)))[1] == "-j";
      assert Other("-m");
    }
  }

  lemma RenderConcat(a: seq<Rule>, b: seq<Rule>)
    ensures RenderAll(a + b) == RenderAll(a) + RenderAll(b)
  {
  }

  function HeadRules(c: Config, v6: bool): seq<Rule> {
    [Allow(Oif("lo")), Allow(Destination(if v6 then LOOPBACK_V6 else LOOPBACK_V4)), Allow(Oif(c.tunnel))]
  }

  function TailRules(c: Config, v6: bool): seq<Rule> {
    DirectEgressRules(c)
    + FamilyEndpointRules(c, c.endpoints, v6)
    + (if v6 then [] else INTERNAL_DNS_RULES)
    + DNS_BLOCK_RULES
    + [Allow(Established)]
    + (if !v6 && c.allowLan then LanRules(c) else [])
    + [Rule([], Reject)]
  }

  lemma ChainSplit(c: Config, v6: bool)
    ensures FamilyChain(c, v6) == HeadRules(c, v6) + TailRules(c, v6)
  {
    hide FamilyEndpointRules, DirectEgressRules, LanRules;
  }

  lemma RenderSingle(r: Rule)
    ensures RenderAll([r]) == [Render(r)]
  {
  }

  lemma TailRendered(c: Config, v6: bool)
    ensures RenderAll(TailRules(c, v6)) == ExpectedTail(c, v6)
  {
    var direct, endpoints := DirectEgressRules(c), FamilyEndpointRules(c, c.endpoints, v6);
    var dns, lan := if v6 then [] else INTERNAL_DNS_RULES, if !v6 && c.allowLan then LanRules(c) else [];
    assert RenderAll(direct) == if c.uid.None? then [] else [Command([Owner(c.uid.value), Mark(OUTBOUND_MARK)], Accept)] by {
      if c.uid.Some? {
        UidCommand(c.uid.value);
      }
    }
    PlainCommand(Established);
    CommandIsRule([], Reject);
    RenderSingle(Allow(Established));
    RenderSingle(Rule([], Reject));
    hide Render, Command, FamilyEndpointRules, LanRules, DirectEgressRules;
    RenderConcat(direct, endpoints);
    RenderConcat(direct + endpoints, dns);
    RenderConcat(direct + endpoints + dns, DNS_BLOCK_RULES);
    RenderConcat(direct + endpoints + dns + DNS_BLOCK_RULES, [Allow(Established)]);
    RenderConcat(direct + endpoints + dns + DNS_BLOCK_RULES + [Allow(Established)], lan);
    RenderConcat(direct + endpoints + dns + DNS_BLOCK_RULES + [Allow(Established)] + lan, [Rule([], Reject)]);
    assert RenderAll(dns) == if v6 then [] else RenderAll(INTERNAL_DNS_RULES);
    assert RenderAll(lan) == if !v6 && c.allowLan then RenderAll(LanRules(c)) else [];
    hide RenderAll;
  }

  lemma HeadRendered(c: Config, v6: bool)
    ensures |RenderAll(HeadRules(c, v6))| == |ExpectedHead(c, v6)|
    ensures ExpectedHead(c, v6) == RenderAll(HeadRules(c, v6)) <==> c.tunnel != "-j"
  {
    hide Render, Command;
    PlainCommand(Oif("lo"));
    PlainCommand(Destination(if v6 then LOOPBACK_V6 else LOOPBACK_V4));
    TunnelCommand(c);
    assert RenderAll(HeadRules(c, v6))[2] == Render(Allow(Oif(c.tunnel)));
    assert ExpectedHead(c, v6)[2] == Command([Oif(c.tunnel)], Accept);
  }

  lemma SameHead<T>(a: seq<T>, b: seq<T>, tail: seq<T>)
    requires |a| == |b|
    ensures a + tail == b + tail <==> a == b
  {
    if a + tail == b + tail {
      assert a == (a + tail)[..|a|];
      assert b == (b + tail)[..|a|];
    }
  }

  /**
   * The expected list is the emitted rules, in order, for every configuration
   * whose tunnel interface is not named "-j".
   */
  lemma ExpectedIsEmitted(c: Config, v6: bool)
    ensures Expected(c, v6) == RenderAll(FamilyChain(c, v6)) <==> c.tunnel != "-j"
  {
    hide Render, Command, TailRules, HeadRules, ExpectedTail, ExpectedHead, FamilyChain, RenderAll;
    ChainSplit(c, v6);
    TailRendered(c, v6);
    HeadRendered(c, v6);
    RenderConcat(HeadRules(c, v6), TailRules(c, v6));
    SameHead(ExpectedHead(c, v6), RenderAll(HeadRules(c, v6)), ExpectedTail(c, v6));
  }

  // ---------------------------------------------------------------------
  // Inspection
  // ---------------------------------------------------------------------

  predicate StartsWithComment(tokens: Tokens) {
    |tokens| >= 2 && tokens[0] == "-m" && tokens[1] == "comment"
  }

  /** The unconditional rule must start the listed one; any other must occur in it. */
  ghost predicate Matches(r: Reading, actual: Tokens, expected: Tokens) {
    var wanted := Canonical(r, expected);
    if StartsWithComment(wanted) then wanted <= actual else Subsequence(wanted, actual)
  }

  method RuleMatchesExpected(r: Reading, actual: Tokens, expected: Tokens) returns (ok: bool)
    requires Lawful(r)
    ensures ok <==> Matches(r, actual, expected)
  {
    var wanted := CanonicalizeTokens(r, expected);
    if StartsWithComment(wanted) {
      return wanted <= actual;
    }
    CanonicalTwice(r, expected);
    ok := RuleContains(r, actual, wanted);
  }

  const TERMINAL: Tokens := COMMENT + ["-j", "REJECT"]

  ghost predicate MatchedBySome(r: Reading, actual: seq<Tokens>, expected: Tokens) {
    exists j :: 0 <= j < |actual| && Matches(r, actual[j], expected)
  }

  predicate HasTerminal(actual: seq<Tokens>) {
    exists j :: 0 <= j < |actual| && TERMINAL <= actual[j]
  }

  ghost predicate Consistent(r: Reading, actual: seq<Tokens>, expected: seq<Tokens>, hasChain: bool, hasJump: bool) {
    && hasChain && hasJump && HasTerminal(actual) && |actual| == |expected|
    && forall i :: 0 <= i < |expected| ==> MatchedBySome(r, actual, expected[i])
  }

  method AnyMatch(r: Reading, actual: seq<Tokens>, expected: Tokens) returns (found: bool)
    requires Lawful(r)
    ensures found <==> MatchedBySome(r, actual, expected)
  {
    hide Matches;
    for j := 0 to |actual|
      invariant forall k :: 0 <= k < j ==> !Matches(r, actual[k], expected)
    {
      var ok := RuleMatchesExpected(r, actual[j], expected);
      if ok {
        return true;
      }
    }
    found := false;
  }

  /** `lines` are the tokens listed for each rule of the chain. */
  method InspectFamily(r: Reading, c: Config, v6: bool, lines: seq<Tokens>, hasChain: bool, hasJump: bool)
    returns (present: bool, consistent: bool, missing: seq<nat>)
    requires Lawful(r)
    ensures present <==> hasChain || hasJump
    ensures var actual := if hasChain then CanonicalAll(r, lines) else [];
            && (consistent <==> Consistent(r, actual, Expected(c, v6), hasChain, hasJump))
            && (consistent <==> hasChain && hasJump && HasTerminal(actual) && |lines| == |Expected(c, v6)| && missing == [])
            && (present ==> forall i :: i in missing <==> 0 <= i < |Expected(c, v6)| && !MatchedBySome(r, actual, Expected(c, v6)[i]))
  {
    hide MatchedBySome, Expected, HasTerminal, Canonical;
    present, consistent, missing := hasChain || hasJump, false, [];
    if !present {
      return;
    }
    var actual: seq<Tokens> := [];
    if hasChain {
      actual := CanonicalLines(r, lines);
    }
    var expected := Expected(c, v6);
    for i := 0 to |expected|
      invariant forall k :: k in missing <==> 0 <= k < i && !MatchedBySome(r, actual, expected[k])
    {
      var found := AnyMatch(r, actual, expected[i]);
      if !found {
        missing := missing + [i];
      }
    }
    assert missing == [] <==> forall i :: 0 <= i < |expected| ==> MatchedBySome(r, actual, expected[i]) by {
      if missing != [] {
        assert missing[0] in missing;
      }
    }
    consistent := hasChain && hasJump && HasTerminal(actual) && |actual| == |expected| && missing == [];
  }

  method CanonicalLines(r: Reading, lines: seq<Tokens>) returns (rules: seq<Tokens>)
    requires Lawful(r)
    ensures rules == CanonicalAll(r, lines)
  {
    hide Canonical;
    rules := [];
    for i := 0 to |lines|
      invariant |rules| == i && forall k :: 0 <= k < i ==> rules[k] == Canonical(r, lines[k])
    {
      var rule := CanonicalizeTokens(r, lines[i]);
      rules := rules + [rule];
    }
  }

  // ---------------------------------------------------------------------
  // The inspector accepts its own rules as the tool lists them
  // ---------------------------------------------------------------------

  /**
   * How the tool may list a rule: in another spelling of its addresses and marks,
   * a conditional rule with extra tokens inserted, the last one with some appended.
   */
  ghost predicate ListedAs(r: Reading, rule: Tokens, line: Tokens, last: bool) {
    if last then exists base, extra :: Canonical(r, base) == Canonical(r, rule) && line == Appended(base, extra)
    else exists base, insertions :: Canonical(r, base) == Canonical(r, rule) && Padded(base, insertions, line)
  }

  function Appended(base: Tokens, extra: Tokens): Tokens {
    base + extra
  }

  predicate Conditional(rules: seq<Rule>) {
    forall i :: 0 <= i < |rules| ==> rules[i].conditions != []
  }

  lemma {:induction false} EndpointsConditional(c: Config, endpoints: seq<string>, v6: bool)
    ensures Conditional(FamilyEndpointRules(c, endpoints, v6))
  {
    if endpoints != [] {
      EndpointsConditional(c, endpoints[..|endpoints| - 1], v6);
    }
  }

  lemma ChainShape(c: Config, v6: bool)
    ensures var chain := FamilyChain(c, v6);
            chain != [] && chain[|chain| - 1] == Rule([], Reject) && Conditional(chain[..|chain| - 1])
  {
    EndpointsConditional(c, c.endpoints, v6);
    assert Conditional(DirectEgressRules(c)) && Conditional(LanRules(c)) && Conditional(INTERNAL_DNS_RULES);
    hide FamilyEndpointRules, DirectEgressRules, LanRules;
    assert Conditional(FamilyAllowed(c, v6)) && Conditional(DNS_BLOCK_RULES) && Conditional(FamilyTolerated(c, v6));
    var init := FamilyAllowed(c, v6) + DNS_BLOCK_RULES + FamilyTolerated(c, v6);
    assert FamilyChain(c, v6) == init + [Rule([], Reject)];
    assert FamilyChain(c, v6)[..|init|] == init;
  }

  /** A rule with conditions does not start like the unconditional one. */
  lemma NotUnconditional(r: Reading, rule: Rule)
    requires rule.conditions != []
    ensures !StartsWithComment(Canonical(r, Render(rule)))
  {
    var first := ConditionTokens(rule.conditions[0]);
    var tokens := Render(rule);
    assert |first| >= 2 && tokens[0] == first[0] && tokens[1] == first[1];
    assert "comment"[0] == 'c' && "comment"[2] == 'm';
    if first[0] == "-m" {
      assert !IsFlag("-m") by {
        assert "-m"[1] == 'm';
      }
      NotAfterFlag(r, tokens[0], tokens[1]);
      assert first[1] == "owner" || first[1] == "mark" || first[1] == "conntrack";
      assert "conntrack"[2] == 'n';
    }
  }

  lemma TerminalCanonical(r: Reading)
    ensures Render(Rule([], Reject)) == TERMINAL && Canonical(r, TERMINAL) == TERMINAL && StartsWithComment(TERMINAL)
  {
    assert !IsFlag("-m") && !IsFlag("comment") && !IsFlag("--comment") && !IsFlag("WatchdogVPN kill switch") && !IsFlag("-j") by {
      assert "-m"[1] == 'm' && "-j"[1] == 'j' && "-d"[1] == 'd';
    }
    assert TERMINAL[..] == ["-m", "comment", "--comment", "WatchdogVPN kill switch", "-j", "REJECT"];
  }

  lemma LastAccepted(r: Reading, line: Tokens)
    requires Lawful(r) && ListedAs(r, Render(Rule([], Reject)), line, true)
    ensures TERMINAL <= Canonical(r, line) && Matches(r, Canonical(r, line), Render(Rule([], Reject)))
  {
    TerminalCanonical(r);
    var base, extra :| Canonical(r, base) == TERMINAL && line == Appended(base, extra);
    assert !EndsInFlag(base) by {
      var n := |base| - 1;
      assert |Canonical(r, base)| == |base| == 6;
      CanonicalKeepsFlags(r, base[n - 1], base[n]);
      assert Canonical(r, base)[n] == "REJECT" && !IsFlag("REJECT");
    }
    CanonicalConcat(r, base, extra);
  }

  lemma OtherAccepted(r: Reading, rule: Rule, line: Tokens)
    requires Lawful(r) && rule.conditions != [] && ListedAs(r, Render(rule), line, false)
    ensures Matches(r, Canonical(r, line), Render(rule))
  {
    hide Canonical, Render, StartsWithComment, Embeds, Subsequence;
    NotUnconditional(r, rule);
    var base, insertions :| Canonical(r, base) == Canonical(r, Render(rule)) && Padded(base, insertions, line);
    PaddingEmbeds(r, base, insertions, line);
    GreedyIsComplete(Canonical(r, base), Canonical(r, line));
  }

  lemma RuleAccepted(r: Reading, c: Config, v6: bool, line: Tokens, i: nat)
    requires Lawful(r) && i < |FamilyChain(c, v6)|
    requires ListedAs(r, Render(FamilyChain(c, v6)[i]), line, i == |FamilyChain(c, v6)| - 1)
    ensures Matches(r, Canonical(r, line), Render(FamilyChain(c, v6)[i]))
    ensures i == |FamilyChain(c, v6)| - 1 ==> TERMINAL <= Canonical(r, line)
  {
    hide FamilyChain, Render, Canonical, Matches, ListedAs, Lawful;
    var chain := FamilyChain(c, v6);
    ChainShape(c, v6);
    if i == |chain| - 1 {
      LastAccepted(r, line);
    } else {
      assert chain[..|chain| - 1][i] == chain[i];
      OtherAccepted(r, chain[i], line);
    }
  }

  function CanonicalAll(r: Reading, lines: seq<Tokens>): seq<Tokens> {
    seq(|lines|, i requires 0 <= i < |lines| => Canonical(r, lines[i]))
  }

  /** However the tool pads and respells the emitted rules, the inspector finds them consistent. */
  lemma InspectorAccepts(r: Reading, c: Config, v6: bool, lines: seq<Tokens>)
    requires Lawful(r) && c.tunnel != "-j" && |lines| == |FamilyChain(c, v6)|
    requires forall i :: 0 <= i < |lines| ==> ListedAs(r, Render(FamilyChain(c, v6)[i]), lines[i], i == |lines| - 1)
    ensures Consistent(r, CanonicalAll(r, lines), Expected(c, v6), true, true)
  {
    hide FamilyChain, Render, Canonical, Matches, ListedAs, Lawful, Expected;
    var actual, expected := CanonicalAll(r, lines), Expected(c, v6);
    ExpectedIsEmitted(c, v6);
    forall i | 0 <= i < |lines| ensures MatchedBySome(r, actual, expected[i]) {
      RuleAccepted(r, c, v6, lines[i], i);
      assert Matches(r, actual[i], expected[i]);
    }
    ChainShape(c, v6);
    RuleAccepted(r, c, v6, lines[|lines| - 1], |lines| - 1);
    assert TERMINAL <= actual[|lines| - 1];
  }

  // ---------------------------------------------------------------------
  // What the verdict does not say
  // ---------------------------------------------------------------------

  /** The verdict does not depend on the order of the listed rules. */
  lemma OrderIgnored(r: Reading, a: seq<Tokens>, b: seq<Tokens>, expected: seq<Tokens>, hasChain: bool, hasJump: bool)
    requires multiset(a) == multiset(b) && Consistent(r, a, expected, hasChain, hasJump)
    ensures Consistent(r, b, expected, hasChain, hasJump)
  {
    hide Matches;
    assert |a| == |multiset(a)| && |b| == |multiset(b)|;
    forall i | 0 <= i < |expected| ensures MatchedBySome(r, b, expected[i]) {
      var j :| 0 <= j < |a| && Matches(r, a[j], expected[i]);
      assert a[j] in multiset(b);
    }
    var j :| 0 <= j < |a| && TERMINAL <= a[j];
    assert a[j] in multiset(b);
  }

  /** The family's rules with the final reject moved to the front. */
  function RejectFirst(c: Config, v6: bool): seq<Rule> {
    [Rule([], Reject)] + FamilyChain(c, v6)[..|FamilyChain(c, v6)| - 1]
  }

  lemma EmittedAccepted(r: Reading, c: Config, v6: bool)
    requires Lawful(r) && c.tunnel != "-j"
    ensures Consistent(r, CanonicalAll(r, RenderAll(FamilyChain(c, v6))), Expected(c, v6), true, true)
  {
    var lines := RenderAll(FamilyChain(c, v6));
    forall i | 0 <= i < |lines| ensures ListedAs(r, Render(FamilyChain(c, v6)[i]), lines[i], i == |lines| - 1) {
      hide FamilyChain, Render, Canonical;
      assert Padded(lines[i], [], lines[i]);
      assert Appended(lines[i], []) == lines[i];
    }
    hide FamilyChain, Render, Canonical, ListedAs;
    InspectorAccepts(r, c, v6, lines);
  }

  lemma RenderedPermutation(r: Reading, init: seq<Rule>, last: Rule)
    ensures multiset(CanonicalAll(r, RenderAll(init + [last]))) == multiset(CanonicalAll(r, RenderAll([last] + init)))
  {
    hide Render, Canonical;
    var x := CanonicalAll(r, RenderAll(init));
    var y := Canonical(r, Render(last));
    assert CanonicalAll(r, RenderAll(init + [last])) == x + [y];
    assert CanonicalAll(r, RenderAll([last] + init)) == [y] + x;
  }

  /** A chain that rejects every packet at its first rule is found consistent. */
  lemma ReorderedChainAccepted(r: Reading, c: Config, v6: bool)
    requires Lawful(r) && c.tunnel != "-j"
    ensures Consistent(r, CanonicalAll(r, RenderAll(RejectFirst(c, v6))), Expected(c, v6), true, true)
    ensures forall p :: Decide(RejectFirst(c, v6), p, IptablesOutput) == Some(Reject)
  {
    ChainShape(c, v6);
    EmittedAccepted(r, c, v6);
    hide FamilyChain, Render, Canonical, Expected, Consistent;
    var chain := FamilyChain(c, v6);
    var init := chain[..|chain| - 1];
    assert chain == init + [Rule([], Reject)];
    RenderedPermutation(r, init, Rule([], Reject));
    OrderIgnored(r, CanonicalAll(r, RenderAll(chain)), CanonicalAll(r, RenderAll(RejectFirst(c, v6))), Expected(c, v6), true, true);
  }
}
