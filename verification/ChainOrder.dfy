/**
 * When the rules of an iptables chain may be rearranged: exactly as long as every
 * accepting rule stays on its side of every rejecting one it shares a packet with.
 */
module ChainOrder {
  import opened Common
  import opened PacketFilter
  import opened KillSwitchRules

  const LAST := Rule([], Reject)

  /** The first `b` has an `a` in front of it. */
  predicate Leads(rules: seq<Rule>, a: Rule, b: Rule) {
    forall l :: 0 <= l < |rules| && rules[l] == b ==> a in rules[..l]
  }

  ghost predicate SameRules(x: seq<Rule>, y: seq<Rule>) {
    forall r :: r in x <==> r in y
  }

  /** An allowing rule that names a port meets only the block of that port. */
  predicate MayShare(a: Rule, d: Rule) {
    forall i :: 0 <= i < |a.conditions| && a.conditions[i].DestinationPort? ==> d.conditions == [a.conditions[i]]
  }

  /**
   * Allowing rules come before the DNS blocks they share packets with, those before the
   * tolerating rules, and the unconditional reject comes last.
   */
  ghost predicate Ordered(c: Config, v6: bool, rules: seq<Rule>) {
    && (forall a, d :: a in FamilyAllowed(c, v6) && d in DNS_BLOCK_RULES && MayShare(a, d) ==> Leads(rules, a, d))
    && (forall d, t :: d in DNS_BLOCK_RULES && t in FamilyTolerated(c, v6) ==> Leads(rules, d, t))
    && (forall a :: a in FamilyAllowed(c, v6) ==> Leads(rules, a, LAST))
    && (forall t :: t in FamilyTolerated(c, v6) ==> Leads(rules, t, LAST))
  }

  // ---------------------------------------------------------------------
  // First matches
  // ---------------------------------------------------------------------

  predicate Hits(r: Rule, p: Packet) {
    AllHold(r.conditions, p, IptablesOutput)
  }

  /** Rule `m` decides the packet. */
  predicate First(rules: seq<Rule>, p: Packet, m: nat) {
    m < |rules| && Hits(rules[m], p) && forall i :: 0 <= i < m ==> !Hits(rules[i], p)
  }

  lemma {:induction false} FirstDecides(rules: seq<Rule>, p: Packet, m: nat)
    requires First(rules, p, m)
    ensures Decide(rules, p, IptablesOutput) == Some(rules[m].verdict)
  {
    if m > 0 {
      assert !Hits(rules[0], p);
      assert First(rules[1..], p, m - 1) by {
        assert forall i :: 0 <= i < m - 1 ==> rules[1..][i] == rules[i + 1];
      }
      FirstDecides(rules[1..], p, m - 1);
    } else {
      assert Hits(rules[0], p);
    }
  }

  lemma {:induction false} FirstExists(rules: seq<Rule>, p: Packet, l: nat) returns (m: nat)
    requires l < |rules| && Hits(rules[l], p)
    ensures First(rules, p, m) && m <= l
  {
    if i :| 0 <= i < l && Hits(rules[i], p) {
      m := FirstExists(rules, p, i);
    } else {
      m := l;
    }
  }

  /** The deciding rule is not led by another rule that matches. */
  lemma NotLed(rules: seq<Rule>, p: Packet, m: nat, a: Rule)
    requires First(rules, p, m) && Hits(a, p)
    ensures !Leads(rules, a, rules[m])
  {
    assert forall i :: 0 <= i < m ==> rules[..m][i] == rules[i];
    assert a !in rules[..m];
  }

  lemma LastHits(p: Packet)
    ensures Hits(LAST, p)
  {
  }

  // ---------------------------------------------------------------------
  // The emitted chain
  // ---------------------------------------------------------------------

  lemma Verdicts(c: Config, v6: bool)
    ensures Uniform(FamilyAllowed(c, v6), Accept) && Uniform(DNS_BLOCK_RULES, Reject) && Uniform(FamilyTolerated(c, v6), Accept)
  {
    var p := Packet(if v6 then V6(0) else V4(0), "", "", Tcp, 0, 0, 0, false);
    FamilyAllowedMatch(c, p);
    DnsMatch(p, IptablesOutput);
    LanMatch(c, p, IptablesOutput);
  }

  lemma MatchedIn(rules: seq<Rule>, p: Packet)
    ensures Matched(rules, p, IptablesOutput) <==> exists r :: r in rules && Hits(r, p)
  {
    if Matched(rules, p, IptablesOutput) {
      var i :| 0 <= i < |rules| && AllHold(rules[i].conditions, p, IptablesOutput);
      assert rules[i] in rules && Hits(rules[i], p);
    }
    if r :| r in rules && Hits(r, p) {
      var i :| 0 <= i < |rules| && rules[i] == r;
    }
  }

  ghost predicate Hit(rules: seq<Rule>, p: Packet) {
    exists r :: r in rules && Hits(r, p)
  }

  /** What the emitted chain decides, block by block. */
  lemma ChainDecides(c: Config, v6: bool, p: Packet)
    ensures Decide(FamilyChain(c, v6), p, IptablesOutput) ==
            Some(if Hit(FamilyAllowed(c, v6), p) || (!Hit(DNS_BLOCK_RULES, p) && Hit(FamilyTolerated(c, v6), p)) then Accept else Reject)
  {
    BlocksDecide(FamilyAllowed(c, v6), DNS_BLOCK_RULES, FamilyTolerated(c, v6), c, v6, p);
  }

  /** Any rearrangement inside the blocks. */
  lemma BlocksDecide(allowed: seq<Rule>, blocks: seq<Rule>, tolerated: seq<Rule>, c: Config, v6: bool, p: Packet)
    requires SameRules(allowed, FamilyAllowed(c, v6)) && SameRules(blocks, DNS_BLOCK_RULES) && SameRules(tolerated, FamilyTolerated(c, v6))
    ensures Decide(allowed + blocks + tolerated + [LAST], p, IptablesOutput) ==
            Some(if Hit(FamilyAllowed(c, v6), p) || (!Hit(DNS_BLOCK_RULES, p) && Hit(FamilyTolerated(c, v6), p)) then Accept else Reject)
  {
    Verdicts(c, v6);
    SameUniform(allowed, FamilyAllowed(c, v6), Accept);
    SameUniform(blocks, DNS_BLOCK_RULES, Reject);
    SameUniform(tolerated, FamilyTolerated(c, v6), Accept);
    hide FamilyAllowed, FamilyTolerated, Hits;
    MatchedIn(allowed, p);
    MatchedIn(blocks, p);
    MatchedIn(tolerated, p);
    DecideUniform(allowed, Accept, p, IptablesOutput);
    DecideUniform(blocks, Reject, p, IptablesOutput);
    DecideUniform(tolerated, Accept, p, IptablesOutput);
    TerminalDecides(p, IptablesOutput);
    hide Decide, Matched, Uniform;
    DecideConcat(allowed + blocks + tolerated, [LAST], p, IptablesOutput);
    DecideConcat(allowed + blocks, tolerated, p, IptablesOutput);
    DecideConcat(allowed, blocks, p, IptablesOutput);
  }

  lemma SameUniform(x: seq<Rule>, y: seq<Rule>, v: Verdict)
    requires SameRules(x, y) && Uniform(y, v)
    ensures Uniform(x, v)
  {
    forall i | 0 <= i < |x| ensures x[i].verdict == v {
      assert x[i] in y;
      var j :| 0 <= j < |y| && y[j] == x[i];
    }
  }

  lemma ChainMembers(c: Config, v6: bool, r: Rule)
    ensures r in FamilyChain(c, v6) <==> r in FamilyAllowed(c, v6) || r in DNS_BLOCK_RULES || r in FamilyTolerated(c, v6) || r == LAST
    ensures r in FamilyAllowed(c, v6) || r in FamilyTolerated(c, v6) ==> r.verdict == Accept
    ensures r in DNS_BLOCK_RULES || r == LAST ==> r.verdict == Reject
  {
    Verdicts(c, v6);
    hide FamilyAllowed, FamilyTolerated;
    assert FamilyChain(c, v6) == FamilyAllowed(c, v6) + DNS_BLOCK_RULES + FamilyTolerated(c, v6) + [LAST];
  }

  /** Rules inside the blocks may be rearranged freely. */
  lemma BlocksPermuted(c: Config, v6: bool, allowed: seq<Rule>, blocks: seq<Rule>, tolerated: seq<Rule>, p: Packet)
    requires multiset(allowed) == multiset(FamilyAllowed(c, v6)) && multiset(blocks) == multiset(DNS_BLOCK_RULES)
    requires multiset(tolerated) == multiset(FamilyTolerated(c, v6))
    ensures Decide(allowed + blocks + tolerated + [LAST], p, IptablesOutput) == Decide(FamilyChain(c, v6), p, IptablesOutput)
  {
    hide FamilyAllowed, FamilyTolerated, FamilyChain, Decide;
    PermutedSame(allowed, FamilyAllowed(c, v6));
    PermutedSame(blocks, DNS_BLOCK_RULES);
    PermutedSame(tolerated, FamilyTolerated(c, v6));
    BlocksDecide(allowed, blocks, tolerated, c, v6, p);
    ChainDecides(c, v6, p);
  }

  lemma PermutedSame(x: seq<Rule>, y: seq<Rule>)
    requires multiset(x) == multiset(y)
    ensures SameRules(x, y)
  {
    forall r ensures r in x <==> r in y {
      assert r in x <==> r in multiset(x);
      assert r in y <==> r in multiset(y);
    }
  }

  // ---------------------------------------------------------------------
  // The condition is enough
  // ---------------------------------------------------------------------

  /** A packet that matches both an allowing rule and a block: the two may share packets. */
  lemma BothHit(a: Rule, d: Rule, p: Packet)
    requires d in DNS_BLOCK_RULES && Hits(a, p) && Hits(d, p)
    ensures MayShare(a, d)
  {
    assert d.conditions[0].DestinationPort? && |d.conditions| == 1;
    assert Holds(d.conditions[0], p, IptablesOutput);
    forall i | 0 <= i < |a.conditions| && a.conditions[i].DestinationPort? ensures d.conditions == [a.conditions[i]] {
      assert Holds(a.conditions[i], p, IptablesOutput);
    }
  }

  /** Whatever the configuration, an ordered list of the emitted rules decides every packet as they do. */
  lemma OrderedDecides(c: Config, v6: bool, rules: seq<Rule>, p: Packet)
    requires SameRules(rules, FamilyChain(c, v6)) && Ordered(c, v6, rules)
    ensures Decide(rules, p, IptablesOutput) == Decide(FamilyChain(c, v6), p, IptablesOutput)
  {
    hide FamilyChain, FamilyAllowed, FamilyTolerated, Decide, Leads, Hits, MayShare;
    ChainDecides(c, v6, p);
    ChainMembers(c, v6, LAST);
    var l :| 0 <= l < |rules| && rules[l] == LAST;
    LastHits(p);
    var m := FirstExists(rules, p, l);
    FirstDecides(rules, p, m);
    var r := rules[m];
    ChainMembers(c, v6, r);
    assert Hits(r, p);
    if Hit(FamilyAllowed(c, v6), p) {
      var a :| a in FamilyAllowed(c, v6) && Hits(a, p);
      ChainMembers(c, v6, a);
      NotLed(rules, p, m, a);
      if r in DNS_BLOCK_RULES {
        BothHit(a, r, p);
      }
    } else if Hit(DNS_BLOCK_RULES, p) {
      var d :| d in DNS_BLOCK_RULES && Hits(d, p);
      NotLed(rules, p, m, d);
    } else if Hit(FamilyTolerated(c, v6), p) {
      var t :| t in FamilyTolerated(c, v6) && Hits(t, p);
      NotLed(rules, p, m, t);
    }
  }

  // ---------------------------------------------------------------------
  // The condition is needed
  // ---------------------------------------------------------------------

  /** A packet of the family with an address of its width. */
  predicate Real(p: Packet, v6: bool) {
    p.dst.V6? == v6 && p.dst.bits <= if v6 then EVERY_V6.last else 0xFFFF_FFFF
  }

  predicate InLan(c: Config, v6: bool, a: Address) {
    !v6 && c.allowLan && exists i :: 0 <= i < |c.lan| && Covers(c.lan[i], a)
  }

  function Own(v6: bool): Network {
    if v6 then LOOPBACK_V6 else LOOPBACK_V4
  }

  /** 127.0.0.1 or ::1. */
  function Local(v6: bool): Address {
    if v6 then V6(1) else V4(0x7F00_0001)
  }

  /** Neither local, nor the resolver, nor an endpoint. */
  ghost predicate Foreign(c: Config, v6: bool, a: Address) {
    && Real(Plainly(a), v6) && !Covers(Own(v6), a) && !Covers(RESOLVER, a) && !Listed(c, c.endpoints, a)
  }

  function Plainly(a: Address): Packet {
    Packet(a, "", "", Tcp, 443, 0, 0, false)
  }

  /** The address lies in this network and in no other of the list. */
  ghost predicate OnlyIn(c: Config, n: Network, a: Address) {
    Covers(n, a) && forall i :: 0 <= i < |c.lan| && Covers(c.lan[i], a) ==> c.lan[i] == n
  }

  /**
   * No two rules say the same: the tunnel has a name of its own, the endpoints are
   * neither local nor in the LAN, every LAN network has an address of its own, and
   * `free` is an address no rule names.
   */
  ghost predicate Independent(c: Config, v6: bool, free: Address) {
    && c.tunnel != "lo" && (c.tunnel != "" ==> c.tunnel[|c.tunnel| - 1] != '+')
    && Foreign(c, v6, free) && !InLan(c, v6, free)
    && !InLan(c, v6, Local(v6)) && !Listed(c, c.endpoints, V4(RESOLVER.first))
    && (forall a: Address :: Listed(c, c.endpoints, a) && a.V6? == v6 ==> Real(Plainly(a), v6) && !Covers(Own(v6), a) && !InLan(c, v6, a))
    && (!v6 && c.allowLan ==> forall i :: 0 <= i < |c.lan| ==> exists a :: Foreign(c, v6, a) && OnlyIn(c, c.lan[i], a))
  }

  /** An interface that is neither loopback nor the tunnel. */
  function Elsewhere(c: Config): string {
    c.tunnel + "0"
  }

  lemma ElsewhereApart(c: Config)
    requires c.tunnel != "" ==> c.tunnel[|c.tunnel| - 1] != '+'
    ensures !NamesInterface("lo", Elsewhere(c), IptablesOutput) && !NamesInterface(c.tunnel, Elsewhere(c), IptablesOutput)
  {
    assert Elsewhere(c)[|c.tunnel|] == '0';
    assert "lo"[1] == 'o';
    assert |Elsewhere(c)| == |c.tunnel| + 1;
  }

  /** The kinds of allowing rules. */
  ghost predicate Allowing(c: Config, v6: bool, r: Rule) {
    || r == Allow(Oif("lo")) || r == Allow(Destination(Own(v6))) || r == Allow(Oif(c.tunnel))
    || (c.uid.Some? && r == Rule([Owner(c.uid.value), Mark(OUTBOUND_MARK)], Accept))
    || (exists a: Address :: Listed(c, c.endpoints, a) && a.V6? == v6 && r == Allow(Destination(Host(c, a))))
    || (!v6 && (r == INTERNAL_DNS_RULES[0] || r == INTERNAL_DNS_RULES[1]))
  }

  lemma {:induction false} EndpointKinds(c: Config, v6: bool, endpoints: seq<string>, r: Rule)
    ensures r in FamilyEndpointRules(c, endpoints, v6) ==>
              exists a: Address :: Listed(c, endpoints, a) && a.V6? == v6 && r == Allow(Destination(Host(c, a)))
  {
    if endpoints != [] && r in FamilyEndpointRules(c, endpoints, v6) {
      var init, last := endpoints[..|endpoints| - 1], c.text.parse(endpoints[|endpoints| - 1]);
      EndpointKinds(c, v6, init, r);
      if r in FamilyEndpointRules(c, init, v6) {
        var a: Address :| Listed(c, init, a) && a.V6? == v6 && r == Allow(Destination(Host(c, a)));
        ListedSnoc(c, endpoints, a);
      } else {
        ListedSnoc(c, endpoints, last.value);
      }
    }
  }

  lemma AllowedKinds(c: Config, v6: bool, r: Rule)
    requires r in FamilyAllowed(c, v6)
    ensures Allowing(c, v6, r)
  {
    EndpointKinds(c, v6, c.endpoints, r);
    hide FamilyEndpointRules;
  }

  lemma ToleratedKinds(c: Config, v6: bool, r: Rule)
    requires r in FamilyTolerated(c, v6)
    ensures r == Allow(Established) || (!v6 && c.allowLan && exists i :: 0 <= i < |c.lan| && r == Allow(Destination(c.lan[i])))
  {
  }

  lemma SingleHits(condition: Condition, v: Verdict, p: Packet)
    ensures Hits(Rule([condition], v), p) <==> Holds(condition, p, IptablesOutput)
  {
    One(condition, p, IptablesOutput);
  }

  lemma PairHits(x: Condition, y: Condition, v: Verdict, p: Packet)
    ensures Hits(Rule([x, y], v), p) <==> Holds(x, p, IptablesOutput) && Holds(y, p, IptablesOutput)
  {
    Both(x, y, p, IptablesOutput);
  }

  /** What it takes for an allowing rule to match. */
  lemma AllowedHits(c: Config, v6: bool, r: Rule, p: Packet)
    requires r in FamilyAllowed(c, v6) && Hits(r, p) && p.dst.V6? == v6
    ensures || (r == Allow(Oif("lo")) && p.oif == "lo")
            || (r == Allow(Destination(Own(v6))) && Covers(Own(v6), p.dst))
            || (r == Allow(Oif(c.tunnel)) && NamesInterface(c.tunnel, p.oif, IptablesOutput))
            || (c.uid.Some? && r == Rule([Owner(c.uid.value), Mark(OUTBOUND_MARK)], Accept) && p.mark == OUTBOUND_MARK)
            || (r == Allow(Destination(Host(c, p.dst))) && Listed(c, c.endpoints, p.dst))
            || (!v6 && r == INTERNAL_DNS_RULES[0] && Covers(RESOLVER, p.dst) && p.protocol.Udp?)
            || (!v6 && r == INTERNAL_DNS_RULES[1] && Covers(RESOLVER, p.dst) && p.protocol.Tcp?)
  {
    AllowedKinds(c, v6, r);
    hide FamilyAllowed, Hits, Listed, Covers;
    SingleHits(Oif("lo"), Accept, p);
    SingleHits(Destination(Own(v6)), Accept, p);
    SingleHits(Oif(c.tunnel), Accept, p);
    if c.uid.Some? {
      PairHits(Owner(c.uid.value), Mark(OUTBOUND_MARK), Accept, p);
    }
    PairHits(Destination(RESOLVER), DestinationPort(Udp, 53), Accept, p);
    PairHits(Destination(RESOLVER), DestinationPort(Tcp, 53), Accept, p);
    if a: Address :| Listed(c, c.endpoints, a) && a.V6? == v6 && r == Allow(Destination(Host(c, a))) {
      SingleHits(Destination(Host(c, a)), Accept, p);
      HostCovers(c, a, p.dst);
    }
  }

  lemma HostCovers(c: Config, a: Address, b: Address)
    ensures Covers(Host(c, a), b) <==> a == b
  {
  }

  lemma ToleratedHits(c: Config, v6: bool, r: Rule, p: Packet)
    requires r in FamilyTolerated(c, v6) && Hits(r, p)
    ensures (r == Allow(Established) && p.established) || InLan(c, v6, p.dst)
    ensures r != Allow(Established) ==> exists i :: 0 <= i < |c.lan| && r == Allow(Destination(c.lan[i])) && Covers(c.lan[i], p.dst)
  {
    ToleratedKinds(c, v6, r);
    SingleHits(Established, Accept, p);
    if i :| 0 <= i < |c.lan| && r == Allow(Destination(c.lan[i])) {
      SingleHits(Destination(c.lan[i]), Accept, p);
    }
  }

  function Probe(dst: Address, oif: string, uid: nat, mark: nat, protocol: Protocol, port: nat, established: bool): Packet {
    Packet(dst, oif, oif, protocol, port, uid, mark, established)
  }

  /** Among the accepting rules only this tolerating one matches. */
  lemma ToleratedProbe(c: Config, v6: bool, free: Address, t: Rule, protocol: Protocol, port: nat) returns (p: Packet)
    requires Independent(c, v6, free) && t in FamilyTolerated(c, v6)
    ensures Real(p, v6) && p.protocol == protocol && p.dport == port && Hits(t, p)
    ensures forall r :: r in FamilyAllowed(c, v6) ==> !Hits(r, p)
    ensures forall r :: r in FamilyTolerated(c, v6) && Hits(r, p) ==> r == t
  {
    ToleratedKinds(c, v6, t);
    ElsewhereApart(c);
    hide FamilyAllowed, FamilyTolerated, Hits;
    if t == Allow(Established) {
      p := Probe(free, Elsewhere(c), 0, 0, protocol, port, true);
      SingleHits(Established, Accept, p);
    } else {
      var i :| 0 <= i < |c.lan| && t == Allow(Destination(c.lan[i]));
      var a :| Foreign(c, v6, a) && OnlyIn(c, c.lan[i], a);
      p := Probe(a, Elsewhere(c), 0, 0, protocol, port, false);
      SingleHits(Destination(c.lan[i]), Accept, p);
    }
    forall r | r in FamilyAllowed(c, v6) ensures !Hits(r, p) {
      if Hits(r, p) {
        AllowedHits(c, v6, r, p);
        assert false;
      }
    }
    forall r | r in FamilyTolerated(c, v6) && Hits(r, p) ensures r == t {
      ToleratedHits(c, v6, r, p);
    }
  }

  predicate ForResolver(v6: bool, a: Rule) {
    !v6 && (a == INTERNAL_DNS_RULES[0] || a == INTERNAL_DNS_RULES[1])
  }

  lemma ToleratedQuiet(c: Config, v6: bool, p: Packet)
    requires !p.established && !InLan(c, v6, p.dst)
    ensures forall r :: r in FamilyTolerated(c, v6) ==> !Hits(r, p)
  {
    hide FamilyTolerated, Hits, InLan;
    forall r | r in FamilyTolerated(c, v6) && Hits(r, p) ensures false {
      ToleratedHits(c, v6, r, p);
    }
  }

  /** Only one allowing rule matches a packet to a free address: the one for its interface or its sender. */
  lemma FreeProbe(c: Config, v6: bool, free: Address, a: Rule, protocol: Protocol, port: nat) returns (p: Packet)
    requires Independent(c, v6, free)
    requires || a == Allow(Oif("lo")) || a == Allow(Oif(c.tunnel))
             || (c.uid.Some? && a == Rule([Owner(c.uid.value), Mark(OUTBOUND_MARK)], Accept))
    ensures Real(p, v6) && p.protocol == protocol && p.dport == port && !p.established && p.dst == free && Hits(a, p)
    ensures forall r :: r in FamilyAllowed(c, v6) && Hits(r, p) ==> r == a
  {
    ElsewhereApart(c);
    hide FamilyAllowed, Hits, Listed, InLan;
    if a == Allow(Oif("lo")) {
      p := Probe(free, "lo", 0, 0, protocol, port, false);
      SingleHits(Oif("lo"), Accept, p);
    } else if a == Allow(Oif(c.tunnel)) {
      p := Probe(free, c.tunnel, 0, 0, protocol, port, false);
      SingleHits(Oif(c.tunnel), Accept, p);
    } else {
      p := Probe(free, Elsewhere(c), c.uid.value, OUTBOUND_MARK, protocol, port, false);
      PairHits(Owner(c.uid.value), Mark(OUTBOUND_MARK), Accept, p);
    }
    forall r | r in FamilyAllowed(c, v6) && Hits(r, p) ensures r == a {
      AllowedHits(c, v6, r, p);
    }
  }

  /** The same for a rule that names an address. */
  lemma AddressProbe(c: Config, v6: bool, free: Address, h: Address, a: Rule, protocol: Protocol, port: nat) returns (p: Packet)
    requires Independent(c, v6, free)
    requires || (h == Local(v6) && a == Allow(Destination(Own(v6))))
             || (Listed(c, c.endpoints, h) && h.V6? == v6 && a == Allow(Destination(Host(c, h))))
    ensures Real(p, v6) && p.protocol == protocol && p.dport == port && !p.established && p.dst == h && Hits(a, p)
    ensures forall r :: r in FamilyAllowed(c, v6) && Hits(r, p) ==> r == a
  {
    ElsewhereApart(c);
    hide FamilyAllowed, Hits, Listed, InLan;
    p := Probe(h, Elsewhere(c), 0, 0, protocol, port, false);
    SingleHits(Destination(if h == Local(v6) && a == Allow(Destination(Own(v6))) then Own(v6) else Host(c, h)), Accept, p);
    forall r | r in FamilyAllowed(c, v6) && Hits(r, p) ensures r == a {
      AllowedHits(c, v6, r, p);
    }
  }

  /** Among the accepting rules only this allowing one matches. */
  lemma AllowedProbe(c: Config, v6: bool, free: Address, a: Rule, protocol: Protocol, port: nat) returns (p: Packet)
    requires Independent(c, v6, free) && a in FamilyAllowed(c, v6) && !ForResolver(v6, a)
    ensures Real(p, v6) && p.protocol == protocol && p.dport == port && Hits(a, p)
    ensures forall r :: r in FamilyAllowed(c, v6) && Hits(r, p) ==> r == a
    ensures forall r :: r in FamilyTolerated(c, v6) ==> !Hits(r, p)
  {
    AllowedKinds(c, v6, a);
    assert !InLan(c, v6, free) && !InLan(c, v6, Local(v6));
    assert forall h: Address :: Listed(c, c.endpoints, h) && h.V6? == v6 ==> !InLan(c, v6, h);
    hide FamilyAllowed, FamilyTolerated, Hits, Independent, InLan, Listed, Real;
    if a == Allow(Oif("lo")) || a == Allow(Oif(c.tunnel)) || (c.uid.Some? && a == Rule([Owner(c.uid.value), Mark(OUTBOUND_MARK)], Accept)) {
      p := FreeProbe(c, v6, free, a, protocol, port);
    } else if a == Allow(Destination(Own(v6))) {
      p := AddressProbe(c, v6, free, Local(v6), a, protocol, port);
    } else {
      var h: Address :| Listed(c, c.endpoints, h) && h.V6? == v6 && a == Allow(Destination(Host(c, h)));
      p := AddressProbe(c, v6, free, h, a, protocol, port);
    }
    ToleratedQuiet(c, v6, p);
  }

  lemma ResolverProbe(c: Config, free: Address, a: Rule) returns (p: Packet)
    requires Independent(c, false, free) && a in FamilyAllowed(c, false) && ForResolver(false, a)
    ensures Real(p, false) && p.dport == 53 && p.protocol == (if a == INTERNAL_DNS_RULES[0] then Udp else Tcp) && Hits(a, p)
    ensures forall r :: r in FamilyAllowed(c, false) && Hits(r, p) ==> r == a
    ensures !p.established
  {
    ElsewhereApart(c);
    hide FamilyAllowed, Hits;
    p := Probe(V4(RESOLVER.first), Elsewhere(c), 0, 0, if a == INTERNAL_DNS_RULES[0] then Udp else Tcp, 53, false);
    PairHits(Destination(RESOLVER), DestinationPort(Udp, 53), Accept, p);
    PairHits(Destination(RESOLVER), DestinationPort(Tcp, 53), Accept, p);
    forall r | r in FamilyAllowed(c, false) && Hits(r, p) ensures r == a {
      AllowedHits(c, false, r, p);
    }
  }

  /** If `a` is the only rule of its verdict that can decide the packet, and it does, it leads `b`. */
  lemma MustLead(rules: seq<Rule>, a: Rule, b: Rule, p: Packet)
    requires Hits(b, p) && a.verdict != b.verdict
    requires Decide(rules, p, IptablesOutput) == Some(a.verdict)
    requires forall r :: r in rules && Hits(r, p) && r.verdict == a.verdict && r != a ==>
               exists d :: Hits(d, p) && Leads(rules, d, r)
    ensures Leads(rules, a, b)
  {
    hide Hits, Decide;
    forall l | 0 <= l < |rules| && rules[l] == b ensures a in rules[..l] {
      var m := FirstExists(rules, p, l);
      FirstDecides(rules, p, m);
      assert rules[m] in rules;
      if rules[m] != a {
        var d :| Hits(d, p) && Leads(rules, d, rules[m]);
        NotLed(rules, p, m, d);
        assert false;
      }
      assert rules[..l][m] == a;
    }
  }

  /** The list decides every real packet of the family as the emitted chain does. */
  ghost predicate SameDecisions(c: Config, v6: bool, rules: seq<Rule>) {
    forall p :: Real(p, v6) ==> Decide(rules, p, IptablesOutput) == Decide(FamilyChain(c, v6), p, IptablesOutput)
  }

  /** Which DNS blocks match a packet. */
  lemma BlockHits(d: Rule, p: Packet)
    requires d in DNS_BLOCK_RULES
    ensures var port := d.conditions[0]; Hits(d, p) <==> p.protocol == port.transport && p.dport == port.port
    ensures d.conditions[0].DestinationPort? && d.conditions == [d.conditions[0]] && d == Rule([d.conditions[0]], Reject)
  {
    assert d == Rule([d.conditions[0]], Reject);
    SingleHits(d.conditions[0], Reject, p);
  }

  lemma NotDns(p: Packet)
    requires p.dport == 443
    ensures forall d :: d in DNS_BLOCK_RULES ==> !Hits(d, p)
  {
    hide Hits;
    forall d | d in DNS_BLOCK_RULES ensures !Hits(d, p) {
      BlockHits(d, p);
    }
  }

  lemma TolerateBeforeLast(c: Config, v6: bool, free: Address, rules: seq<Rule>, t: Rule)
    requires Independent(c, v6, free) && SameRules(rules, FamilyChain(c, v6)) && SameDecisions(c, v6, rules)
    requires t in FamilyTolerated(c, v6)
    ensures Leads(rules, t, LAST)
  {
    hide Independent, FamilyAllowed, FamilyTolerated, FamilyChain, Hits, Decide, Leads, Real;
    var p := ToleratedProbe(c, v6, free, t, Tcp, 443);
    NotDns(p);
    LastHits(p);
    ChainDecides(c, v6, p);
    ChainMembers(c, v6, t);
    forall r | r in rules && Hits(r, p) && r.verdict == t.verdict ensures r == t {
      ChainMembers(c, v6, r);
    }
    MustLead(rules, t, LAST, p);
  }

  lemma BlockBeforeTolerate(c: Config, v6: bool, free: Address, rules: seq<Rule>, d: Rule, t: Rule)
    requires Independent(c, v6, free) && SameRules(rules, FamilyChain(c, v6)) && SameDecisions(c, v6, rules)
    requires d in DNS_BLOCK_RULES && t in FamilyTolerated(c, v6)
    ensures Leads(rules, d, t)
  {
    hide Independent, FamilyAllowed, FamilyTolerated, FamilyChain, Hits, Decide, Leads, Real;
    TolerateBeforeLast(c, v6, free, rules, t);
    var port := d.conditions[0];
    BlockHits(d, Plainly(free));
    var p := ToleratedProbe(c, v6, free, t, port.transport, port.port);
    BlockHits(d, p);
    ChainDecides(c, v6, p);
    ChainMembers(c, v6, t);
    ChainMembers(c, v6, d);
    forall r | r in rules && Hits(r, p) && r.verdict == d.verdict && r != d
      ensures exists q :: Hits(q, p) && Leads(rules, q, r)
    {
      ChainMembers(c, v6, r);
      if r in DNS_BLOCK_RULES {
        BlockHits(r, p);
        assert false;
      }
    }
    MustLead(rules, d, t, p);
  }

  /** Where an allowing rule has to be, the two for the resolver aside. */
  lemma AllowBeforeReject(c: Config, v6: bool, free: Address, rules: seq<Rule>, a: Rule, b: Rule)
    requires Independent(c, v6, free) && SameRules(rules, FamilyChain(c, v6)) && SameDecisions(c, v6, rules)
    requires a in FamilyAllowed(c, v6) && !ForResolver(v6, a) && (b == LAST || b in DNS_BLOCK_RULES)
    ensures Leads(rules, a, b)
  {
    hide Independent, FamilyAllowed, FamilyTolerated, FamilyChain, Hits, Decide, Leads, Real, ForResolver;
    if b in DNS_BLOCK_RULES {
      BlockHits(b, Plainly(free));
    }
    var protocol, port := if b == LAST then Tcp else b.conditions[0].transport, if b == LAST then 443 else b.conditions[0].port;
    var p := AllowedProbe(c, v6, free, a, protocol, port);
    LastHits(p);
    if b in DNS_BLOCK_RULES {
      BlockHits(b, p);
    }
    ChainDecides(c, v6, p);
    ChainMembers(c, v6, a);
    ChainMembers(c, v6, b);
    forall r | r in rules && Hits(r, p) && r.verdict == a.verdict ensures r == a {
      ChainMembers(c, v6, r);
    }
    MustLead(rules, a, b, p);
  }

  /** The resolver may lie in the LAN; the block of its port keeps the LAN rules behind. */
  lemma ResolverBeforeReject(c: Config, free: Address, rules: seq<Rule>, a: Rule, b: Rule)
    requires Independent(c, false, free) && SameRules(rules, FamilyChain(c, false)) && SameDecisions(c, false, rules)
    requires a in FamilyAllowed(c, false) && ForResolver(false, a) && (b == LAST || (b in DNS_BLOCK_RULES && MayShare(a, b)))
    ensures Leads(rules, a, b)
  {
    var block := if a == INTERNAL_DNS_RULES[0] then DNS_BLOCK_RULES[0] else DNS_BLOCK_RULES[2];
    assert a.conditions[1].DestinationPort? && block.conditions == [a.conditions[1]];
    assert b != LAST ==> b == block by {
      if b != LAST {
        BlockHits(b, Plainly(free));
      }
    }
    hide Independent, FamilyAllowed, FamilyTolerated, FamilyChain, Hits, Decide, Leads, Real, ForResolver, MayShare;
    var p := ResolverProbe(c, free, a);
    LastHits(p);
    BlockHits(block, p);
    ChainDecides(c, false, p);
    ChainMembers(c, false, a);
    ChainMembers(c, false, b);
    forall r | r in rules && Hits(r, p) && r.verdict == a.verdict && r != a
      ensures exists q :: Hits(q, p) && Leads(rules, q, r)
    {
      ChainMembers(c, false, r);
      BlockBeforeTolerate(c, false, free, rules, block, r);
    }
    MustLead(rules, a, b, p);
  }

  /**
   * The exact condition: for a configuration whose rules are independent, a list of
   * the emitted rules decides every packet as the emitted chain exactly when it is ordered.
   */
  lemma OrderIsExact(c: Config, v6: bool, free: Address, rules: seq<Rule>)
    requires Independent(c, v6, free) && SameRules(rules, FamilyChain(c, v6))
    ensures SameDecisions(c, v6, rules) <==> Ordered(c, v6, rules)
  {
    hide Independent, FamilyAllowed, FamilyTolerated, FamilyChain, Decide, Leads, MayShare, Real;
    if Ordered(c, v6, rules) {
      forall p | Real(p, v6) ensures Decide(rules, p, IptablesOutput) == Decide(FamilyChain(c, v6), p, IptablesOutput) {
        OrderedDecides(c, v6, rules, p);
      }
    }
    if SameDecisions(c, v6, rules) {
      forall a, b | a in FamilyAllowed(c, v6) && (b == LAST || (b in DNS_BLOCK_RULES && MayShare(a, b))) ensures Leads(rules, a, b) {
        if ForResolver(v6, a) {
          ResolverBeforeReject(c, free, rules, a, b);
        } else {
          AllowBeforeReject(c, v6, free, rules, a, b);
        }
      }
      forall d, t | d in DNS_BLOCK_RULES && t in FamilyTolerated(c, v6) ensures Leads(rules, d, t) {
        BlockBeforeTolerate(c, v6, free, rules, d, t);
      }
      forall t | t in FamilyTolerated(c, v6) ensures Leads(rules, t, LAST) {
        TolerateBeforeLast(c, v6, free, rules, t);
      }
    }
  }

  /** The default configuration, with any direct user and any switches, is independent. */
  lemma DefaultIndependent(c: Config, v6: bool)
    requires c.tunnel == "wdvpn-tun0" && c.endpoints == [] && c.lan == DEFAULT_LAN
    ensures Independent(c, v6, if v6 then V6(2) else V4(0x0808_0808))
  {
    assert "wdvpn-tun0"[0] == 'w' && "lo"[0] == 'l' && "wdvpn-tun0"[9] == '0';
    assert c.tunnel[0] == 'w';
    if !v6 {
      forall i | 0 <= i < |c.lan| ensures exists a :: Foreign(c, v6, a) && OnlyIn(c, c.lan[i], a) {
        assert Foreign(c, v6, V4(c.lan[i].first)) && OnlyIn(c, c.lan[i], V4(c.lan[i].first));
      }
    }
  }

  /** Where one rule covers the others, order is not needed: the tunnel is named by a wildcard for every interface. */
  lemma RedundantRuleMoves(c: Config, v6: bool)
    requires c.tunnel == "+"
    ensures var rules := [Allow(Oif("+")), LAST] + FamilyChain(c, v6);
            SameRules(rules, FamilyChain(c, v6)) && SameDecisions(c, v6, rules) && !Ordered(c, v6, rules)
  {
    var tunnel, lo := Allow(Oif("+")), Allow(Oif("lo"));
    assert tunnel in FamilyAllowed(c, v6) && lo in FamilyAllowed(c, v6) && lo != tunnel by {
      assert FamilyAllowed(c, v6)[2] == tunnel && FamilyAllowed(c, v6)[0] == lo && |"lo"| != |"+"|;
    }
    hide FamilyAllowed, FamilyTolerated, FamilyChain;
    var rules := [tunnel, LAST] + FamilyChain(c, v6);
    ChainMembers(c, v6, tunnel);
    ChainMembers(c, v6, LAST);
    assert rules[1] == LAST && rules[..1] == [tunnel];
    assert !Leads(rules, lo, LAST);
    forall p | Real(p, v6) ensures Decide(rules, p, IptablesOutput) == Decide(FamilyChain(c, v6), p, IptablesOutput) {
      SingleHits(Oif("+"), Accept, p);
      assert First(rules, p, 0);
      FirstDecides(rules, p, 0);
      ChainDecides(c, v6, p);
    }
  }
}
