/** Outgoing packets and ordered firewall chains with first-match semantics. */
module PacketFilter {
  import opened Common

  datatype Address = V4(bits: nat) | V6(bits: nat)

  datatype Protocol = Tcp | Udp | Icmp | Icmp6 | OtherProtocol

  /**
   * A packet at the output hook. `oif` is the interface its route names there,
   * `finalOif` the one it names at postrouting; they may differ.
   */
  datatype Packet = Packet(
    dst: Address, oif: string, finalOif: string, protocol: Protocol, dport: nat,
    uid: nat, mark: nat, established: bool)

  /** A network as written and as the interval of addresses it covers. */
  datatype Network = Network(v6: bool, text: string, first: nat, last: nat)

  predicate Covers(n: Network, a: Address) {
    n.v6 == a.V6? && n.first <= a.bits <= n.last
  }

  datatype Condition =
    | Oif(name: string)
    | Destination(network: Network)
    | Owner(uid: nat)
    | Mark(mark: nat)
    | Protocol(protocol: Protocol)
    | DestinationPort(transport: Protocol, port: nat)
    | Established

  datatype Verdict = Accept | Drop | Reject

  datatype Rule = Rule(conditions: seq<Condition>, verdict: Verdict)

  /** Where a chain is hooked: nftables output or postrouting, or the iptables OUTPUT chain. */
  datatype Hook = Output | Postrouting | IptablesOutput

  /**
   * Interface names are matched exactly, except that a trailing "*" is a wildcard
   * for nftables and a trailing "+" one for iptables.
   */
  predicate NamesInterface(name: string, interface: string, hook: Hook) {
    if name != "" && name[|name| - 1] == (if hook.IptablesOutput? then '+' else '*')
    then name[..|name| - 1] <= interface
    else name == interface
  }

  predicate Holds(c: Condition, p: Packet, hook: Hook) {
    match c
    case Oif(name) => NamesInterface(name, if hook.Postrouting? then p.finalOif else p.oif, hook)
    case Destination(n) => Covers(n, p.dst)
    case Owner(uid) => p.uid == uid
    case Mark(mark) => p.mark == mark
    case Protocol(protocol) => p.protocol == protocol
    case DestinationPort(transport, port) => p.protocol == transport && p.dport == port
    case Established => p.established
  }

  predicate AllHold(cs: seq<Condition>, p: Packet, hook: Hook) {
    forall i :: 0 <= i < |cs| ==> Holds(cs[i], p, hook)
  }

  /** The verdict of the first rule that matches, if one does. */
  function Decide(rules: seq<Rule>, p: Packet, hook: Hook): Option<Verdict> {
    if rules == [] then None
    else if AllHold(rules[0].conditions, p, hook) then Some(rules[0].verdict)
    else Decide(rules[1..], p, hook)
  }

  function Filter(rules: seq<Rule>, policy: Verdict, p: Packet, hook: Hook): Verdict {
    match Decide(rules, p, hook) case Some(v) => v case None => policy
  }

  ghost predicate Matched(rules: seq<Rule>, p: Packet, hook: Hook) {
    exists i :: 0 <= i < |rules| && AllHold(rules[i].conditions, p, hook)
  }

  predicate Uniform(rules: seq<Rule>, v: Verdict) {
    forall i :: 0 <= i < |rules| ==> rules[i].verdict == v
  }

  lemma {:induction false} DecideConcat(a: seq<Rule>, b: seq<Rule>, p: Packet, hook: Hook)
    ensures Decide(a + b, p, hook) == if Decide(a, p, hook).Some? then Decide(a, p, hook) else Decide(b, p, hook)
  {
    if a == [] {
      assert a + b == b;
    } else {
      assert (a + b)[1..] == a[1..] + b;
      DecideConcat(a[1..], b, p, hook);
    }
  }

  /** Rules that share a verdict decide exactly the packets one of them matches. */
  lemma {:induction false} DecideUniform(rules: seq<Rule>, v: Verdict, p: Packet, hook: Hook)
    requires Uniform(rules, v)
    ensures Decide(rules, p, hook) == if Matched(rules, p, hook) then Some(v) else None
  {
    if rules != [] {
      DecideUniform(rules[1..], v, p, hook);
      if AllHold(rules[0].conditions, p, hook) {
        assert Matched(rules, p, hook);
      } else if Matched(rules, p, hook) {
        var i :| 0 <= i < |rules| && AllHold(rules[i].conditions, p, hook);
        assert rules[1..][i - 1] == rules[i];
        assert Matched(rules[1..], p, hook);
      }
    }
  }

  lemma MatchedConcat(a: seq<Rule>, b: seq<Rule>, p: Packet, hook: Hook)
    ensures Matched(a + b, p, hook) <==> Matched(a, p, hook) || Matched(b, p, hook)
  {
    var s := a + b;
    if Matched(a, p, hook) {
      var i :| 0 <= i < |a| && AllHold(a[i].conditions, p, hook);
      assert s[i] == a[i];
    }
    if Matched(b, p, hook) {
      var i :| 0 <= i < |b| && AllHold(b[i].conditions, p, hook);
      assert s[|a| + i] == b[i];
    }
  }

  lemma One(c: Condition, p: Packet, hook: Hook)
    ensures AllHold([c], p, hook) <==> Holds(c, p, hook)
  {
    assert [c][0] == c;
  }

  lemma Both(c: Condition, d: Condition, p: Packet, hook: Hook)
    ensures AllHold([c, d], p, hook) <==> Holds(c, p, hook) && Holds(d, p, hook)
  {
    assert [c, d][0] == c && [c, d][1] == d;
  }
}
