/**
 * Installing the nftables policy: command by command, or as one batch. The
 * kernel's table is followed through every intermediate state.
 */
module KillSwitchTable {
  import opened Common
  import opened PacketFilter
  import opened KillSwitchRules

  /** The managed table: each chain is absent or a list of rules. */
  datatype Table = Table(output: Option<seq<Rule>>, guard: Option<seq<Rule>>)

  datatype Command =
    | DeleteTable
    | AddTable
    | AddOutputChain
    | AddGuardChain
    | AddGuardRule(rule: Rule)
    | AddOutputRule(rule: Rule)

  /** A missing table or chain stops nothing. */
  predicate Passes(table: Option<Table>, p: Packet) {
    table.Some? ==>
      && (table.value.output.Some? ==> Filter(table.value.output.value, Drop, p, Output) == Accept)
      && (table.value.guard.Some? ==> Filter(table.value.guard.value, Accept, p, Postrouting) == Accept)
  }

  function Extended(chain: Option<seq<Rule>>, r: Rule): Option<seq<Rule>> {
    if chain.None? then None else Some(chain.value + [r])
  }

  /** The effect of a command that the kernel accepts. */
  function Execute(table: Option<Table>, command: Command): Option<Table> {
    match command
    case DeleteTable => None
    case AddTable => if table.None? then Some(Table(None, None)) else table
    case AddOutputChain =>
      if table.None? || table.value.output.Some? then table else Some(Table(Some([]), table.value.guard))
    case AddGuardChain =>
      if table.None? || table.value.guard.Some? then table else Some(Table(table.value.output, Some([])))
    case AddGuardRule(r) => if table.None? then None else Some(Table(table.value.output, Extended(table.value.guard, r)))
    case AddOutputRule(r) => if table.None? then None else Some(Table(Extended(table.value.output, r), table.value.guard))
  }

  function ExecuteAll(table: Option<Table>, commands: seq<Command>): Option<Table> {
    if commands == [] then table
    else Execute(ExecuteAll(table, commands[..|commands| - 1]), commands[|commands| - 1])
  }

  function GuardCommands(rules: seq<Rule>): seq<Command> {
    seq(|rules|, i requires 0 <= i < |rules| => AddGuardRule(rules[i]))
  }

  function OutputCommands(rules: seq<Rule>): seq<Command> {
    seq(|rules|, i requires 0 <= i < |rules| => AddOutputRule(rules[i]))
  }

  function EnableCommands(c: Config): seq<Command> {
    [AddTable, AddOutputChain, AddGuardChain] + GuardCommands(GuardChain(c)) + OutputCommands(OutputChain(c))
  }

  function Installed(c: Config): Table {
    Table(Some(OutputChain(c)), Some(GuardChain(c)))
  }

  /** What has been installed after the first `k` commands on an empty kernel. */
  function Partial(c: Config, k: nat): Option<Table>
    requires k <= |EnableCommands(c)|
  {
    var g := |GuardChain(c)|;
    if k == 0 then None
    else if k == 1 then Some(Table(None, None))
    else if k == 2 then Some(Table(Some([]), None))
    else if k <= 3 + g then Some(Table(Some([]), Some(GuardChain(c)[..k - 3])))
    else Some(Table(Some(OutputChain(c)[..k - 3 - g]), Some(GuardChain(c))))
  }

  lemma {:induction false} PartialStates(c: Config, k: nat)
    requires k <= |EnableCommands(c)|
    ensures ExecuteAll(None, EnableCommands(c)[..k]) == Partial(c, k)
  {
    hide OutputChain, GuardChain;
    var commands, g := EnableCommands(c), |GuardChain(c)|;
    if k > 0 {
      PartialStates(c, k - 1);
      assert commands[..k][..k - 1] == commands[..k - 1];
      assert ExecuteAll(None, commands[..k]) == Execute(Partial(c, k - 1), commands[k - 1]);
      if 3 < k <= 3 + g {
        assert commands[k - 1] == AddGuardRule(GuardChain(c)[k - 4]);
        assert GuardChain(c)[..k - 4] + [GuardChain(c)[k - 4]] == GuardChain(c)[..k - 3];
      } else if k > 3 + g {
        assert commands[k - 1] == AddOutputRule(OutputChain(c)[k - 4 - g]);
        assert OutputChain(c)[..k - 4 - g] + [OutputChain(c)[k - 4 - g]] == OutputChain(c)[..k - 3 - g];
        assert GuardChain(c)[..g] == GuardChain(c);
      }
    }
  }

  /** A prefix of a chain that drops by default accepts nothing the whole chain stops. */
  lemma PrefixIsStricter(rules: seq<Rule>, k: nat, p: Packet)
    requires k <= |rules| && Filter(rules[..k], Drop, p, Output) == Accept
    ensures Filter(rules, Drop, p, Output) == Accept
  {
    DecideConcat(rules[..k], rules[k..], p, Output);
    assert rules == rules[..k] + rules[k..];
  }

  /**
   * While the rules are added one by one everything passes until the output chain
   * exists; from then on nothing passes that the finished policy would stop.
   */
  lemma PartialPolicy(c: Config, k: nat, p: Packet)
    requires k <= |EnableCommands(c)|
    ensures k < 2 ==> Passes(ExecuteAll(None, EnableCommands(c)[..k]), p)
    ensures k >= 2 && Passes(ExecuteAll(None, EnableCommands(c)[..k]), p) ==> NftPasses(c, p)
  {
    hide OutputChain, GuardChain;
    PartialStates(c, k);
    var g := |GuardChain(c)|;
    if k >= 2 && Passes(Partial(c, k), p) {
      assert Filter([], Drop, p, Output) == Drop;
      assert k > 3 + g;
      PrefixIsStricter(OutputChain(c), k - 3 - g, p);
    }
  }

  /** All commands together install exactly the policy. */
  lemma EnableInstalls(c: Config)
    ensures ExecuteAll(None, EnableCommands(c)) == Some(Installed(c))
    ensures forall p :: Passes(Some(Installed(c)), p) <==> NftPasses(c, p)
  {
    hide OutputChain, GuardChain;
    var commands := EnableCommands(c);
    PartialStates(c, |commands|);
    assert commands[..|commands|] == commands;
    assert OutputChain(c)[..|OutputChain(c)|] == OutputChain(c) && GuardChain(c)[..|GuardChain(c)|] == GuardChain(c);
    assert |commands| == 3 + |GuardChain(c)| + |OutputChain(c)|;
    if OutputChain(c) == [] {
      assert Partial(c, |commands|) == Some(Installed(c));
    }
  }

  /** Deleting first makes a batch independent of the table it finds. */
  lemma {:induction false} DeleteFirst(table: Option<Table>, commands: seq<Command>)
    ensures ExecuteAll(table, [DeleteTable] + commands) == ExecuteAll(None, commands)
  {
    var all := [DeleteTable] + commands;
    if commands == [] {
      assert all[..0] == [] && all[0] == DeleteTable;
    } else {
      assert all[..|all| - 1] == [DeleteTable] + commands[..|commands| - 1];
      DeleteFirst(table, commands[..|commands| - 1]);
    }
  }

  // ---------------------------------------------------------------------
  // Rules added to a table that could not be deleted
  // ---------------------------------------------------------------------

  /** The first `k` commands on a table that already has both chains. */
  function Onto(was: Table, c: Config, k: nat): Table
    requires was.output.Some? && was.guard.Some? && k <= |EnableCommands(c)|
  {
    var g := |GuardChain(c)|;
    if k <= 3 then was
    else if k <= 3 + g then was.(guard := Some(was.guard.value + GuardChain(c)[..k - 3]))
    else Table(Some(was.output.value + OutputChain(c)[..k - 3 - g]), Some(was.guard.value + GuardChain(c)))
  }

  lemma {:induction false} OntoStates(was: Table, c: Config, k: nat)
    requires was.output.Some? && was.guard.Some? && k <= |EnableCommands(c)|
    ensures ExecuteAll(Some(was), EnableCommands(c)[..k]) == Some(Onto(was, c, k))
  {
    hide OutputChain, GuardChain;
    var commands, g := EnableCommands(c), |GuardChain(c)|;
    if k > 0 {
      OntoStates(was, c, k - 1);
      assert commands[..k][..k - 1] == commands[..k - 1];
      assert ExecuteAll(Some(was), commands[..k]) == Execute(Some(Onto(was, c, k - 1)), commands[k - 1]);
      if 3 < k <= 3 + g {
        assert commands[k - 1] == AddGuardRule(GuardChain(c)[k - 4]);
        assert GuardChain(c)[..0] == [] && was.guard.value + [] == was.guard.value;
        assert (was.guard.value + GuardChain(c)[..k - 4]) + [GuardChain(c)[k - 4]] == was.guard.value + GuardChain(c)[..k - 3];
      } else if k > 3 + g {
        assert commands[k - 1] == AddOutputRule(OutputChain(c)[k - 4 - g]);
        assert GuardChain(c)[..g] == GuardChain(c) && OutputChain(c)[..0] == [] && was.output.value + [] == was.output.value;
        assert g == 0 ==> was.guard.value + GuardChain(c) == was.guard.value;
        assert (was.output.value + OutputChain(c)[..k - 4 - g]) + [OutputChain(c)[k - 4 - g]] == was.output.value + OutputChain(c)[..k - 3 - g];
      }
    }
  }

  /** The output chain decides every packet, and the guard every one with the capture mark. */
  lemma OldDecides(c: Config, p: Packet)
    ensures Decide(OutputChain(c), p, Output).Some?
    ensures p.mark == CAPTURE_MARK ==> Decide(GuardChain(c), p, Postrouting).Some?
    ensures p.mark != CAPTURE_MARK ==> Decide(GuardChain(c), p, Postrouting).None?
  {
    TerminalDecides(p, Output);
    var front := NftAllowed(c) + DNS_BLOCK_RULES + NftTolerated(c);
    assert OutputChain(c) == front + TERMINAL_DROP_RULES;
    DecideConcat(front, TERMINAL_DROP_RULES, p, Output);
    var own, other := [Rule([Mark(CAPTURE_MARK), Oif(c.tunnel)], Accept)], [Rule([Mark(CAPTURE_MARK)], Drop)];
    assert GuardChain(c) == own + other;
    DecideConcat(own, other, p, Postrouting);
    DecideUniform(own, Accept, p, Postrouting);
    DecideUniform(other, Drop, p, Postrouting);
    PairMatches(Mark(CAPTURE_MARK), Oif(c.tunnel), Accept, p, Postrouting);
    SingleMatches(Mark(CAPTURE_MARK), Drop, p, Postrouting);
  }

  /**
   * Rules added behind a policy that could not be deleted change nothing: the
   * packets that pass are those of the old configuration.
   */
  lemma StalePolicyStays(c: Config, next: Config, p: Packet)
    ensures Passes(ExecuteAll(Some(Installed(c)), EnableCommands(next)), p) <==> NftPasses(c, p)
  {
    var commands, was := EnableCommands(next), Installed(c);
    OntoStates(was, next, |commands|);
    assert commands[..|commands|] == commands;
    OldDecides(c, p);
    OldDecides(next, p);
    hide Decide, OutputChain, GuardChain;
    DecideConcat(OutputChain(c), OutputChain(next), p, Output);
    DecideConcat(GuardChain(c), GuardChain(next), p, Postrouting);
    assert OutputChain(next)[..|OutputChain(next)|] == OutputChain(next);
    assert GuardChain(next)[..|GuardChain(next)|] == GuardChain(next);
    assert |commands| == 3 + |GuardChain(next)| + |OutputChain(next)|;
    GuardNotEmpty(next);
    assert Onto(was, next, |commands|) ==
           Table(Some(OutputChain(c) + OutputChain(next)), Some(GuardChain(c) + GuardChain(next)));
  }

  lemma GuardNotEmpty(c: Config)
    ensures |GuardChain(c)| > 0 && |OutputChain(c)| > 0
  {
  }

  predicate Accepted(accepted: seq<bool>, i: nat) {
    i < |accepted| && accepted[i]
  }

  /** What the iptables backend has in one family: the jump from OUTPUT and the chain. */
  datatype Family = Family(jump: bool, chain: bool)

  predicate Gone(f: Family) {
    !f.jump && !f.chain
  }

  predicate Within(f: Family, g: Family) {
    (f.jump ==> g.jump) && (f.chain ==> g.chain)
  }

  datatype Tools = Tools(nft: bool, iptables: bool, ip6tables: bool)

  datatype Removals = Removals(deleted: bool, unhooked4: bool, removed4: bool, unhooked6: bool, removed6: bool)

  class KillSwitch {
    const config: Config
    var table: Option<Table>
    var v4: Family
    var v6: Family
    ghost var trail: seq<Option<Table>>

    /** `trail` lists every table the kernel has had, the current one last. */
    ghost predicate Valid()
      reads this
    {
      trail != [] && trail[|trail| - 1] == table
    }

    constructor (config: Config, table: Option<Table>, v4: Family, v6: Family)
      ensures Valid() && this.config == config && this.table == table && trail == [table] && this.v4 == v4 && this.v6 == v6
    {
      this.config, this.table, this.v4, this.v6, trail := config, table, v4, v6, [table];
    }

    method Become(next: Option<Table>)
      modifies this`table, this`trail
      ensures Valid() && table == next && trail == old(trail) + [next]
    {
      table := next;
      trail := trail + [next];
    }

    /**
     * Replaces the policy in one batch. At every moment the kernel has the old
     * table or the complete new one, and a failed batch leaves the old one.
     */
    method ApplyAtomic(nftables: bool, batchSucceeds: bool, verified: bool) returns (ok: bool)
      requires Valid()
      modifies this`table, this`trail
      ensures Valid() && ok == (nftables && batchSucceeds && verified)
      ensures table == if nftables && batchSucceeds then Some(Installed(config)) else old(table)
      ensures forall i :: |old(trail)| <= i < |trail| ==> trail[i] == old(table) || trail[i] == Some(Installed(config))
    {
      hide EnableCommands, Installed;
      if !nftables {
        return false;
      }
      var commands := (if table.Some? then [DeleteTable] else []) + EnableCommands(config);
      EnableInstalls(config);
      DeleteFirst(table, EnableCommands(config));
      if table.None? {
        assert commands == EnableCommands(config);
      }
      if !batchSucceeds {
        return false;
      }
      Become(ExecuteAll(table, commands));
      ok := verified;
    }

    /**
     * Deletes, then adds command by command; `accepted` says which commands the kernel
     * takes, `cleared` and `cleaned` whether the deletions before and after succeed.
     */
    method EnableStepwise(cleared: bool, accepted: seq<bool>, cleaned: bool) returns (ok: bool)
      requires Valid()
      modifies this`table, this`trail
      ensures Valid() && (ok <==> forall i :: 0 <= i < |EnableCommands(config)| ==> Accepted(accepted, i))
      ensures ok && (cleared || old(table).None?) ==> table == Some(Installed(config))
      ensures ok && !cleared ==> table == ExecuteAll(old(table), EnableCommands(config))
      ensures !ok && cleaned ==> table.None?
      ensures !ok && !cleaned ==>
                exists k :: && 0 <= k < |EnableCommands(config)| && !Accepted(accepted, k)
                            && (forall j :: 0 <= j < k ==> Accepted(accepted, j))
                            && table == ExecuteAll(if cleared then None else old(table), EnableCommands(config)[..k])
      ensures cleared ==> |trail| > |old(trail)| && trail[|old(trail)|].None?
    {
      var commands := EnableCommands(config);
      EnableInstalls(config);
      hide EnableCommands, Installed, Execute, Passes, NftPasses;
      if cleared {
        Become(None);
      }
      ghost var start := table;
      for i := 0 to |commands|
        invariant Valid() && table == ExecuteAll(start, commands[..i])
        invariant cleared ==> |trail| > |old(trail)| && trail[|old(trail)|].None?
        invariant forall j :: 0 <= j < i ==> Accepted(accepted, j)
      {
        if !Accepted(accepted, i) {
          if cleaned {
            Become(None);
          }
          return false;
        }
        assert commands[..i + 1][..i] == commands[..i];
        Become(Execute(table, commands[i]));
      }
      assert commands[..|commands|] == commands;
      ok := true;
    }

    /** Removes one family's jump and chain; a chain still jumped to is not removed. */
    method ClearFamily(family: Family, unhooked: bool, removed: bool) returns (rest: Family)
      ensures rest.jump <==> family.jump && !unhooked
      ensures rest.chain <==> family.chain && (rest.jump || !removed)
    {
      var jump := family.jump && !unhooked;
      rest := Family(jump, family.chain && (jump || !removed));
    }

    /**
     * Every tool at hand removes what it manages. Success means that nothing is left
     * that the status looks at: the table with nft at hand, the IPv4 chain with
     * iptables, the IPv6 one only with ip6tables and IPv6 blocked as well.
     */
    method Disable(tools: Tools, answers: Removals) returns (ok: bool)
      requires Valid()
      modifies this
      ensures Valid() && (table == old(table) || table.None?) && Within(v4, old(v4)) && Within(v6, old(v6))
      ensures ok <==>
              && (tools.nft ==> table.None?)
              && (tools.iptables ==> Gone(v4) && (config.blockIpv6 && tools.ip6tables ==> Gone(v6)))
      ensures tools == Tools(true, true, true) && config.blockIpv6 ==> (ok <==> table.None? && Gone(v4) && Gone(v6))
    {
      if tools.nft && answers.deleted {
        Become(None);
      }
      if tools.iptables {
        v4 := ClearFamily(v4, answers.unhooked4, answers.removed4);
        if tools.ip6tables {
          v6 := ClearFamily(v6, answers.unhooked6, answers.removed6);
        }
      }
      var left := tools.nft && table.Some?;
      var chains := tools.iptables && (!Gone(v4) || (config.blockIpv6 && tools.ip6tables && !Gone(v6)));
      ok := !left && !chains;
    }
  }
}
