/**
 * What a consistent inspection of an iptables chain means for its packets: the
 * listed rules are the policy exactly when they are the emitted ones, in order.
 */
module InspectionVerdict {
  import opened Common
  import opened PacketFilter
  import opened KillSwitchRules
  import opened TokenMatching
  import opened FirewallInspection
  import opened ChainOrder

  lemma RenderedMatches(r: Reading, rule: Rule)
    requires Lawful(r) && rule.conditions != []
    ensures Matches(r, Canonical(r, Render(rule)), Render(rule))
  {
    hide Canonical, Render, Matches;
    assert Padded(Render(rule), [], Render(rule));
    OtherAccepted(r, rule, Render(rule));
  }

  /** A line with conditions of its own never stands for the unconditional last rule. */
  lemma ConditionalNotLast(r: Reading, rule: Rule)
    requires rule.conditions != []
    ensures !Matches(r, Canonical(r, Render(rule)), Render(LAST))
  {
    hide Canonical;
    NotUnconditional(r, rule);
    TerminalCanonical(r);
    hide Render;
  }

  lemma LastMatches(r: Reading)
    requires Lawful(r)
    ensures Matches(r, Canonical(r, Render(LAST)), Render(LAST)) && TERMINAL <= Canonical(r, Render(LAST))
  {
    hide Canonical, Render, Matches;
    assert Appended(Render(LAST), []) == Render(LAST);
    LastAccepted(r, Render(LAST));
  }

  lemma EmittedMatches(r: Reading, c: Config, v6: bool, rule: Rule)
    requires Lawful(r) && rule in FamilyChain(c, v6)
    ensures Matches(r, Canonical(r, Render(rule)), Render(rule))
  {
    hide Canonical, Render, Matches, FamilyChain;
    ChainShape(c, v6);
    var chain := FamilyChain(c, v6);
    var i :| 0 <= i < |chain| && chain[i] == rule;
    if i == |chain| - 1 {
      LastMatches(r);
    } else {
      assert chain[..|chain| - 1][i] == rule;
      RenderedMatches(r, rule);
    }
  }

  /** Every list of as many lines that has all the emitted rules is found consistent. */
  lemma EmittedRulesAccepted(r: Reading, c: Config, v6: bool, rules: seq<Rule>)
    requires Lawful(r) && c.tunnel != "-j" && |rules| == |FamilyChain(c, v6)|
    requires forall rule :: rule in FamilyChain(c, v6) ==> rule in rules
    ensures Consistent(r, CanonicalAll(r, RenderAll(rules)), Expected(c, v6), true, true)
  {
    hide Canonical, Render, Matches, FamilyChain, Expected;
    var actual, chain := CanonicalAll(r, RenderAll(rules)), FamilyChain(c, v6);
    ExpectedIsEmitted(c, v6);
    forall i | 0 <= i < |chain| ensures MatchedBySome(r, actual, Expected(c, v6)[i]) {
      EmittedMatches(r, c, v6, chain[i]);
      var j :| 0 <= j < |rules| && rules[j] == chain[i];
      assert Matches(r, actual[j], Expected(c, v6)[i]);
    }
    ChainShape(c, v6);
    LastMatches(r);
    assert chain[|chain| - 1] in rules;
    var j :| 0 <= j < |rules| && rules[j] == LAST;
    assert TERMINAL <= actual[j];
  }

  /**
   * Any rearrangement of the emitted rules is found consistent. It decides every packet
   * as the emitted chain exactly when it is ordered.
   */
  lemma VerdictOnRearrangement(r: Reading, c: Config, v6: bool, free: Address, rules: seq<Rule>)
    requires Lawful(r) && c.tunnel != "-j" && multiset(rules) == multiset(FamilyChain(c, v6))
    ensures Consistent(r, CanonicalAll(r, RenderAll(rules)), Expected(c, v6), true, true)
    ensures Ordered(c, v6, rules) ==> SameDecisions(c, v6, rules)
    ensures Independent(c, v6, free) ==> (SameDecisions(c, v6, rules) <==> Ordered(c, v6, rules))
  {
    hide Canonical, Render, FamilyChain, Expected, Consistent, Ordered, Independent, Decide, Real;
    PermutedSame(rules, FamilyChain(c, v6));
    assert |rules| == |multiset(rules)| && |FamilyChain(c, v6)| == |multiset(FamilyChain(c, v6))|;
    EmittedRulesAccepted(r, c, v6, rules);
    if Ordered(c, v6, rules) {
      forall p | Real(p, v6) ensures Decide(rules, p, IptablesOutput) == Decide(FamilyChain(c, v6), p, IptablesOutput) {
        OrderedDecides(c, v6, rules, p);
      }
    }
    if Independent(c, v6, free) {
      OrderIsExact(c, v6, free, rules);
    }
  }

  // ---------------------------------------------------------------------
  // Rules that are not the emitted ones
  // ---------------------------------------------------------------------

  /** One rule with the conditions of the first two. */
  function Merged(v6: bool): Rule {
    Rule([Oif("lo"), Destination(Own(v6))], Accept)
  }

  /** Everything is accepted first; one line stands for both loopback rules. */
  function AcceptFirst(c: Config, v6: bool): seq<Rule> {
    [Rule([], Accept), Merged(v6)] + FamilyChain(c, v6)[2..]
  }

  lemma MergedTokens(v6: bool)
    ensures var tail := COMMENT + ["-j", "ACCEPT"];
            && Render(Merged(v6)) == ["-o", "lo"] + ["-d", Own(v6).text] + tail
            && Render(Allow(Oif("lo"))) == ["-o", "lo"] + tail && Render(Allow(Destination(Own(v6)))) == ["-d", Own(v6).text] + tail
  {
  }

  lemma Between(front: Tokens, extra: Tokens, tail: Tokens)
    requires (front == [] || !IsFlag(front[|front| - 1])) && extra != [] && !IsFlag(extra[|extra| - 1])
    ensures Padded(front + tail, [Insertion(|front|, extra)], front + extra + tail)
  {
    assert Insert(front + tail, Insertion(|front|, extra)) == front + extra + tail;
  }

  lemma PlainTokens(v6: bool)
    ensures !IsFlag("lo") && !IsFlag(Own(v6).text)
  {
    assert "lo"[0] == 'l' && "127.0.0.0/8"[0] == '1' && "::1/128"[0] == ':' && "-d"[0] == '-' && "--mark"[0] == '-';
  }

  lemma PaddedMatches(r: Reading, rule: Rule, line: Tokens, insertion: Insertion)
    requires Lawful(r) && rule.conditions != [] && Padded(Render(rule), [insertion], line)
    ensures Matches(r, Canonical(r, line), Render(rule))
  {
    hide Render, Canonical, Matches, Padded;
    assert ListedAs(r, Render(rule), line, false);
    OtherAccepted(r, rule, line);
  }

  lemma MergedMatches(r: Reading, v6: bool)
    requires Lawful(r)
    ensures Matches(r, Canonical(r, Render(Merged(v6))), Render(Allow(Oif("lo"))))
    ensures Matches(r, Canonical(r, Render(Merged(v6))), Render(Allow(Destination(Own(v6)))))
  {
    hide Render, Canonical, Matches, Padded, IsFlag, Lawful;
    var line, tail, lo, own := Render(Merged(v6)), COMMENT + ["-j", "ACCEPT"], ["-o", "lo"], ["-d", Own(v6).text];
    PlainTokens(v6);
    MergedTokens(v6);
    Between(lo, own, tail);
    PaddedMatches(r, Allow(Oif("lo")), line, Insertion(2, own));
    Between([], lo, own + tail);
    assert [] + (own + tail) == own + tail && [] + lo + (own + tail) == line;
    PaddedMatches(r, Allow(Destination(Own(v6))), line, Insertion(0, lo));
  }

  lemma ChainStart(c: Config, v6: bool)
    ensures |FamilyChain(c, v6)| > 2 && FamilyChain(c, v6)[..2] == [Allow(Oif("lo")), Allow(Destination(Own(v6)))]
  {
  }

  lemma AcceptsAll(c: Config, v6: bool)
    ensures |FamilyChain(c, v6)| > 2 && forall p :: Decide(AcceptFirst(c, v6), p, IptablesOutput) == Some(Accept)
  {
    ChainStart(c, v6);
    hide FamilyChain;
  }

  lemma AcceptFirstMatches(r: Reading, c: Config, v6: bool, i: nat)
    requires Lawful(r) && i < |FamilyChain(c, v6)|
    ensures MatchedBySome(r, CanonicalAll(r, RenderAll(AcceptFirst(c, v6))), Render(FamilyChain(c, v6)[i]))
  {
    ChainStart(c, v6);
    hide Canonical, Render, Matches, FamilyChain;
    var rules, chain := AcceptFirst(c, v6), FamilyChain(c, v6);
    var actual := CanonicalAll(r, RenderAll(rules));
    if i < 2 {
      assert chain[i] == chain[..2][i];
      MergedMatches(r, v6);
      assert actual[1] == Canonical(r, Render(Merged(v6)));
      assert Matches(r, actual[1], Render(chain[i]));
    } else {
      assert rules[i] == chain[i];
      EmittedMatches(r, c, v6, chain[i]);
      assert Matches(r, actual[i], Render(chain[i]));
    }
  }

  /** A chain that accepts every packet at its first rule is found consistent. */
  lemma ForeignAcceptAccepted(r: Reading, c: Config, v6: bool)
    requires Lawful(r) && c.tunnel != "-j"
    ensures Consistent(r, CanonicalAll(r, RenderAll(AcceptFirst(c, v6))), Expected(c, v6), true, true)
    ensures forall p :: Decide(AcceptFirst(c, v6), p, IptablesOutput) == Some(Accept)
  {
    AcceptsAll(c, v6);
    ChainShape(c, v6);
    hide Canonical, Render, MatchedBySome, FamilyChain, Expected, Decide;
    LastMatches(r);
    ExpectedIsEmitted(c, v6);
    var rules, chain := AcceptFirst(c, v6), FamilyChain(c, v6);
    var actual := CanonicalAll(r, RenderAll(rules));
    forall i | 0 <= i < |chain| ensures MatchedBySome(r, actual, Expected(c, v6)[i]) {
      AcceptFirstMatches(r, c, v6, i);
    }
    assert rules[|chain| - 1] == LAST && TERMINAL <= actual[|chain| - 1];
  }
}
