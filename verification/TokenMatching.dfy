/**
 * Firewall rules as lists of tokens: their canonical spelling, and finding one
 * list inside another.
 */
module TokenMatching {
  import opened Common
  import opened PacketFilter
  import opened KillSwitchRules

  type Tokens = seq<string>

  // ---------------------------------------------------------------------
  // Canonical tokens
  // ---------------------------------------------------------------------

  /** Address parsing and printing, and the canonical text of a mark if it reads as a number. */
  datatype Reading = Reading(text: AddressText, mark: string -> Option<string>)

  predicate IsFlag(t: string) {
    t == "-d" || t == "--mark"
  }

  /**
   * What holds of the library: no text with a slash is an address, a flag is
   * neither an address nor a number, and a canonical mark is canonical.
   */
  ghost predicate Lawful(r: Reading) {
    && (forall t :: '/' in t ==> r.text.parse(t).None?)
    && (forall t :: IsFlag(t) ==> r.text.parse(t).None? && r.mark(t).None?)
    && (forall t :: r.mark(t).Some? ==> !IsFlag(r.mark(t).value) && (r.mark(r.mark(t).value).None? || r.mark(r.mark(t).value) == r.mark(t)))
  }

  function CanonicalAddress(r: Reading, t: string): string {
    match r.text.parse(t)
    case None => t
    case Some(a) => r.text.show(a) + if a.V6? then "/128" else "/32"
  }

  function CanonicalMark(r: Reading, t: string): string {
    match r.mark(t) case None => t case Some(u) => u
  }

  /** The value after "-d" or "--mark" is made canonical. */
  function CanonicalAfter(r: Reading, previous: string, t: string): string {
    if previous == "-d" then CanonicalAddress(r, t)
    else if previous == "--mark" then CanonicalMark(r, t)
    else t
  }

  function Canonical(r: Reading, tokens: Tokens): Tokens {
    seq(|tokens|, i requires 0 <= i < |tokens| => if i == 0 then tokens[0] else CanonicalAfter(r, tokens[i - 1], tokens[i]))
  }

  lemma CanonicalKeepsFlags(r: Reading, previous: string, t: string)
    requires Lawful(r)
    ensures var u := CanonicalAfter(r, previous, t);
            && (IsFlag(u) <==> IsFlag(t)) && (IsFlag(t) ==> u == t)
            && CanonicalAfter(r, previous, u) == u
  {
    var u := CanonicalAfter(r, previous, t);
    if previous == "-d" && r.text.parse(t).Some? {
      assert u[|u| - 3] == '/' || u[|u| - 4] == '/';
      assert '/' in u;
      assert u[|u| - 1] == '2' || u[|u| - 1] == '8';
    }
  }

  /** Canonicalising twice changes nothing more. */
  lemma CanonicalTwice(r: Reading, tokens: Tokens)
    requires Lawful(r)
    ensures Canonical(r, Canonical(r, tokens)) == Canonical(r, tokens)
  {
    var once := Canonical(r, tokens);
    forall i | 0 < i < |tokens| ensures CanonicalAfter(r, once[i - 1], once[i]) == once[i] {
      CanonicalKeepsFlags(r, tokens[i - 1], tokens[i]);
      if i > 1 {
        CanonicalKeepsFlags(r, tokens[i - 2], tokens[i - 1]);
      }
      hide Lawful, CanonicalAddress, CanonicalMark;
    }
  }

  /** Every value after `flag` replaced. */
  function Replaced(tokens: Tokens, flag: string, f: string -> string): Tokens {
    seq(|tokens|, i requires 0 <= i < |tokens| => if 0 < i && tokens[i - 1] == flag then f(tokens[i]) else tokens[i])
  }

  lemma ReplacedAt(tokens: Tokens, flag: string, f: string -> string, k: nat)
    requires k < |tokens|
    ensures |Replaced(tokens, flag, f)| == |tokens|
    ensures Replaced(tokens, flag, f)[k] == if 0 < k && tokens[k - 1] == flag then f(tokens[k]) else tokens[k]
  {
  }

  /** One pass over the token list, updating it in place; the flags are read from a copy. */
  method ReplaceAfter(tokens: Tokens, flag: string, f: string -> string) returns (values: Tokens)
    ensures values == Replaced(tokens, flag, f)
  {
    values := tokens;
    if tokens == [] {
      return;
    }
    var names := values[..|values| - 1];
    ghost var target := Replaced(tokens, flag, f);
    ReplacedAt(tokens, flag, f, 0);
    assert target[..1] + tokens[1..] == tokens;
    hide Replaced;
    for i := 0 to |names|
      invariant values == target[..i + 1] + tokens[i + 1..]
    {
      ReplacedAt(tokens, flag, f, i + 1);
      Splice(target, tokens, i + 1);
      if names[i] == flag {
        values := values[i + 1 := f(values[i + 1])];
      }
    }
    assert target[..|tokens|] + tokens[|tokens|..] == target;
  }

  lemma Splice(a: Tokens, b: Tokens, k: nat)
    requires |a| == |b| && k < |a|
    ensures (a[..k] + b[k..])[k] == b[k]
    ensures (a[..k] + b[k..])[k := a[k]] == a[..k + 1] + b[k + 1..]
    ensures a[k] == b[k] ==> a[..k] + b[k..] == a[..k + 1] + b[k + 1..]
  {
    assert b[k..] == [b[k]] + b[k + 1..];
    assert a[..k + 1] == a[..k] + [a[k]];
  }

  method CanonicalizeTokens(r: Reading, tokens: Tokens) returns (values: Tokens)
    requires Lawful(r)
    ensures values == Canonical(r, tokens)
  {
    values := ReplaceAfter(tokens, "-d", t => CanonicalAddress(r, t));
    values := ReplaceAfter(values, "--mark", t => CanonicalMark(r, t));
    TwoPasses(r, tokens);
  }

  lemma CanonicalAt(r: Reading, tokens: Tokens, k: nat)
    requires k < |tokens|
    ensures |Canonical(r, tokens)| == |tokens|
    ensures Canonical(r, tokens)[k] == if k == 0 then tokens[0] else CanonicalAfter(r, tokens[k - 1], tokens[k])
  {
  }

  /** The first pass does not touch the flags of the second. */
  lemma FlagsKept(r: Reading, tokens: Tokens, i: nat)
    requires Lawful(r) && i < |tokens|
    ensures |Replaced(tokens, "-d", t => CanonicalAddress(r, t))| == |tokens|
    ensures Replaced(tokens, "-d", t => CanonicalAddress(r, t))[i] == "--mark" <==> tokens[i] == "--mark"
  {
    ReplacedAt(tokens, "-d", t => CanonicalAddress(r, t), i);
    if 0 < i && tokens[i - 1] == "-d" {
      CanonicalKeepsFlags(r, "-d", tokens[i]);
    }
    hide Lawful, CanonicalAddress, CanonicalMark, Replaced;
  }

  lemma TwoPasses(r: Reading, tokens: Tokens)
    requires Lawful(r)
    ensures Replaced(Replaced(tokens, "-d", t => CanonicalAddress(r, t)), "--mark", t => CanonicalMark(r, t)) == Canonical(r, tokens)
  {
    assert "-d" != "--mark";
    hide Lawful, CanonicalAddress, CanonicalMark, Canonical, Replaced;
    var first := Replaced(tokens, "-d", t => CanonicalAddress(r, t));
    var second := Replaced(first, "--mark", t => CanonicalMark(r, t));
    if tokens != [] {
      ReplacedAt(tokens, "-d", t => CanonicalAddress(r, t), 0);
      ReplacedAt(first, "--mark", t => CanonicalMark(r, t), 0);
      CanonicalAt(r, tokens, 0);
    } else {
      NoTokens(r);
    }
    forall i | 0 <= i < |tokens| ensures second[i] == Canonical(r, tokens)[i] {
      ReplacedAt(tokens, "-d", t => CanonicalAddress(r, t), i);
      ReplacedAt(first, "--mark", t => CanonicalMark(r, t), i);
      CanonicalAt(r, tokens, i);
      if i > 0 {
        FlagsKept(r, tokens, i - 1);
      }
    }
  }

  lemma NoTokens(r: Reading)
    ensures Canonical(r, []) == [] && Replaced(Replaced([], "-d", t => CanonicalAddress(r, t)), "--mark", t => CanonicalMark(r, t)) == []
  {
  }

  // ---------------------------------------------------------------------
  // Matching
  // ---------------------------------------------------------------------

  /** `small` is found in `big`, in order, taking each token at its first chance. */
  predicate Embeds(small: Tokens, big: Tokens) {
    if small == [] then true
    else if big == [] then false
    else if small[0] == big[0] then Embeds(small[1..], big[1..])
    else Embeds(small, big[1..])
  }

  ghost predicate Positions(small: Tokens, big: Tokens, at: seq<nat>) {
    && |at| == |small|
    && (forall i :: 0 <= i < |at| ==> at[i] < |big| && big[at[i]] == small[i])
    && (forall i, j :: 0 <= i < j < |at| ==> at[i] < at[j])
  }

  ghost predicate Subsequence(small: Tokens, big: Tokens) {
    exists at :: Positions(small, big, at)
  }

  lemma {:induction false} EmbedsTail(small: Tokens, big: Tokens)
    requires small != [] && Embeds(small, big)
    ensures Embeds(small[1..], big)
  {
    if small[0] == big[0] {
      if |small| > 1 && small[1] == big[0] {
        EmbedsTail(small[1..], big[1..]);
      }
    } else {
      EmbedsTail(small, big[1..]);
      if |small| > 1 && small[1] == big[0] {
        EmbedsTail(small[1..], big[1..]);
      }
    }
  }

  lemma {:induction false} EmbedsTransitive(a: Tokens, b: Tokens, c: Tokens)
    requires Embeds(a, b) && Embeds(b, c)
    ensures Embeds(a, c)
    decreases |c|
  {
    if a != [] {
      if b[0] == c[0] {
        if a[0] == b[0] {
          EmbedsTransitive(a[1..], b[1..], c[1..]);
        } else {
          EmbedsTransitive(a, b[1..], c[1..]);
        }
      } else {
        EmbedsTransitive(a, b, c[1..]);
        if a[0] == c[0] {
          EmbedsTail(a, c[1..]);
        }
      }
    }
  }

  lemma {:induction false} EmbedsAfter(front: Tokens, a: Tokens, b: Tokens)
    requires Embeds(a, b)
    ensures Embeds(front + a, front + b)
  {
    if front == [] {
      assert front + a == a && front + b == b;
    } else {
      EmbedsAfter(front[1..], a, b);
      assert (front + a)[1..] == front[1..] + a && (front + b)[1..] == front[1..] + b;
    }
  }

  lemma {:induction false} EmbedsSkip(a: Tokens, extra: Tokens, b: Tokens)
    requires Embeds(a, b)
    ensures Embeds(a, extra + b)
  {
    if extra == [] {
      assert extra + b == b;
    } else {
      EmbedsSkip(a, extra[1..], b);
      assert (extra + b)[1..] == extra[1..] + b;
      if a != [] && a[0] == extra[0] {
        EmbedsTail(a, extra[1..] + b);
      }
    }
  }

  lemma {:induction false} EmbedsSelf(a: Tokens)
    ensures Embeds(a, a)
  {
    if a != [] {
      EmbedsSelf(a[1..]);
    }
  }

  /** Taking each token at its first chance finds every subsequence, and nothing else. */
  lemma GreedyIsComplete(small: Tokens, big: Tokens)
    ensures Embeds(small, big) <==> Subsequence(small, big)
  {
    if Embeds(small, big) {
      var at := Found(small, big);
    }
    if Subsequence(small, big) {
      var at :| Positions(small, big, at);
      Finds(small, big, at);
    }
  }

  function Shifted(at: seq<nat>): seq<nat> {
    seq(|at|, i requires 0 <= i < |at| => at[i] + 1)
  }

  lemma ShiftPositions(small: Tokens, big: Tokens, at: seq<nat>)
    requires big != [] && Positions(small, big[1..], at)
    ensures Positions(small, big, Shifted(at))
  {
    forall i | 0 <= i < |at| ensures Shifted(at)[i] < |big| && big[Shifted(at)[i]] == small[i] {
      assert big[1..][at[i]] == big[at[i] + 1];
    }
  }

  lemma PrependPosition(small: Tokens, big: Tokens, at: seq<nat>)
    requires small != [] && big != [] && small[0] == big[0] && Positions(small[1..], big, at)
    requires forall i :: 0 <= i < |at| ==> at[i] > 0
    ensures Positions(small, big, [0] + at)
  {
    var all := [0] + at;
    forall i | 0 <= i < |all| ensures all[i] < |big| && big[all[i]] == small[i] {
      if i > 0 {
        assert all[i] == at[i - 1] && small[i] == small[1..][i - 1];
      }
    }
  }

  lemma {:induction false} Found(small: Tokens, big: Tokens) returns (at: seq<nat>)
    requires Embeds(small, big)
    ensures Positions(small, big, at)
  {
    if small == [] {
      at := [];
    } else if small[0] == big[0] {
      at := Found(small[1..], big[1..]);
      ShiftPositions(small[1..], big, at);
      PrependPosition(small, big, Shifted(at));
      at := [0] + Shifted(at);
    } else {
      at := Found(small, big[1..]);
      ShiftPositions(small, big, at);
      at := Shifted(at);
    }
  }

  lemma {:induction false} Finds(small: Tokens, big: Tokens, at: seq<nat>)
    requires Positions(small, big, at)
    ensures Embeds(small, big)
  {
    if small != [] {
      assert big != [] by {
        assert at[0] < |big|;
      }
      if at[0] == 0 {
        assert forall i :: 1 <= i < |at| ==> at[0] < at[i];
        var rest := seq(|at| - 1, i requires 0 <= i < |at| - 1 && at[0] < at[i + 1] => at[i + 1] - 1);
        Finds(small[1..], big[1..], rest);
      } else {
        var shifted := seq(|at|, i requires 0 <= i < |at| && (forall j :: 0 <= j < |at| ==> at[j] > 0) => at[i] - 1);
        Finds(small, big[1..], shifted);
        if small[0] == big[0] {
          EmbedsTail(small, big[1..]);
        }
      }
    }
  }

  /** The search for one token: everything up to and including its first occurrence is used up. */
  method FindToken(wanted: Tokens, actual: Tokens, start: nat) returns (found: bool, next: nat)
    requires wanted != [] && start <= |actual|
    ensures next <= |actual|
    ensures Embeds(wanted, actual[start..]) <==> found && Embeds(wanted[1..], actual[next..])
  {
    found, next := false, start;
    while next < |actual| && !found
      invariant next <= |actual|
      invariant Embeds(wanted, actual[start..]) <==> Embeds(if found then wanted[1..] else wanted, actual[next..])
      decreases |actual| - next, !found
    {
      assert actual[next..][1..] == actual[next + 1..];
      found := wanted[0] == actual[next];
      next := next + 1;
    }
  }

  /** The inspector's loop: one pass through the listed rule, shared by all expected tokens. */
  method RuleContains(r: Reading, actual: Tokens, expected: Tokens) returns (ok: bool)
    requires Lawful(r)
    ensures ok <==> Subsequence(Canonical(r, expected), actual)
  {
    hide Lawful, Canonical, Subsequence;
    var wanted := CanonicalizeTokens(r, expected);
    GreedyIsComplete(wanted, actual);
    var next: nat := 0;
    assert actual[0..] == actual && wanted[0..] == wanted;
    for i := 0 to |wanted|
      invariant next <= |actual|
      invariant Embeds(wanted, actual) <==> Embeds(wanted[i..], actual[next..])
    {
      assert wanted[i..][1..] == wanted[i + 1..];
      hide Embeds;
      var found, after := FindToken(wanted[i..], actual, next);
      next := after;
      if !found {
        return false;
      }
    }
    ok := true;
  }

  // ---------------------------------------------------------------------
  // Extra tokens
  // ---------------------------------------------------------------------

  datatype Insertion = Insertion(at: nat, extra: Tokens)

  predicate EndsInFlag(tokens: Tokens) {
    tokens != [] && IsFlag(tokens[|tokens| - 1])
  }

  /** Extra tokens go anywhere except between a flag and its value. */
  predicate Possible(tokens: Tokens, ins: Insertion) {
    ins.at <= |tokens| && !EndsInFlag(tokens[..ins.at]) && !EndsInFlag(ins.extra)
  }

  function Insert(tokens: Tokens, ins: Insertion): Tokens
    requires Possible(tokens, ins)
  {
    tokens[..ins.at] + ins.extra + tokens[ins.at..]
  }

  predicate Padded(tokens: Tokens, insertions: seq<Insertion>, line: Tokens)
    decreases |insertions|
  {
    if insertions == [] then tokens == line
    else Possible(tokens, insertions[0]) && Padded(Insert(tokens, insertions[0]), insertions[1..], line)
  }

  lemma NotAfterFlag(r: Reading, previous: string, t: string)
    requires !IsFlag(previous)
    ensures CanonicalAfter(r, previous, t) == t
  {
  }

  lemma CanonicalConcat(r: Reading, a: Tokens, b: Tokens)
    requires !EndsInFlag(a)
    ensures Canonical(r, a + b) == Canonical(r, a) + Canonical(r, b)
  {
    var s := a + b;
    assert |Canonical(r, s)| == |Canonical(r, a) + Canonical(r, b)| == |s|;
    forall i | 0 <= i < |s| ensures Canonical(r, s)[i] == (Canonical(r, a) + Canonical(r, b))[i] {
      hide CanonicalAfter, IsFlag, Canonical;
      CanonicalAt(r, s, i);
      if i < |a| {
        CanonicalAt(r, a, i);
      } else {
        CanonicalAt(r, b, i - |a|);
        if i == |a| && a != [] {
          NotAfterFlag(r, s[i - 1], s[i]);
        }
      }
    }
  }

  lemma NoFlagAtEnd(a: Tokens, b: Tokens)
    requires !EndsInFlag(a) && !EndsInFlag(b)
    ensures !EndsInFlag(a + b)
  {
    hide IsFlag;
    if b == [] {
      assert a + b == a;
    }
  }

  lemma InsertEmbeds(r: Reading, tokens: Tokens, ins: Insertion)
    requires Possible(tokens, ins)
    ensures Embeds(Canonical(r, tokens), Canonical(r, Insert(tokens, ins)))
  {
    hide Canonical, EndsInFlag, Embeds;
    var front, back := tokens[..ins.at], tokens[ins.at..];
    assert tokens == front + back;
    var f, x, b := Canonical(r, front), Canonical(r, ins.extra), Canonical(r, back);
    CanonicalConcat(r, front, back);
    NoFlagAtEnd(front, ins.extra);
    CanonicalConcat(r, front + ins.extra, back);
    CanonicalConcat(r, front, ins.extra);
    EmbedsSelf(b);
    EmbedsSkip(b, x, b);
    EmbedsAfter(f, b, x + b);
    assert f + (x + b) == Canonical(r, Insert(tokens, ins));
  }

  lemma {:induction false} PaddingEmbeds(r: Reading, tokens: Tokens, insertions: seq<Insertion>, line: Tokens)
    requires Padded(tokens, insertions, line)
    ensures Embeds(Canonical(r, tokens), Canonical(r, line))
    decreases |insertions|
  {
    hide Canonical, Embeds, Insert;
    if insertions == [] {
      EmbedsSelf(Canonical(r, tokens));
    } else {
      var next := Insert(tokens, insertions[0]);
      InsertEmbeds(r, tokens, insertions[0]);
      PaddingEmbeds(r, next, insertions[1..], line);
      EmbedsTransitive(Canonical(r, tokens), Canonical(r, next), Canonical(r, line));
    }
  }
}
