/** What makes a command the one to suggest, in terms of edit scripts, prefixes and lengths. */
module CommandSuggestion {
  import opened Common
  import opened EditDistance

  /** `cost` is the least number of edits that turns one word into the other. */
  ghost predicate LeastEdits(from: string, to: string, cost: nat) {
    && (exists script :: Apply(script, from) == Some(to) && Cost(script) == cost)
    && (forall script :: Apply(script, from) == Some(to) ==> cost <= Cost(script))
  }

  lemma DistanceIsLeast(from: string, to: string)
    ensures LeastEdits(from, to, Distance(from, to, |from|, |to|))
  {
    assert from[..|from|] == from && to[..|to|] == to;
    hide Distance, Cost, Apply;
    DistanceIsAttained(from, to, |from|, |to|);
    forall script | Apply(script, from) == Some(to) ensures Distance(from, to, |from|, |to|) <= Cost(script) {
      DistanceIsLowerBound(from, to, |from|, |to|, script);
    }
  }

  lemma LeastIsUnique(from: string, to: string, a: nat, b: nat)
    requires LeastEdits(from, to, a) && LeastEdits(from, to, b)
    ensures a == b
  {
  }

  function Gap(a: string, b: string): nat {
    if |a| > |b| then |a| - |b| else |b| - |a|
  }

  /** Short words allow one edit, longer ones two. */
  predicate Reachable(typed: string, edits: nat) {
    edits <= 1 || (|typed| > 4 && edits == 2)
  }

  /** Fewer edits; then a completion of what was typed; then the closer length. */
  predicate Preferred(typed: string, a: string, editsA: nat, b: string, editsB: nat) {
    || editsA < editsB
    || (editsA == editsB && typed <= a && !(typed <= b))
    || (editsA == editsB && (typed <= a <==> typed <= b) && Gap(typed, a) < Gap(typed, b))
  }

  /** The choice is within reach and preferred to every other that is. */
  ghost predicate Stands(typed: string, folded: seq<string>, k: nat) {
    && k < |folded|
    && exists edits :: && LeastEdits(typed, folded[k], edits) && Reachable(typed, edits)
                       && forall j, other :: 0 <= j < |folded| && j != k && LeastEdits(typed, folded[j], other) && Reachable(typed, other) ==>
                            Preferred(typed, folded[k], edits, folded[j], other)
  }

  /** A choice is the unique best exactly when it stands out in these terms. */
  lemma UniqueBestMeans(typed: string, folded: seq<string>, k: nat)
    ensures UniqueBest(typed, folded, k) <==> Stands(typed, folded, k)
  {
    if k < |folded| {
      forall j | 0 <= j < |folded| ensures LeastEdits(typed, folded[j], Distance(typed, folded[j], |typed|, |folded[j]|)) {
        DistanceIsLeast(typed, folded[j]);
      }
      forall j, cost | 0 <= j < |folded| && LeastEdits(typed, folded[j], cost) ensures cost == Distance(typed, folded[j], |typed|, |folded[j]|) {
        LeastIsUnique(typed, folded[j], cost, Distance(typed, folded[j], |typed|, |folded[j]|));
      }
      hide LeastEdits, Distance;
      var edits := Distance(typed, folded[k], |typed|, |folded[k]|);
      forall j | 0 <= j < |folded| ensures RankLess(RankOf(typed, folded[k]), RankOf(typed, folded[j])) <==>
        Preferred(typed, folded[k], edits, folded[j], Distance(typed, folded[j], |typed|, |folded[j]|))
      {
      }
      if UniqueBest(typed, folded, k) {
        assert LeastEdits(typed, folded[k], edits) && Reachable(typed, edits);
      }
      if Stands(typed, folded, k) {
        forall m: nat | m < |folded| && m != k && Near(typed, folded[m]) ensures RankLess(RankOf(typed, folded[k]), RankOf(typed, folded[m])) {
          var other := Distance(typed, folded[m], |typed|, |folded[m]|);
          assert LeastEdits(typed, folded[m], other) && Reachable(typed, other);
        }
      }
    }
  }
}
