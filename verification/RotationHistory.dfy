/**
 * What the rotation engine remembers over any run of rotations and recorded
 * connects: which profiles count as used lately, which one is the last good
 * one, and how far apart rotations are.
 */
module RotationHistory {
  import opened Common
  import opened RotationCycle
  import opened RotationPlan

  // ---------------------------------------------------------------------
  // Runs
  // ---------------------------------------------------------------------

  /** The watchdog asks for a rotation, or reports a profile it has connected itself. */
  datatype Step = Ask(pool: seq<string>, force: bool, w: Answers) | Record(id: string)

  /** A profile that worked, and whether the engine went back to it. */
  datatype Use = Use(id: string, rolledBack: bool)

  function Recorded(e: Engine, id: string): Engine {
    if id == "" then e else Remember(e, id).(lastGood := id)
  }

  function Play(e: Engine, step: Step): Engine {
    match step
    case Ask(pool, force, w) => EngineAfter(e, pool, force, w)
    case Record(id) => Recorded(e, id)
  }

  function Run(e: Engine, steps: seq<Step>): Engine {
    if steps == [] then e else Play(Run(e, steps[..|steps| - 1]), steps[|steps| - 1])
  }

  /** What a step shows to have worked. */
  function UseOf(e: Engine, step: Step): seq<Use> {
    match step
    case Ask(pool, force, w) =>
      var outcome := Ending(Tries(e, pool, force, w));
      if outcome.Success? then [Use(outcome.profile, outcome.rolledBack)] else []
    case Record(id) => if id == "" then [] else [Use(id, false)]
  }

  function Uses(e: Engine, steps: seq<Step>): seq<Use> {
    if steps == [] then []
    else Uses(e, steps[..|steps| - 1]) + UseOf(Run(e, steps[..|steps| - 1]), steps[|steps| - 1])
  }

  function Ids(uses: seq<Use>): seq<string> {
    seq(|uses|, i requires 0 <= i < |uses| => uses[i].id)
  }

  predicate New(e: Engine) {
    e.last == "" && e.recent == [] && e.lastGood == "" && e.lastAt.None?
  }

  // ---------------------------------------------------------------------
  // Used lately
  // ---------------------------------------------------------------------

  /** `p` is the last place of `id`, and fewer than `k` different ids follow it. */
  predicate LastUseAt(ids: seq<string>, k: int, id: string, p: nat) {
    p < |ids| && ids[p] == id && id !in ids[p + 1..] && |Elements(ids[p + 1..])| < k
  }

  /** `id` is one of the `k` different ids used last. */
  ghost predicate UsedLately(ids: seq<string>, k: int, id: string) {
    exists p: nat :: LastUseAt(ids, k, id, p)
  }

  /** All ids, the one used last first. */
  function Latest(ids: seq<string>): seq<string> {
    if ids == [] then [] else [ids[|ids| - 1]] + Without(Latest(ids[..|ids| - 1]), ids[|ids| - 1])
  }

  lemma {:induction false} WithoutMeans(s: seq<string>, x: string)
    requires Distinct(s)
    ensures Distinct(Without(s, x)) && Elements(Without(s, x)) == Elements(s) - {x}
    ensures |Without(s, x)| == |s| - if x in s then 1 else 0
  {
    WithoutElements(s, x);
    if s != [] {
      var n := |s| - 1;
      WithoutMeans(s[..n], x);
      assert s == s[..n] + [s[n]];
      assert s[n] !in Elements(s[..n]);
      assert s[n] !in Elements(Without(s[..n], x));
    }
  }

  lemma {:induction false} WithoutPrefix(s: seq<string>, x: string, m: nat)
    requires m <= |s|
    ensures Without(s[..m], x) <= Without(s, x)
  {
    if m < |s| {
      var n := |s| - 1;
      assert s[..n][..m] == s[..m];
      WithoutPrefix(s[..n], x, m);
    } else {
      assert s[..m] == s;
    }
  }

  /** Dropping the oldest first or last makes no difference. */
  lemma KeptLatest(s: seq<string>, x: string, k: nat)
    requires Distinct(s)
    ensures Kept([x] + Without(Kept(s, k), x), k) == Kept([x] + Without(s, x), k)
  {
    if k < |s| {
      WithoutPrefix(s, x, k);
      WithoutMeans(s[..k], x);
    }
  }

  lemma {:induction false} LatestDistinct(ids: seq<string>)
    ensures Distinct(Latest(ids)) && Elements(Latest(ids)) == Elements(ids)
  {
    if ids != [] {
      var init, last := ids[..|ids| - 1], ids[|ids| - 1];
      LatestDistinct(init);
      WithoutMeans(Latest(init), last);
      assert ids == init + [last];
      var rest := Without(Latest(init), last);
      assert last !in Elements(rest);
      assert Elements([last] + rest) == {last} + Elements(rest);
      assert Elements(ids) == Elements(init) + {last};
    }
  }

  /** The different ids from the last use of `id` on, without it. */
  function Since(ids: seq<string>, id: string): set<string> {
    if ids == [] || ids[|ids| - 1] == id then {} else Since(ids[..|ids| - 1], id) + {ids[|ids| - 1]}
  }

  lemma {:induction false} SinceMeans(ids: seq<string>, id: string, p: nat)
    requires p < |ids| && ids[p] == id && id !in ids[p + 1..]
    ensures Since(ids, id) == Elements(ids[p + 1..])
  {
    var n := |ids| - 1;
    if p == n {
      assert ids[p + 1..] == [];
    } else {
      assert ids[p + 1..][n - p - 1] == ids[n];
      assert ids[p + 1..] == ids[..n][p + 1..] + [ids[n]];
      SinceMeans(ids[..n], id, p);
    }
  }

  lemma {:induction false} LastPlace(ids: seq<string>, id: string) returns (p: nat)
    requires id in ids
    ensures p < |ids| && ids[p] == id && id !in ids[p + 1..]
  {
    var n := |ids| - 1;
    if ids[n] == id {
      p := n;
    } else {
      assert ids == ids[..n] + [ids[n]];
      p := LastPlace(ids[..n], id);
      assert ids[p + 1..] == ids[..n][p + 1..] + [ids[n]];
    }
  }

  /** Place `i` without `x` is a place `j` before, and the same ids but `x` come before it. */
  lemma {:induction false} WithoutAt(s: seq<string>, x: string, i: nat) returns (j: nat)
    requires i < |Without(s, x)|
    ensures j < |s| && s[j] == Without(s, x)[i] && Elements(Without(s, x)[..i]) == Elements(s[..j]) - {x}
  {
    var n := |s| - 1;
    if i < |Without(s[..n], x)| {
      j := WithoutAt(s[..n], x, i);
      assert s[..n][..j] == s[..j];
      assert Without(s, x)[..i] == Without(s[..n], x)[..i];
    } else {
      j := n;
      assert Without(s, x)[..i] == Without(s[..n], x);
      WithoutElements(s[..n], x);
    }
  }

  lemma {:induction false} WithoutElements(s: seq<string>, x: string)
    ensures Elements(Without(s, x)) == Elements(s) - {x}
  {
    if s != [] {
      var n := |s| - 1;
      WithoutElements(s[..n], x);
      assert s == s[..n] + [s[n]];
      assert Elements(s) == Elements(s[..n]) + {s[n]};
      assert Elements(Without(s, x)) == Elements(Without(s[..n], x)) + (if s[n] == x then {} else {s[n]});
    }
  }

  /** Before an id in the list come those used since. */
  lemma {:induction false} LatestOrder(ids: seq<string>, i: nat)
    requires i < |Latest(ids)|
    ensures Elements(Latest(ids)[..i]) == Since(ids, Latest(ids)[i])
  {
    var init, last := ids[..|ids| - 1], ids[|ids| - 1];
    var rest := Without(Latest(init), last);
    LatestDistinct(ids);
    if i > 0 {
      assert Latest(ids)[0] == last && Latest(ids)[i] == rest[i - 1];
      var j := WithoutAt(Latest(init), last, i - 1);
      LatestOrder(init, j);
      assert Latest(ids)[..i] == [last] + rest[..i - 1];
      assert Elements(Latest(ids)[..i]) == {last} + Elements(rest[..i - 1]);
    }
  }

  lemma {:induction false} DistinctSize(s: seq<string>)
    requires Distinct(s)
    ensures |Elements(s)| == |s|
  {
    if s != [] {
      var n := |s| - 1;
      DistinctSize(s[..n]);
      assert s == s[..n] + [s[n]];
      assert Elements(s) == Elements(s[..n]) + {s[n]};
      assert s[n] !in s[..n];
    }
  }

  /** The first `k` of the list are the `k` different ids used last. */
  lemma LatestMeans(ids: seq<string>, k: nat, id: string)
    ensures id in Kept(Latest(ids), k) <==> UsedLately(ids, k, id)
  {
    var latest := Latest(ids);
    LatestDistinct(ids);
    assert id in latest <==> id in Elements(latest);
    assert id in ids <==> id in Elements(ids);
    if id in ids {
      var i :| 0 <= i < |latest| && latest[i] == id;
      LatestOrder(ids, i);
      DistinctSize(latest[..i]);
      var p := LastPlace(ids, id);
      SinceMeans(ids, id, p);
      hide Latest, Since;
      assert id in Kept(latest, k) <==> i < k;
      if i < k {
        assert LastUseAt(ids, k, id, p);
      } else {
        forall q: nat | LastUseAt(ids, k, id, q) ensures false {
          SinceMeans(ids, id, q);
        }
      }
    }
  }

  // ---------------------------------------------------------------------
  // What is remembered
  // ---------------------------------------------------------------------

  /** Where the newest of the uses that were no way back is; none if there is none. */
  ghost predicate GoodAt(uses: seq<Use>, p: nat) {
    p < |uses| && !uses[p].rolledBack && forall q :: p < q < |uses| ==> uses[q].rolledBack
  }

  function Last(ids: seq<string>): string {
    if ids == [] then "" else ids[|ids| - 1]
  }

  function LastGood(uses: seq<Use>): string {
    if uses == [] then "" else if uses[|uses| - 1].rolledBack then LastGood(uses[..|uses| - 1]) else uses[|uses| - 1].id
  }

  lemma {:induction false} LastGoodMeans(uses: seq<Use>)
    ensures forall p: nat :: GoodAt(uses, p) ==> LastGood(uses) == uses[p].id
    ensures (forall q :: 0 <= q < |uses| ==> uses[q].rolledBack) ==> LastGood(uses) == ""
  {
    if uses != [] {
      var init := uses[..|uses| - 1];
      LastGoodMeans(init);
      forall p: nat | GoodAt(uses, p) ensures LastGood(uses) == uses[p].id {
        if p < |init| {
          assert uses[|init|].rolledBack && GoodAt(init, p);
        }
      }
    }
  }

  predicate Holds(e: Engine, keep: int, uses: seq<Use>) {
    && e.recentKeep == keep && e.last == Last(Ids(uses)) && e.lastGood == LastGood(uses)
    && e.recent == if keep < 0 then [] else Kept(Latest(Ids(uses)), keep)
  }

  lemma UsedHolds(e: Engine, keep: int, uses: seq<Use>, use: Use)
    requires Holds(e, keep, uses)
    ensures var t := Remember(e, use.id);
            Holds(if use.rolledBack then t else t.(lastGood := use.id), keep, uses + [use])
  {
    var all := uses + [use];
    assert all[..|uses|] == uses;
    assert Ids(all) == Ids(uses) + [use.id] && Ids(all)[..|uses|] == Ids(uses);
    LatestDistinct(Ids(uses));
    if keep >= 0 {
      KeptLatest(Latest(Ids(uses)), use.id, keep);
    }
  }

  lemma PlayHolds(e: Engine, keep: int, uses: seq<Use>, step: Step)
    requires Holds(e, keep, uses)
    ensures Holds(Play(e, step), keep, uses + UseOf(e, step))
  {
    hide Tries, Ending, Due, Latest, Kept, Remember, LastGood, Ids;
    var more := UseOf(e, step);
    if more == [] {
      assert uses + more == uses;
    } else {
      assert more == [more[0]];
      UsedHolds(e, keep, uses, more[0]);
    }
  }

  lemma {:induction false} RunHolds(e: Engine, steps: seq<Step>)
    requires New(e)
    ensures Holds(Run(e, steps), e.recentKeep, Uses(e, steps))
  {
    if steps == [] {
      assert Ids([]) == [];
    } else {
      var init := steps[..|steps| - 1];
      RunHolds(e, init);
      hide Holds, Play, UseOf;
      PlayHolds(Run(e, init), e.recentKeep, Uses(e, init), steps[|steps| - 1]);
    }
  }

  /**
   * After any run of a new engine: the recent ones are the ids used last, as many
   * different ones as are kept; the last one is the id used last; the last good one is
   * the newest that was not a way back.
   */
  lemma MemoryMeans(e: Engine, steps: seq<Step>)
    requires New(e)
    ensures var t, uses := Run(e, steps), Uses(e, steps);
            && (forall id :: id in t.recent <==> UsedLately(Ids(uses), e.recentKeep, id))
            && t.last == Last(Ids(uses))
            && (forall p: nat :: GoodAt(uses, p) ==> t.lastGood == uses[p].id)
            && ((forall q :: 0 <= q < |uses| ==> uses[q].rolledBack) ==> t.lastGood == "")
  {
    var t, uses := Run(e, steps), Uses(e, steps);
    hide Run, Uses, Latest, Kept, Ids, LastGood;
    RunHolds(e, steps);
    LastGoodMeans(uses);
    forall id ensures id in t.recent <==> UsedLately(Ids(uses), e.recentKeep, id) {
      if e.recentKeep >= 0 {
        LatestMeans(Ids(uses), e.recentKeep, id);
      }
    }
  }

  /** Used lately, or the very last one. */
  ghost predicate Avoided(ids: seq<string>, keep: int, id: string) {
    UsedLately(ids, keep, id) || (id != "" && ids != [] && ids[|ids| - 1] == id)
  }

  /** After any run, a profile is tried next only if it was not used lately, or if all in the pool were. */
  lemma UsedLatelyAvoided(e: Engine, steps: seq<Step>, pool: seq<string>, id: string)
    requires New(e)
    ensures var ids := Ids(Uses(e, steps));
            id in Candidates(Run(e, steps), pool) <==>
            id in pool && (Avoided(ids, e.recentKeep, id) ==> forall q :: q in pool ==> Avoided(ids, e.recentKeep, q))
  {
    var t, ids := Run(e, steps), Ids(Uses(e, steps));
    hide Run, Uses, Ids, UsedLately, Candidates;
    MemoryMeans(e, steps);
    assert forall q :: Blocked(t, q) <==> Avoided(ids, e.recentKeep, q);
    hide Blocked, Avoided;
    CandidatesAvoidRecent(t, pool, id);
  }

  // ---------------------------------------------------------------------
  // How far apart rotations are
  // ---------------------------------------------------------------------

  function Settings(e: Engine): Engine {
    e.(last := "", recent := [], lastGood := "", lastAt := None)
  }

  /** Step `i` is a rotation that took place and ended without an exception. */
  predicate Dated(e: Engine, steps: seq<Step>, i: nat)
    requires i < |steps|
  {
    var t := Run(e, steps[..i]);
    steps[i].Ask? && TakesPlace(t, steps[i].pool, steps[i].force, steps[i].w)
    && !Ending(Tries(t, steps[i].pool, steps[i].force, steps[i].w)).Exception?
  }

  lemma PlayDates(e: Engine, step: Step)
    ensures Settings(Play(e, step)) == Settings(e)
    ensures Play(e, step).lastAt ==
            if step.Ask? && TakesPlace(e, step.pool, step.force, step.w) && !Ending(Tries(e, step.pool, step.force, step.w)).Exception?
            then Some(step.w.end) else e.lastAt
  {
    hide Tries, Ending, Kept, Due;
  }

  lemma {:induction false} RunDates(e: Engine, steps: seq<Step>, i: nat)
    requires i < |steps| && Dated(e, steps, i) && forall m :: i < m < |steps| ==> !Dated(e, steps, m)
    ensures Run(e, steps).lastAt == Some(steps[i].w.end)
  {
    var n := |steps| - 1;
    PlayDates(Run(e, steps[..n]), steps[n]);
    hide Play, Tries, Ending, TakesPlace;
    if i < n {
      var init := steps[..n];
      forall m | i <= m < n ensures Dated(e, init, m) == Dated(e, steps, m) {
        assert init[..m] == steps[..m];
      }
      assert !Dated(e, steps, n);
      RunDates(e, init, i);
    }
  }

  lemma {:induction false} RunKeepsSettings(e: Engine, steps: seq<Step>)
    ensures Settings(Run(e, steps)) == Settings(e)
    ensures (forall m :: 0 <= m < |steps| ==> !Dated(e, steps, m)) ==> Run(e, steps).lastAt == e.lastAt
  {
    if steps != [] {
      var n := |steps| - 1;
      var init := steps[..n];
      PlayDates(Run(e, init), steps[n]);
      RunKeepsSettings(e, init);
      hide Play, Tries, Ending, TakesPlace, Settings;
      forall m | 0 <= m < n ensures Dated(e, init, m) == Dated(e, steps, m) {
        assert init[..m] == steps[..m];
      }
      assert Dated(e, steps, n) || !Dated(e, steps, n);
    }
  }

  /**
   * In any run, an unforced rotation over several profiles takes place exactly when the
   * interval, longer for up to three profiles, has passed since the latest one ended.
   */
  lemma RotationsSpaced(e: Engine, steps: seq<Step>, i: nat, pool: seq<string>, w: Answers)
    requires i < |steps| && Dated(e, steps, i) && (forall m :: i < m < |steps| ==> !Dated(e, steps, m)) && |pool| > 1
    ensures TakesPlace(Run(e, steps), pool, false, w) <==>
            w.now - steps[i].w.end >= if |pool| <= 3 then e.interval * e.multiplier else e.interval
  {
    hide Run, Dated;
    RunDates(e, steps, i);
    RunKeepsSettings(e, steps);
    assert Settings(Run(e, steps)).interval == e.interval && Settings(Run(e, steps)).multiplier == e.multiplier;
  }

  /** A new engine's first rotation takes place at once. */
  lemma FirstRotationAtOnce(e: Engine, steps: seq<Step>, pool: seq<string>, force: bool, w: Answers)
    requires New(e) && pool != [] && forall m :: 0 <= m < |steps| ==> !Dated(e, steps, m)
    ensures TakesPlace(Run(e, steps), pool, force, w)
  {
    hide Run, Dated;
    RunKeepsSettings(e, steps);
  }
}
