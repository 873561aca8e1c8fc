/**
 * A rotation told without its loop: a list of profiles fixed by the pool, the
 * memory and the clock, tried up to the first one that settles the rotation.
 */
module RotationPlan {
  import opened Common
  import opened ConnectionLifecycle
  import opened RotationCycle

  // ---------------------------------------------------------------------
  // Candidates
  // ---------------------------------------------------------------------

  predicate Increasing(at: seq<nat>) {
    forall i, j :: 0 <= i < j < |at| ==> at[i] < at[j]
  }

  /** `picked` are the profiles at the places `at` of the pool, in its order. */
  ghost predicate PickedAt(pool: seq<string>, picked: seq<string>, at: seq<nat>) {
    |at| == |picked| && Increasing(at) && forall i :: 0 <= i < |at| ==> at[i] < |pool| && picked[i] == pool[at[i]]
  }

  lemma {:induction false} UnblockedPlaces(e: Engine, pool: seq<string>) returns (at: seq<nat>)
    ensures PickedAt(pool, Unblocked(e, pool), at)
    ensures forall p :: 0 <= p < |pool| ==> (p in at <==> !Blocked(e, pool[p]))
  {
    at := [];
    if pool != [] {
      var n := |pool| - 1;
      hide Blocked;
      at := UnblockedPlaces(e, pool[..n]);
      if !Blocked(e, pool[n]) {
        at := at + [n];
      }
    }
  }

  /** Exactly the places of the pool not used lately, or all of them when each was, in the pool's order. */
  ghost predicate ChosenAt(e: Engine, pool: seq<string>, candidates: seq<string>, at: seq<nat>) {
    && PickedAt(pool, candidates, at)
    && forall p :: 0 <= p < |pool| ==> (p in at <==> !Blocked(e, pool[p]) || forall q :: q in pool ==> Blocked(e, q))
  }

  lemma CandidatesInOrder(e: Engine, pool: seq<string>) returns (at: seq<nat>)
    ensures ChosenAt(e, pool, Candidates(e, pool), at)
  {
    hide Blocked, Unblocked;
    at := UnblockedPlaces(e, pool);
    if Unblocked(e, pool) == [] {
      forall q | q in pool ensures Blocked(e, q) {
        UnblockedMeans(e, pool, q);
      }
      at := seq(|pool|, i => i);
      forall p | 0 <= p < |pool| ensures p in at {
        assert at[p] == p;
      }
    } else {
      var first := Unblocked(e, pool)[0];
      UnblockedMeans(e, pool, first);
      assert first in pool && !Blocked(e, first);
    }
  }

  // ---------------------------------------------------------------------
  // The plan
  // ---------------------------------------------------------------------

  function Limit(e: Engine, candidates: seq<string>): nat {
    if e.maxAttempts < 0 then 0 else Min(|candidates|, e.maxAttempts)
  }

  /** After `k` failed candidates enough have failed, or it has taken too long. */
  predicate TimeToTurn(e: Engine, w: Answers, k: nat) {
    k >= 1 && (k >= e.maxFails || w.failed(k - 1) - w.start >= e.maxDegraded)
  }

  /** The engine turns back after `k` candidates: the first time it is due, or at the end. */
  ghost predicate TurnsAfter(e: Engine, candidates: seq<string>, w: Answers, k: nat) {
    && k <= Limit(e, candidates) && (k == Limit(e, candidates) || TimeToTurn(e, w, k))
    && forall j :: 0 <= j < k ==> !TimeToTurn(e, w, j)
  }

  function Forwards(candidates: seq<string>, w: Answers, from: nat, to: nat): seq<Tried>
    requires from <= to <= |candidates|
  {
    seq(to - from, i requires 0 <= i < to - from => Tried(candidates[from + i], w.trials(from + i), false))
  }

  function Back(e: Engine, pool: seq<string>, w: Answers): seq<Tried> {
    if e.lastGood != "" && e.lastGood in pool then [Tried(e.lastGood, w.rollback, true)] else []
  }

  function PlanFrom(e: Engine, pool: seq<string>, candidates: seq<string>, n: nat, k: nat, w: Answers): seq<Tried>
    requires n <= k <= Limit(e, candidates)
  {
    Forwards(candidates, w, n, k) + Back(e, pool, w) + Forwards(candidates, w, k, Limit(e, candidates))
  }

  /** `tries` is `plan` up to and with the first try that worked, threw or could not be cleaned up. */
  ghost predicate CutFrom(plan: seq<Tried>, tries: seq<Tried>) {
    && tries <= plan && OnlyLastEnds(tries)
    && (tries == plan || !GoesOn(tries))
  }

  lemma CutAppend(a: seq<Tried>, plan: seq<Tried>, tries: seq<Tried>)
    requires OnlyLastEnds(a) && GoesOn(a) && CutFrom(plan, tries)
    ensures CutFrom(a + plan, a + tries)
  {
    hide TryStatus;
    OnlyLastConcat(a, tries);
    if tries == [] {
      assert a + tries == a;
    }
  }

  lemma CutHere(a: seq<Tried>, plan: seq<Tried>)
    requires OnlyLastEnds(a) && !GoesOn(a)
    ensures CutFrom(a + plan, a)
  {
  }

  lemma ForwardsSplit(candidates: seq<string>, w: Answers, from: nat, to: nat)
    requires from < to <= |candidates|
    ensures Forwards(candidates, w, from, to) == [Tried(candidates[from], w.trials(from), false)] + Forwards(candidates, w, from + 1, to)
  {
  }

  /** Once it has been back, the engine goes through the rest. */
  lemma {:induction false} RestFollows(e: Engine, pool: seq<string>, candidates: seq<string>, n: nat, w: Answers)
    requires n <= Limit(e, candidates)
    ensures CutFrom(Forwards(candidates, w, n, Limit(e, candidates)), Cycle(e, pool, candidates, n, true, w))
    decreases |candidates| - n
  {
    var m := Limit(e, candidates);
    if n < m {
      var tried := [Tried(candidates[n], w.trials(n), false)];
      ForwardsSplit(candidates, w, n, m);
      hide TryStatus, Forwards, CutFrom;
      if GoesOn(tried) {
        RestFollows(e, pool, candidates, n + 1, w);
        CutAppend(tried, Forwards(candidates, w, n + 1, m), Cycle(e, pool, candidates, n + 1, true, w));
      } else {
        CutHere(tried, Forwards(candidates, w, n + 1, m));
      }
    }
  }

  lemma BackFollows(e: Engine, pool: seq<string>, candidates: seq<string>, k: nat, w: Answers)
    requires k <= Limit(e, candidates)
    ensures CutFrom(PlanFrom(e, pool, candidates, k, k, w), Return(e, pool, candidates, k, w))
  {
    var rest := Forwards(candidates, w, k, Limit(e, candidates));
    assert Back(e, pool, w) == RollBack(e, pool, w);
    assert PlanFrom(e, pool, candidates, k, k, w) == Back(e, pool, w) + rest;
    RestFollows(e, pool, candidates, k, w);
    hide TryStatus, Forwards, CutFrom, Cycle, PlanFrom;
    if GoesOn(Back(e, pool, w)) {
      CutAppend(Back(e, pool, w), rest, Cycle(e, pool, candidates, k, true, w));
    } else {
      CutHere(Back(e, pool, w), rest);
    }
  }

  lemma PlanStep(e: Engine, pool: seq<string>, candidates: seq<string>, n: nat, k: nat, w: Answers)
    requires n < k <= Limit(e, candidates)
    ensures PlanFrom(e, pool, candidates, n, k, w) == [Tried(candidates[n], w.trials(n), false)] + PlanFrom(e, pool, candidates, n + 1, k, w)
  {
    ForwardsSplit(candidates, w, n, k);
    hide Forwards;
  }

  lemma AtTheEnd(e: Engine, pool: seq<string>, candidates: seq<string>, w: Answers)
    ensures var m := Limit(e, candidates);
            CutFrom(PlanFrom(e, pool, candidates, m, m, w), Cycle(e, pool, candidates, m, false, w))
  {
    var m := Limit(e, candidates);
    assert Back(e, pool, w) == RollBack(e, pool, w);
    assert PlanFrom(e, pool, candidates, m, m, w) == Back(e, pool, w);
  }

  lemma {:induction false} CycleFollows(e: Engine, pool: seq<string>, candidates: seq<string>, n: nat, k: nat, w: Answers)
    requires TurnsAfter(e, candidates, w, k) && n <= k && (n < k || k == Limit(e, candidates))
    ensures CutFrom(PlanFrom(e, pool, candidates, n, k, w), Cycle(e, pool, candidates, n, false, w))
    decreases |candidates| - n
  {
    if n == k {
      AtTheEnd(e, pool, candidates, w);
    } else {
      var tried := [Tried(candidates[n], w.trials(n), false)];
      PlanStep(e, pool, candidates, n, k, w);
      hide TryStatus, PlanFrom, CutFrom, Return;
      assert n < |candidates| && n < e.maxAttempts;
      assert n + 1 < k ==> !TimeToTurn(e, w, n + 1);
      if !GoesOn(tried) {
        CutHere(tried, PlanFrom(e, pool, candidates, n + 1, k, w));
      } else if TimeToTurn(e, w, n + 1) {
        BackFollows(e, pool, candidates, k, w);
        CutAppend(tried, PlanFrom(e, pool, candidates, k, k, w), Return(e, pool, candidates, k, w));
      } else {
        CycleFollows(e, pool, candidates, n + 1, k, w);
        CutAppend(tried, PlanFrom(e, pool, candidates, n + 1, k, w), Cycle(e, pool, candidates, n + 1, false, w));
      }
    }
  }

  /** There is one number of candidates after which the engine turns back. */
  lemma {:induction false} TurnExists(e: Engine, candidates: seq<string>, w: Answers, n: nat) returns (k: nat)
    requires n <= Limit(e, candidates) && forall j :: 0 <= j < n ==> !TimeToTurn(e, w, j)
    ensures TurnsAfter(e, candidates, w, k) && forall other: nat :: TurnsAfter(e, candidates, w, other) ==> other == k
    decreases Limit(e, candidates) - n
  {
    if n == Limit(e, candidates) || TimeToTurn(e, w, n) {
      k := n;
    } else {
      k := TurnExists(e, candidates, w, n + 1);
    }
  }

  /** The rotation takes place: there is a choice and it is time or forced, or there is only one profile. */
  predicate TakesPlace(e: Engine, pool: seq<string>, force: bool, w: Answers) {
    pool != [] && (|pool| == 1 || force || Due(e, |pool|, w.now))
  }

  /**
   * A rotation over several profiles: the candidates up to the turning point, then the
   * last good profile if it is in the pool, then the remaining candidates, as far as
   * attempts are allowed, until one try settles it.
   */
  lemma TriesFollowPlan(e: Engine, pool: seq<string>, force: bool, w: Answers) returns (at: seq<nat>, candidates: seq<string>, k: nat)
    ensures ChosenAt(e, pool, candidates, at) && TurnsAfter(e, candidates, w, k)
    ensures if !TakesPlace(e, pool, force, w) then Tries(e, pool, force, w) == []
            else if |pool| == 1 then Tries(e, pool, force, w) == [Tried(pool[0], w.trials(0), false)]
            else CutFrom(PlanFrom(e, pool, candidates, 0, k, w), Tries(e, pool, force, w))
  {
    hide ChosenAt, Candidates, Cycle, CutFrom;
    candidates := Candidates(e, pool);
    at := CandidatesInOrder(e, pool);
    assert !TimeToTurn(e, w, 0);
    k := TurnExists(e, candidates, w, 0);
    if TakesPlace(e, pool, force, w) && |pool| > 1 {
      CycleFollows(e, pool, candidates, 0, k, w);
    }
  }

  // ---------------------------------------------------------------------
  // One try
  // ---------------------------------------------------------------------

  /** Every way is open: prepared, the old driver torn down, traffic blocked, connected. */
  predicate Connected(t: Trial) {
    t.preparation.Prepared? && t.teardown.TornDown? && t.protection.Verified? && t.opening.Opened?
  }

  /**
   * A try works exactly when the profile connects and its health check passes, and then
   * its driver is the only live one. One that did not work leaves nothing live, or, if the
   * profile was refused beforehand, everything as it was.
   */
  lemma TryOutcome(s: State, r: Router, id: string, t: Trial, configured: bool)
    requires RouterOk(s, r) && !s.barrierFailed
    ensures TryStatus(t).Worked? <==> Connected(t) && t.health.Healthy?
    ensures var (u, next) := RouterRun(s, r, TryCalls(id, t), configured);
            && (Connected(t) && t.health.Healthy? ==> u.live == {t.preparation.driver})
            && (TryStatus(t).DidNotWork? ==> if t.preparation.Prepared? then u.live == {} else u == s)
            && (u.barrierFailed <==> TryStatus(t).NotCleanedUp?)
  {
    hide Guarded, Armed, Owed, Torn, RouterRun;
    TryEffect(s, r, id, t, configured);
    RouterRunKeeps(s, r, TryCalls(id, t), configured);
  }
}
