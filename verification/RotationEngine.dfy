/** The rotation engine as an object that drives the router and remembers what worked. */
module RotationEngineObject {
  import opened Common
  import opened ConnectionLifecycle
  import opened RotationCycle
  import opened RotationHistory
  import opened TeardownBarrier
  import opened WatchdogRuntimeObject

  /** What a run of the engine has made of runtime and router, from `s` and `r`. */
  ghost predicate Stands(runtime: WatchdogRuntime, router: RuntimeDriverRouter, s: State, r: Router, done: seq<Tried>, configured: bool)
    reads runtime, router
  {
    (runtime.Current(), router.Standing()) == RouterRun(s, r, Calls(done), configured)
  }

  lemma CallsSnoc(s: State, r: Router, done: seq<Tried>, tried: Tried, configured: bool)
    ensures var (t, next) := RouterRun(s, r, Calls(done), configured);
            RouterRun(s, r, Calls(done + [tried]), configured) == RouterRun(t, next, TryCalls(tried.id, tried.trial), configured)
  {
    assert (done + [tried])[..|done|] == done;
    hide RouterRun, TryCalls;
    RouterRunConcat(s, r, Calls(done), TryCalls(tried.id, tried.trial), configured);
  }

  class RotationEngine {
    var recentKeep: int
    var maxAttempts: int
    var maxFails: int
    var maxDegraded: real
    var interval: real
    var multiplier: real
    var last: string
    var recent: seq<string>
    var lastGood: string
    var lastAt: Option<real>
    var cleanupBarrierFailed: bool

    ghost function Memory(): Engine
      reads this
    {
      Engine(recentKeep, maxAttempts, maxFails, maxDegraded, interval, multiplier, last, recent, lastGood, lastAt)
    }

    constructor (recentKeep: int, maxAttempts: int, maxFails: int, maxDegraded: real, interval: real, multiplier: real)
      ensures Memory() == Engine(recentKeep, maxAttempts, maxFails, maxDegraded, interval, multiplier, "", [], "", None)
      ensures !cleanupBarrierFailed
    {
      this.recentKeep, this.maxAttempts, this.maxFails := recentKeep, maxAttempts, maxFails;
      this.maxDegraded, this.interval, this.multiplier := maxDegraded, interval, multiplier;
      last, recent, lastGood, lastAt, cleanupBarrierFailed := "", [], "", None, false;
    }

    method CanRotateNow(size: nat, now: real, force: bool) returns (can: bool)
      ensures can <==> force || Due(Memory(), size, now)
    {
      if force || lastAt.None? {
        return true;
      }
      var wait := interval;
      if size <= 3 {
        wait := wait * multiplier;
      }
      can := now - lastAt.value >= wait;
    }

    method SelectCandidates(pool: seq<string>) returns (candidates: seq<string>)
      ensures candidates == Candidates(Memory(), pool)
      ensures forall id :: id in candidates <==>
                id in pool && (Blocked(Memory(), id) ==> forall q :: q in pool ==> Blocked(Memory(), q))
    {
      hide Blocked;
      var filtered: seq<string> := [];
      for i := 0 to |pool|
        invariant filtered == Unblocked(Memory(), pool[..i])
      {
        assert pool[..i + 1][..i] == pool[..i];
        if !IsBlocked(pool[i]) {
          filtered := filtered + [pool[i]];
        }
      }
      assert pool[..|pool|] == pool;
      forall id ensures id in Candidates(Memory(), pool) <==>
                          id in pool && (Blocked(Memory(), id) ==> forall q :: q in pool ==> Blocked(Memory(), q))
      {
        CandidatesAvoidRecent(Memory(), pool, id);
      }
      candidates := if filtered != [] then filtered else pool;
    }

    predicate IsBlocked(id: string)
      reads this
      ensures IsBlocked(id) == Blocked(Memory(), id)
    {
      id in recent || (last != "" && id == last)
    }

    /** The newest profile comes first; older mentions of it and the oldest ids are dropped. */
    method RememberProfile(id: string)
      modifies this
      ensures Memory() == Remember(old(Memory()), id) && cleanupBarrierFailed == old(cleanupBarrierFailed)
      ensures last == id && (recentKeep > 0 ==> id in recent)
    {
      var others: seq<string> := [];
      for i := 0 to |recent|
        invariant others == Without(recent[..i], id) && Memory() == old(Memory()) && cleanupBarrierFailed == old(cleanupBarrierFailed)
      {
        assert recent[..i + 1][..i] == recent[..i];
        if recent[i] != id {
          others := others + [recent[i]];
        }
      }
      assert recent[..|recent|] == recent;
      last := id;
      recent := Kept([id] + others, recentKeep);
      assert recentKeep > 0 ==> recent[0] == id;
    }

    /** One profile, up to the first answer that ends the attempt. */
    method TryProfile(runtime: WatchdogRuntime, router: RuntimeDriverRouter, id: string, t: Trial, configured: bool)
      returns (status: Status)
      modifies this`cleanupBarrierFailed, runtime, router
      ensures (runtime.Current(), router.Standing()) ==
              RouterRun(old(runtime.Current()), old(router.Standing()), TryCalls(id, t), configured)
      ensures status == TryStatus(t)
      ensures cleanupBarrierFailed <==> old(cleanupBarrierFailed) || status.NotCleanedUp?
      ensures !old(runtime.cleanupBarrierFailed) ==> LeftBy(old(runtime.Current()), runtime.Current(), router.Standing(), t)
    {
      hide LeftBy, Keeps, KeepsOn, Quiet, Cleared, ConnectsOnce, Inv, Connects, RouterOk, RouterRun, TeardownActive, RoutedConnect;
      ghost var s, r := runtime.Current(), router.Standing();
      if !s.barrierFailed {
        TryEffect(s, r, id, t, configured);
      }
      ghost var preflight := [Preflight(id, t.preparation)];
      ghost var teardown := [RouterDisconnect(t.teardown)];
      RouterRunOne(s, r, preflight[0], configured);
      var prepared := router.PreflightProfile(id, t.preparation);
      if !prepared {
        return DidNotWork;
      }
      RouterRunConcat(s, r, preflight, teardown, configured);
      RouterRunOne(s, router.Standing(), teardown[0], configured);
      var torn := router.RouteDisconnect(runtime, t.teardown);
      if !torn {
        cleanupBarrierFailed := true;
        return NotCleanedUp;
      }
      var connect := RouterConnect(id, t.again, t.protection, t.opening);
      RouterRunConcat(s, r, preflight + teardown, [connect], configured);
      RouterRunOne(runtime.Current(), router.Standing(), connect, configured);
      var answer := router.RouteConnect(runtime, connect, configured);
      if answer.Raises? || (answer.Yes? && t.health.Broken?) {
        return Threw;
      }
      if answer.Yes? && t.health.Healthy? {
        return Worked;
      }
      ghost var calls := preflight + teardown + [connect];
      RouterRunConcat(s, r, calls, [RouterDisconnect(t.cleanup)], configured);
      RouterRunOne(runtime.Current(), router.Standing(), RouterDisconnect(t.cleanup), configured);
      torn := router.RouteDisconnect(runtime, t.cleanup);
      if !torn {
        cleanupBarrierFailed := true;
        return NotCleanedUp;
      }
      status := DidNotWork;
    }

    /** The same, after the tries `done`. */
    method Attempt(runtime: WatchdogRuntime, router: RuntimeDriverRouter, tried: Tried, configured: bool,
        ghost s: State, ghost r: Router, ghost done: seq<Tried>)
      returns (status: Status)
      requires Stands(runtime, router, s, r, done, configured)
      modifies this`cleanupBarrierFailed, runtime, router
      ensures Stands(runtime, router, s, r, done + [tried], configured)
      ensures status == TryStatus(tried.trial)
      ensures cleanupBarrierFailed <==> old(cleanupBarrierFailed) || status.NotCleanedUp?
    {
      hide RouterRun, Calls, TryCalls, TryStatus, LeftBy;
      CallsSnoc(s, r, done, tried, configured);
      status := TryProfile(runtime, router, tried.id, tried.trial, configured);
    }

    /** Back to the last good profile, if there is one in the pool; the barrier is down when this is tried. */
    method Rollback(runtime: WatchdogRuntime, router: RuntimeDriverRouter, pool: seq<string>, w: Answers, configured: bool,
        ghost s: State, ghost r: Router, ghost done: seq<Tried>)
      returns (outcome: Outcome)
      requires Stands(runtime, router, s, r, done, configured) && GoesOn(done)
      modifies this, runtime, router
      ensures var back := RollBack(old(Memory()), pool, w);
              && Stands(runtime, router, s, r, done + back, configured)
              && outcome == Ending(back) && Memory() == After(old(Memory()), outcome)
    {
      hide RouterRun, Calls, TryCalls, TryStatus, Stands, Remember;
      if lastGood == "" || lastGood !in pool {
        assert done + [] == done;
        return NoSuccess;
      }
      var tried := Tried(lastGood, w.rollback, true);
      var status := Attempt(runtime, router, tried, configured, s, r, done);
      outcome := Ended(tried, status);
      if status.Worked? {
        RememberProfile(tried.id);
      }
    }

    method Succeed(id: string)
      modifies this
      ensures Memory() == After(old(Memory()), Success(id, false))
    {
      RememberProfile(id);
      lastGood := id;
    }

    /** A profile connected without a rotation counts as used and as the last good one; no id changes nothing. */
    method RecordSuccessfulProfile(id: string)
      modifies this
      ensures Memory() == Recorded(old(Memory()), id)
      ensures if id == "" then Memory() == old(Memory()) else lastGood == id && last == id
    {
      if id != "" {
        Succeed(id);
      }
    }

    /** One turn of the loop: candidate `n` and, when it is time, back to the last good profile. */
    method Turn(runtime: WatchdogRuntime, router: RuntimeDriverRouter, pool: seq<string>, candidates: seq<string>, n: nat,
        rolled: bool, w: Answers, configured: bool, ghost s: State, ghost r: Router, ghost done: seq<Tried>, ghost all: seq<Tried>)
      returns (outcome: Outcome, back: bool, ghost next: seq<Tried>)
      requires n < |candidates| && n < maxAttempts && Stands(runtime, router, s, r, done, configured) && GoesOn(done)
      requires Plan(all, done, Cycle(Memory(), pool, candidates, n, rolled, w))
      modifies this, runtime, router
      ensures Stands(runtime, router, s, r, next, configured) && outcome == Ending(next) && Memory() == After(old(Memory()), outcome)
      ensures if outcome.NoSuccess?
              then GoesOn(next) && Plan(all, next, Cycle(old(Memory()), pool, candidates, n + 1, rolled || back, w))
              else next == all
    {
      hide RouterRun, Calls, TryCalls, TryStatus, Stands, Remember, Cycle, Return, RollBack, GoesOn, Ending;
      ghost var e := Memory();
      var tried := Tried(candidates[n], w.trials(n), false);
      CycleAt(e, pool, candidates, n, rolled, w, done);
      EndingTail(done, [tried]);
      EndingOne(tried);
      var status := Attempt(runtime, router, tried, configured, s, r, done);
      next := done + [tried];
      outcome, back := Ended(tried, status), false;
      if status.Worked? {
        Succeed(tried.id);
      }
      if !status.DidNotWork? {
        return;
      }
      back := !rolled && (n + 1 >= maxFails || w.failed(n) - w.start >= maxDegraded);
      if back {
        ReturnAt(e, pool, candidates, n + 1, w, next);
        EndingTail(next, RollBack(e, pool, w));
        outcome := Rollback(runtime, router, pool, w, configured, s, r, next);
        next := next + RollBack(e, pool, w);
      }
    }

    /**
     * The loop over the candidates: what it has made of runtime and router is what its
     * tries ask for, and it ends as the last of them says.
     */
    method RunCycle(runtime: WatchdogRuntime, router: RuntimeDriverRouter, pool: seq<string>, candidates: seq<string>,
        w: Answers, configured: bool)
      returns (outcome: Outcome)
      modifies this, runtime, router
      ensures var e := old(Memory());
              var tries := Cycle(e, pool, candidates, 0, false, w);
              && Stands(runtime, router, old(runtime.Current()), old(router.Standing()), tries, configured)
              && outcome == Ending(tries) && Memory() == After(e, outcome)
    {
      hide RouterRun, Calls, Stands, After, Plan, Cycle, RollBack, GoesOn, Ending;
      ghost var e, s, r := Memory(), runtime.Current(), router.Standing();
      ghost var all := Cycle(e, pool, candidates, 0, false, w);
      ghost var done: seq<Tried> := [];
      NothingDone(runtime, router, all, configured);
      NothingChanged(e);
      var attempts, rolled := 0, false;
      while attempts < |candidates| && attempts < maxAttempts
        invariant 0 <= attempts <= |candidates| && Memory() == e
        invariant GoesOn(done) && Stands(runtime, router, s, r, done, configured)
        invariant Plan(all, done, Cycle(e, pool, candidates, attempts, rolled, w))
      {
        var back: bool;
        outcome, back, done := Turn(runtime, router, pool, candidates, attempts, rolled, w, configured, s, r, done, all);
        if !outcome.NoSuccess? {
          return;
        }
        attempts, rolled := attempts + 1, rolled || back;
      }
      CycleEnd(e, pool, candidates, attempts, rolled, w, done, all);
      EndingTail(done, if rolled then [] else RollBack(e, pool, w));
      if !rolled {
        outcome := Rollback(runtime, router, pool, w, configured, s, r, done);
      } else {
        outcome := NoSuccess;
      }
    }

    /** One profile only, nothing at all, or the cycle; the engine makes exactly the calls of its tries. */
    method Rotate(runtime: WatchdogRuntime, router: RuntimeDriverRouter, pool: seq<string>, force: bool, w: Answers, configured: bool)
      returns (outcome: Outcome)
      modifies this, runtime, router
      ensures var tries := Tries(old(Memory()), pool, force, w);
              && (runtime.Current(), router.Standing()) ==
                 RouterRun(old(runtime.Current()), old(router.Standing()), Calls(tries), configured)
              && outcome == Ending(tries) && Memory() == EngineAfter(old(Memory()), pool, force, w)
      ensures old(RouterOk(runtime.Current(), router.Standing())) ==> RouterOk(runtime.Current(), router.Standing())
      ensures Ends(runtime.events, |old(runtime.events)|)
      ensures !old(runtime.cleanupBarrierFailed) ==>
                Left(old(runtime.Current()), old(router.Standing()), runtime.Current(), router.Standing(), Tries(old(Memory()), pool, force, w))
    {
      hide RouterOk, RouterRun, Calls, Cycle, Candidates, Blocked, TryCalls, TryStatus, Ends, Remember, Left;
      ghost var e, s, r := Memory(), runtime.Current(), router.Standing();
      ghost var tries := Tries(e, pool, force, w);
      RotateLeaves(e, pool, force, w, s, r, configured);
      NothingDone(runtime, router, tries, configured);
      cleanupBarrierFailed := false;
      if pool == [] {
        return NoSuccess;
      }
      if |pool| == 1 {
        var tried := Tried(pool[0], w.trials(0), false);
        var status := Attempt(runtime, router, tried, configured, s, r, []);
        assert [] + [tried] == tries;
        if status.Worked? {
          Succeed(tried.id);
        }
        outcome := Ended(tried, status);
      } else {
        var can := CanRotateNow(|pool|, w.now, force);
        if !can {
          return NoSuccess;
        }
        var candidates := SelectCandidates(pool);
        outcome := RunCycle(runtime, router, pool, candidates, w, configured);
      }
      if !outcome.Exception? {
        lastAt := Some(w.end);
      }
    }
  }

  /** What any rotation leaves, from its calls. */
  lemma RotateLeaves(e: Engine, pool: seq<string>, force: bool, w: Answers, s: State, r: Router, configured: bool)
    ensures var tries := Tries(e, pool, force, w);
            var (t, next) := RouterRun(s, r, Calls(tries), configured);
            && (RouterOk(s, r) ==> RouterOk(t, next)) && Ends(t.events, |s.events|)
            && (!s.barrierFailed ==> Left(s, r, t, next, tries))
  {
    var tries := Tries(e, pool, force, w);
    assert Clean(s.events, |s.events|);
    hide RouterOk, Tries, Calls, RouterRun, Clean, Ends, StopsAtFailure, AllTornDown, Left;
    EngineStopsAtFailure(e, pool, force, w);
    RouterRunEnds(s, r, Calls(tries), configured, |s.events|);
    if RouterOk(s, r) {
      RouterRunKeeps(s, r, Calls(tries), configured);
    }
    if !s.barrierFailed {
      TriesOrder(e, pool, force, w);
      TriesEffect(s, r, tries, configured);
    }
  }

  lemma CycleAt(e: Engine, pool: seq<string>, candidates: seq<string>, n: nat, rolled: bool, w: Answers, done: seq<Tried>)
    requires n < |candidates| && n < e.maxAttempts
    ensures var tried := [Tried(candidates[n], w.trials(n), false)];
            done + Cycle(e, pool, candidates, n, rolled, w) == (done + tried) +
            if !GoesOn(tried) then []
            else if !rolled && (n + 1 >= e.maxFails || Late(e, w, n)) then Return(e, pool, candidates, n + 1, w)
            else Cycle(e, pool, candidates, n + 1, rolled, w)
  {
    hide GoesOn, Return;
  }

  lemma ReturnAt(e: Engine, pool: seq<string>, candidates: seq<string>, n: nat, w: Answers, done: seq<Tried>)
    requires n <= |candidates|
    ensures var way := RollBack(e, pool, w);
            done + Return(e, pool, candidates, n, w) == (done + way) + if GoesOn(way) then Cycle(e, pool, candidates, n, true, w) else []
  {
    hide GoesOn, RollBack, Cycle;
  }

  lemma CycleEnd(e: Engine, pool: seq<string>, candidates: seq<string>, n: nat, rolled: bool, w: Answers, done: seq<Tried>, all: seq<Tried>)
    requires n <= |candidates| && (n == |candidates| || n >= e.maxAttempts)
    requires Plan(all, done, Cycle(e, pool, candidates, n, rolled, w))
    ensures all == if rolled then done else done + RollBack(e, pool, w)
  {
  }

  /** The tries made and those still planned. */
  ghost predicate Plan(all: seq<Tried>, done: seq<Tried>, rest: seq<Tried>) {
    all == done + rest
  }

  lemma NothingDone(runtime: WatchdogRuntime, router: RuntimeDriverRouter, all: seq<Tried>, configured: bool)
    ensures Stands(runtime, router, runtime.Current(), router.Standing(), [], configured) && GoesOn([]) && Plan(all, [], all)
  {
  }

  lemma NothingChanged(e: Engine)
    ensures After(e, NoSuccess) == e
  {
  }

  lemma EndingOne(tried: Tried)
    ensures Ending([tried]) == Ended(tried, TryStatus(tried.trial))
  {
    hide TryStatus;
  }

  lemma EndingTail(done: seq<Tried>, more: seq<Tried>)
    requires GoesOn(done)
    ensures Ending(done + more) == Ending(more) && (more == [] ==> Ending(done) == NoSuccess) && (GoesOn(more) <==> Ending(more).NoSuccess?)
    ensures GoesOn(more) ==> GoesOn(done + more)
  {
    hide TryStatus;
    if more == [] {
      assert done + more == done;
    }
  }
}
