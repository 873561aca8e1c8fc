/**
 * What one rotation of the engine does: which profiles it tries, in which order,
 * what it asks of the router for each, and how it ends.
 */
module RotationCycle {
  import opened Common
  import opened ConnectionLifecycle
  import opened TeardownBarrier

  // ---------------------------------------------------------------------
  // One profile
  // ---------------------------------------------------------------------

  datatype Health = Healthy | Unhealthy | Broken

  /** Everything the outside answers while one profile is tried. */
  datatype Trial = Trial(
    preparation: Preparation, teardown: Teardown, again: Preparation,
    protection: Protection, opening: Opening, health: Health, cleanup: Teardown)

  /** Worked, did not work but left nothing behind, could not be cleaned up, or an exception escaped. */
  datatype Status = Worked | DidNotWork | NotCleanedUp | Threw

  predicate Raises(t: Trial) {
    t.protection.Verified? && t.opening.Raised?
  }

  predicate Opens(t: Trial) {
    t.protection.Verified? && t.opening.Opened?
  }

  function TryStatus(t: Trial): Status {
    if t.preparation.NotPrepared? then DidNotWork
    else if !t.teardown.TornDown? then NotCleanedUp
    else if Raises(t) || (Opens(t) && t.health.Broken?) then Threw
    else if Opens(t) && t.health.Healthy? then Worked
    else if t.cleanup.TornDown? then DidNotWork
    else NotCleanedUp
  }

  function TryCalls(id: string, t: Trial): seq<RouterCall> {
    var preflight := [Preflight(id, t.preparation)];
    if t.preparation.NotPrepared? then preflight
    else
      var torn := preflight + [RouterDisconnect(t.teardown)];
      if !t.teardown.TornDown? then torn
      else
        var tried := torn + [RouterConnect(id, t.again, t.protection, t.opening)];
        if Raises(t) || (Opens(t) && !t.health.Unhealthy?) then tried else tried + [RouterDisconnect(t.cleanup)]
  }

  // ---------------------------------------------------------------------
  // The cycle over the pool
  // ---------------------------------------------------------------------

  /** What the engine remembers and how it is set up; an empty id stands for none. */
  datatype Engine = Engine(recentKeep: int, maxAttempts: int, maxFails: int, maxDegraded: real, interval: real, multiplier: real,
      last: string, recent: seq<string>, lastGood: string, lastAt: Option<real>)

  /** The clock is read on asking (`now`), when the cycle starts, after each failed attempt and at the end. */
  datatype Answers = Answers(trials: nat -> Trial, rollback: Trial, now: real, start: real, failed: nat -> real, end: real)

  /** Small pools wait longer. */
  function Wait(e: Engine, size: nat): real {
    if size <= 3 then e.interval * e.multiplier else e.interval
  }

  predicate Due(e: Engine, size: nat, now: real) {
    e.lastAt.None? || now - e.lastAt.value >= Wait(e, size)
  }

  /** The cycle has been degraded for too long when attempt `n` has failed. */
  predicate Late(e: Engine, w: Answers, n: nat) {
    w.failed(n) - w.start >= e.maxDegraded
  }

  predicate Blocked(e: Engine, id: string) {
    id in e.recent || (e.last != "" && id == e.last)
  }

  function Unblocked(e: Engine, pool: seq<string>): seq<string> {
    if pool == [] then []
    else Unblocked(e, pool[..|pool| - 1]) + if Blocked(e, pool[|pool| - 1]) then [] else [pool[|pool| - 1]]
  }

  function Candidates(e: Engine, pool: seq<string>): seq<string> {
    if Unblocked(e, pool) != [] then Unblocked(e, pool) else pool
  }

  /** One profile tried, as a candidate or to go back to the last good one. */
  datatype Tried = Tried(id: string, trial: Trial, rollback: bool)

  predicate CanRollBack(e: Engine, pool: seq<string>) {
    e.lastGood != "" && e.lastGood in pool
  }

  function RollBack(e: Engine, pool: seq<string>, w: Answers): seq<Tried> {
    if CanRollBack(e, pool) then [Tried(e.lastGood, w.rollback, true)] else []
  }

  predicate GoesOn(tries: seq<Tried>) {
    tries == [] || TryStatus(tries[|tries| - 1].trial).DidNotWork?
  }

  /** From the `n`-th candidate on; `rolled` says that going back has been tried. */
  function Cycle(e: Engine, pool: seq<string>, candidates: seq<string>, n: nat, rolled: bool, w: Answers): seq<Tried>
    requires n <= |candidates|
    decreases |candidates| - n, 0
  {
    if n == |candidates| || n >= e.maxAttempts then
      if rolled then [] else RollBack(e, pool, w)
    else
      var tried := [Tried(candidates[n], w.trials(n), false)];
      if !GoesOn(tried) then tried
      else if !rolled && (n + 1 >= e.maxFails || Late(e, w, n)) then tried + Return(e, pool, candidates, n + 1, w)
      else tried + Cycle(e, pool, candidates, n + 1, rolled, w)
  }

  /** Back to the last good profile and, if that does not work, on. */
  function Return(e: Engine, pool: seq<string>, candidates: seq<string>, n: nat, w: Answers): seq<Tried>
    requires n <= |candidates|
    decreases |candidates| - n, 1
  {
    var back := RollBack(e, pool, w);
    if !GoesOn(back) then back else back + Cycle(e, pool, candidates, n, true, w)
  }

  function Tries(e: Engine, pool: seq<string>, force: bool, w: Answers): seq<Tried> {
    if pool == [] then []
    else if |pool| == 1 then [Tried(pool[0], w.trials(0), false)]
    else if !force && !Due(e, |pool|, w.now) then []
    else Cycle(e, pool, Candidates(e, pool), 0, false, w)
  }

  function Calls(tries: seq<Tried>): seq<RouterCall> {
    if tries == [] then []
    else Calls(tries[..|tries| - 1]) + TryCalls(tries[|tries| - 1].id, tries[|tries| - 1].trial)
  }

  datatype Outcome = Success(profile: string, rolledBack: bool) | Uncleaned | NoSuccess | Exception

  function Ended(tried: Tried, status: Status): Outcome {
    match status
    case Worked => Success(tried.id, tried.rollback)
    case DidNotWork => NoSuccess
    case NotCleanedUp => Uncleaned
    case Threw => Exception
  }

  function Ending(tries: seq<Tried>): Outcome {
    if tries == [] then NoSuccess else Ended(tries[|tries| - 1], TryStatus(tries[|tries| - 1].trial))
  }

  /** What the watchdog does with it; an exception ends the operation like a failed cleanup. */
  function Reported(outcome: Outcome): Rotation {
    match outcome
    case Success(profile, _) => Rotated(profile)
    case Uncleaned => CleanupFailed
    case NoSuccess => AllFailed
    case Exception => CleanupFailed
  }

  function Kept(items: seq<string>, k: int): seq<string> {
    if k >= |items| then items else if k >= 0 then items[..k] else if |items| + k >= 0 then items[..|items| + k] else []
  }

  function Without(items: seq<string>, id: string): seq<string> {
    if items == [] then []
    else Without(items[..|items| - 1], id) + if items[|items| - 1] == id then [] else [items[|items| - 1]]
  }

  function Remember(e: Engine, id: string): Engine {
    e.(last := id, recent := Kept([id] + Without(e.recent, id), e.recentKeep))
  }

  function After(e: Engine, outcome: Outcome): Engine {
    match outcome
    case Success(id, rolledBack) => if rolledBack then Remember(e, id) else Remember(e, id).(lastGood := id)
    case _ => e
  }

  /** A rotation that was due and ended normally is dated. */
  function EngineAfter(e: Engine, pool: seq<string>, force: bool, w: Answers): Engine {
    var outcome := Ending(Tries(e, pool, force, w));
    if pool == [] || (|pool| > 1 && !force && !Due(e, |pool|, w.now)) || outcome.Exception? then After(e, outcome)
    else After(e, outcome).(lastAt := Some(w.end))
  }

  // ---------------------------------------------------------------------
  // The order of the tries
  // ---------------------------------------------------------------------

  predicate OnlyLastEnds(tries: seq<Tried>) {
    forall i :: 0 <= i < |tries| - 1 ==> TryStatus(tries[i].trial).DidNotWork?
  }

  lemma OnlyLastConcat(a: seq<Tried>, b: seq<Tried>)
    requires OnlyLastEnds(a) && GoesOn(a) && OnlyLastEnds(b)
    ensures OnlyLastEnds(a + b)
  {
    var all := a + b;
    forall i | 0 <= i < |all| - 1 ensures TryStatus(all[i].trial).DidNotWork? {
      assert all[i] == if i < |a| then a[i] else b[i - |a|];
    }
  }

  lemma {:induction false} CycleOrder(e: Engine, pool: seq<string>, candidates: seq<string>, n: nat, rolled: bool, w: Answers)
    requires n <= |candidates|
    ensures OnlyLastEnds(Cycle(e, pool, candidates, n, rolled, w))
    decreases |candidates| - n, 0
  {
    if n < |candidates| && n < e.maxAttempts {
      var tried := [Tried(candidates[n], w.trials(n), false)];
      hide TryStatus;
      if GoesOn(tried) {
        CycleOrder(e, pool, candidates, n + 1, rolled, w);
        OnlyLastConcat(tried, Cycle(e, pool, candidates, n + 1, rolled, w));
        ReturnOrder(e, pool, candidates, n + 1, w);
        OnlyLastConcat(tried, Return(e, pool, candidates, n + 1, w));
      }
    }
  }

  lemma {:induction false} ReturnOrder(e: Engine, pool: seq<string>, candidates: seq<string>, n: nat, w: Answers)
    requires n <= |candidates|
    ensures OnlyLastEnds(Return(e, pool, candidates, n, w))
    decreases |candidates| - n, 1
  {
    var back := RollBack(e, pool, w);
    hide TryStatus;
    if GoesOn(back) {
      CycleOrder(e, pool, candidates, n, true, w);
      OnlyLastConcat(back, Cycle(e, pool, candidates, n, true, w));
    }
  }

  /** Every try but the last has failed and left nothing behind. */
  lemma TriesOrder(e: Engine, pool: seq<string>, force: bool, w: Answers)
    ensures OnlyLastEnds(Tries(e, pool, force, w))
  {
    hide TryStatus, Cycle, Candidates;
    if |pool| > 1 {
      CycleOrder(e, pool, Candidates(e, pool), 0, false, w);
    }
  }

  /** The candidates among the tries, in order. */
  function Forward(tries: seq<Tried>): seq<string> {
    if tries == [] then []
    else Forward(tries[..|tries| - 1]) + if tries[|tries| - 1].rollback then [] else [tries[|tries| - 1].id]
  }

  function Backward(tries: seq<Tried>): seq<string> {
    if tries == [] then []
    else Backward(tries[..|tries| - 1]) + if tries[|tries| - 1].rollback then [tries[|tries| - 1].id] else []
  }

  lemma {:induction false} ForwardConcat(a: seq<Tried>, b: seq<Tried>)
    ensures Forward(a + b) == Forward(a) + Forward(b) && Backward(a + b) == Backward(a) + Backward(b)
  {
    if b == [] {
      assert a + b == a;
    } else {
      assert (a + b)[..|a + b| - 1] == a + b[..|b| - 1];
      ForwardConcat(a, b[..|b| - 1]);
    }
  }

  lemma ForwardOne(t: Tried)
    ensures Forward([t]) == (if t.rollback then [] else [t.id]) && Backward([t]) == if t.rollback then [t.id] else []
  {
    assert [t][..0] == [];
  }

  lemma RollBackOnce(e: Engine, pool: seq<string>, w: Answers)
    ensures Forward(RollBack(e, pool, w)) == [] && Backward(RollBack(e, pool, w)) == if CanRollBack(e, pool) then [e.lastGood] else []
  {
    ForwardOne(Tried(e.lastGood, w.rollback, true));
  }

  /** How far a cycle from candidate `n` got. */
  predicate InBounds(e: Engine, pool: seq<string>, candidates: seq<string>, n: nat, rolled: bool, forward: seq<string>, backward: seq<string>)
    requires n <= |candidates|
  {
    && forward <= candidates[n..] && (forward == [] || n + |forward| <= e.maxAttempts)
    && (backward == [] || (!rolled && CanRollBack(e, pool) && backward == [e.lastGood]))
  }

  lemma BoundsStep(e: Engine, pool: seq<string>, candidates: seq<string>, n: nat, rolled: bool, forward: seq<string>, backward: seq<string>)
    requires n < |candidates| && n < e.maxAttempts && InBounds(e, pool, candidates, n + 1, rolled, forward, backward)
    ensures InBounds(e, pool, candidates, n, rolled, [candidates[n]] + forward, backward)
  {
    hide CanRollBack;
    assert candidates[n..] == [candidates[n]] + candidates[n + 1..];
  }

  lemma {:induction false} CycleProfiles(e: Engine, pool: seq<string>, candidates: seq<string>, n: nat, rolled: bool, w: Answers)
    requires n <= |candidates|
    ensures var tries := Cycle(e, pool, candidates, n, rolled, w);
            InBounds(e, pool, candidates, n, rolled, Forward(tries), Backward(tries))
    decreases |candidates| - n, 0
  {
    if n == |candidates| || n >= e.maxAttempts {
      RollBackOnce(e, pool, w);
    } else {
      var tried := [Tried(candidates[n], w.trials(n), false)];
      ForwardOne(tried[0]);
      var back := !rolled && (n + 1 >= e.maxFails || Late(e, w, n));
      var rest := if !GoesOn(tried) then [] else if back then Return(e, pool, candidates, n + 1, w)
                  else Cycle(e, pool, candidates, n + 1, rolled, w);
      assert Cycle(e, pool, candidates, n, rolled, w) == tried + rest;
      if GoesOn(tried) {
        if back {
          ReturnProfiles(e, pool, candidates, n + 1, w);
        } else {
          CycleProfiles(e, pool, candidates, n + 1, rolled, w);
        }
      }
      hide Cycle, Return, GoesOn;
      ForwardConcat(tried, rest);
      assert InBounds(e, pool, candidates, n + 1, rolled, Forward(rest), Backward(rest));
      hide Forward, Backward, InBounds;
      BoundsStep(e, pool, candidates, n, rolled, Forward(rest), Backward(rest));
    }
  }

  lemma {:induction false} ReturnProfiles(e: Engine, pool: seq<string>, candidates: seq<string>, n: nat, w: Answers)
    requires n <= |candidates|
    ensures var tries := Return(e, pool, candidates, n, w);
            InBounds(e, pool, candidates, n, false, Forward(tries), Backward(tries))
    decreases |candidates| - n, 1
  {
    RollBackOnce(e, pool, w);
    var back := RollBack(e, pool, w);
    if GoesOn(back) {
      CycleProfiles(e, pool, candidates, n, true, w);
      hide Cycle, GoesOn, RollBack;
      ForwardConcat(back, Cycle(e, pool, candidates, n, true, w));
      hide Forward, Backward;
    }
  }

  lemma {:induction false} UnblockedMeans(e: Engine, pool: seq<string>, id: string)
    ensures id in Unblocked(e, pool) <==> id in pool && !Blocked(e, id)
  {
    if pool != [] {
      UnblockedMeans(e, pool[..|pool| - 1], id);
    }
  }

  /** A profile used lately is a candidate only when all of them were. */
  lemma CandidatesAvoidRecent(e: Engine, pool: seq<string>, id: string)
    ensures id in Candidates(e, pool) <==> id in pool && (Blocked(e, id) ==> forall q :: q in pool ==> Blocked(e, q))
  {
    hide Blocked, Unblocked;
    UnblockedMeans(e, pool, id);
    if Unblocked(e, pool) != [] {
      UnblockedMeans(e, pool, Unblocked(e, pool)[0]);
    }
    forall q | q in pool && !Blocked(e, q) ensures Unblocked(e, pool) != [] {
      UnblockedMeans(e, pool, q);
    }
  }

  /**
   * A rotation tries the candidates in order, each once and no more than allowed, and
   * goes back at most once, to the last good profile if that is in the pool.
   */
  lemma TriesProfiles(e: Engine, pool: seq<string>, force: bool, w: Answers)
    ensures var tries := Tries(e, pool, force, w);
            && Forward(tries) <= (if |pool| == 1 then pool else Candidates(e, pool))
            && (|pool| > 1 && Forward(tries) != [] ==> |Forward(tries)| <= e.maxAttempts)
            && (Backward(tries) == [] || (CanRollBack(e, pool) && Backward(tries) == [e.lastGood]))
  {
    hide Cycle, Candidates;
    if |pool| == 1 {
      ForwardOne(Tries(e, pool, force, w)[0]);
    } else if pool != [] {
      CycleProfiles(e, pool, Candidates(e, pool), 0, false, w);
      assert Candidates(e, pool)[0..] == Candidates(e, pool);
    }
  }

  // ---------------------------------------------------------------------
  // The calls on the router
  // ---------------------------------------------------------------------

  /** No teardown among the calls has failed. */
  predicate AllTornDown(calls: seq<RouterCall>) {
    forall i :: 0 <= i < |calls| && calls[i].RouterDisconnect? ==> calls[i].teardown.TornDown?
  }

  lemma TryStops(id: string, t: Trial)
    ensures StopsAtFailure(TryCalls(id, t)) && (AllTornDown(TryCalls(id, t)) <==> !TryStatus(t).NotCleanedUp?)
  {
    var calls := TryCalls(id, t);
    if t.preparation.Prepared? {
      assert calls[1] == RouterDisconnect(t.teardown);
      if |calls| == 4 {
        assert calls[3] == RouterDisconnect(t.cleanup);
      }
    }
  }

  lemma StopsConcat(a: seq<RouterCall>, b: seq<RouterCall>)
    requires AllTornDown(a) && StopsAtFailure(b)
    ensures StopsAtFailure(a + b) && (AllTornDown(a + b) <==> AllTornDown(b))
  {
    var all := a + b;
    assert forall i :: 0 <= i < |all| ==> all[i] == if i < |a| then a[i] else b[i - |a|];
    if AllTornDown(all) {
      forall i | 0 <= i < |b| && b[i].RouterDisconnect? ensures b[i].teardown.TornDown? {
        assert all[|a| + i] == b[i];
      }
    }
  }

  lemma {:induction false} CallsStop(tries: seq<Tried>)
    requires OnlyLastEnds(tries)
    ensures StopsAtFailure(Calls(tries)) && (AllTornDown(Calls(tries)) <==> !Ending(tries).Uncleaned?)
  {
    if tries != [] {
      var init, last := tries[..|tries| - 1], tries[|tries| - 1];
      assert OnlyLastEnds(init) && GoesOn(init);
      hide TryStatus, TryCalls, StopsAtFailure, AllTornDown, OnlyLastEnds;
      CallsStop(init);
      TryStops(last.id, last.trial);
      StopsConcat(Calls(init), TryCalls(last.id, last.trial));
    }
  }

  /**
   * Whatever happens, the engine makes no call after a teardown that failed, and it
   * reports a failed cleanup exactly when a teardown has failed.
   */
  lemma EngineStopsAtFailure(e: Engine, pool: seq<string>, force: bool, w: Answers)
    ensures var tries := Tries(e, pool, force, w);
            StopsAtFailure(Calls(tries)) && (AllTornDown(Calls(tries)) <==> !Ending(tries).Uncleaned?)
  {
    hide Tries, Calls, Ending, OnlyLastEnds;
    TriesOrder(e, pool, force, w);
    CallsStop(Tries(e, pool, force, w));
  }

  /** The rotation in an operation is one the engine makes. */
  ghost predicate ByEngine(w: World) {
    exists e: Engine, pool, force, answers: Answers ::
      w.calls == Calls(Tries(e, pool, force, answers)) && w.rotation == Reported(Ending(Tries(e, pool, force, answers)))
  }

  /** In no operation is a driver connected after a teardown of the same operation has failed. */
  lemma FailedTeardownEnds(s: State, op: Operation)
    requires (op.DoTick? || op.DoScheduled? || op.DoRotate?) ==> ByEngine(op.world)
    ensures Ends(Do(s, op).events, |s.events|)
  {
    hide Do, Ends, Calls, Tries, Ending, StopsAtFailure;
    if op.DoTick? || op.DoScheduled? || op.DoRotate? {
      var e: Engine, pool, force, answers: Answers :| op.world.calls == Calls(Tries(e, pool, force, answers))
        && op.world.rotation == Reported(Ending(Tries(e, pool, force, answers)));
      EngineStopsAtFailure(e, pool, force, answers);
    }
    FailedTeardownEndsOperation(s, op);
  }

  // ---------------------------------------------------------------------
  // What a rotation leaves behind
  // ---------------------------------------------------------------------

  lemma {:induction false} RouterRunConcat(s: State, r: Router, a: seq<RouterCall>, b: seq<RouterCall>, configured: bool)
    ensures var (t, next) := RouterRun(s, r, a, configured);
            RouterRun(s, r, a + b, configured) == RouterRun(t, next, b, configured)
    decreases |a|
  {
    hide Routed;
    if a == [] {
      assert a + b == b;
    } else {
      assert (a + b)[1..] == a[1..] + b;
      var (t, next) := Routed(s, r, a[0], configured);
      RouterRunConcat(t, next, a[1..], b, configured);
    }
  }

  lemma RouterRunOne(s: State, r: Router, call: RouterCall, configured: bool)
    ensures RouterRun(s, r, [call], configured) == Routed(s, r, call, configured)
  {
    assert [call][1..] == [];
  }

  /** A prepared candidate after its teardown and connect. */
  function Connecting(s: State, t: Trial, configured: bool): (State, bool)
    requires t.preparation.Prepared?
  {
    var torn := TeardownActive(s, t.teardown).0;
    var (u, ok) := Protect(Activate(torn, t.preparation.driver), t.protection, configured);
    if ok then (Open(u, t.opening), true) else (u, false)
  }

  /** With the candidate prepared and the old driver torn down, the router's connect is never refused. */
  lemma TryConnects(s: State, r: Router, id: string, t: Trial, configured: bool)
    requires t.preparation.Prepared? && t.teardown.TornDown?
    ensures var calls := [Preflight(id, t.preparation)] + [RouterDisconnect(t.teardown)] + [RouterConnect(id, t.again, t.protection, t.opening)];
            var (u, up) := Connecting(s, t, configured);
            RouterRun(s, r, calls, configured) == (u, Router(!up, None)) && (up <==> t.protection.Verified?)
  {
    var preflight := Preflight(id, t.preparation);
    var teardown := RouterDisconnect(t.teardown);
    var connect := RouterConnect(id, t.again, t.protection, t.opening);
    RouterRunConcat(s, r, [preflight] + [teardown], [connect], configured);
    RouterRunConcat(s, r, [preflight], [teardown], configured);
    RouterRunOne(s, r, preflight, configured);
    var prepared := Router(r.verified, Some((id, t.preparation.driver)));
    RouterRunOne(s, prepared, teardown, configured);
    RouterRunOne(TeardownActive(s, t.teardown).0, prepared.(verified := true), connect, configured);
    hide RouterRun, TeardownActive, Open;
  }

  /** What is left when one profile has been tried. */
  ghost predicate LeftBy(s: State, u: State, next: Router, t: Trial) {
    && (u.barrierFailed <==> TryStatus(t).NotCleanedUp?) && u.desired == s.desired
    && (t.preparation.NotPrepared? ==> u == s)
    && (TryStatus(t).Worked? ==> t.preparation.Prepared? && u.driver == t.preparation.driver && u.driver in u.live)
    && (t.preparation.Prepared? && TryStatus(t).DidNotWork? ==> next.verified)
  }

  /** With the old driver torn down: the connect, and the cleanup if it did not do. */
  lemma TryEffectConnecting(s: State, r: Router, id: string, t: Trial, configured: bool)
    requires t.preparation.Prepared? && t.teardown.TornDown?
    ensures var (u, next) := RouterRun(s, r, TryCalls(id, t), configured); LeftBy(s, u, next, t)
  {
    var calls := [Preflight(id, t.preparation)] + [RouterDisconnect(t.teardown)] + [RouterConnect(id, t.again, t.protection, t.opening)];
    TryConnects(s, r, id, t, configured);
    var (u, up) := Connecting(s, t, configured);
    assert !u.barrierFailed && u.desired == s.desired && u.driver == t.preparation.driver && (Opens(t) ==> u.driver in u.live);
    hide RouterRun, Connecting;
    RouterRunConcat(s, r, calls, [RouterDisconnect(t.cleanup)], configured);
    RouterRunOne(u, Router(!up, None), RouterDisconnect(t.cleanup), configured);
  }

  lemma TryEffect(s: State, r: Router, id: string, t: Trial, configured: bool)
    requires !s.barrierFailed
    ensures var (u, next) := RouterRun(s, r, TryCalls(id, t), configured);
            LeftBy(s, u, next, t) && (t.preparation.NotPrepared? ==> next.verified == r.verified)
  {
    if t.preparation.Prepared? && t.teardown.TornDown? {
      hide LeftBy, RouterRun;
      TryEffectConnecting(s, r, id, t, configured);
    } else {
      var preflight := [Preflight(id, t.preparation)];
      var teardown := [RouterDisconnect(t.teardown)];
      RouterRunOne(s, r, preflight[0], configured);
      RouterRunConcat(s, r, preflight, teardown, configured);
      if t.preparation.Prepared? {
        RouterRunOne(s, r.(prepared := Some((id, t.preparation.driver))), teardown[0], configured);
      }
      hide RouterRun;
    }
  }

  /** No candidate passed its preflight. */
  predicate AllRefused(tries: seq<Tried>) {
    forall i :: 0 <= i < |tries| ==> tries[i].trial.preparation.NotPrepared?
  }

  ghost predicate Left(s: State, r: Router, u: State, next: Router, tries: seq<Tried>) {
    && (u.barrierFailed <==> Ending(tries).Uncleaned?) && u.desired == s.desired
    && (AllRefused(tries) ==> u == s && next.verified == r.verified)
    && (Ending(tries).Success? ==>
          && tries != [] && tries[|tries| - 1].id == Ending(tries).profile && tries[|tries| - 1].trial.preparation.Prepared?
          && u.driver == tries[|tries| - 1].trial.preparation.driver && u.driver in u.live)
    && (Ending(tries).NoSuccess? && !AllRefused(tries) ==> next.verified)
  }

  lemma {:induction false} TriesEffect(s: State, r: Router, tries: seq<Tried>, configured: bool)
    requires OnlyLastEnds(tries) && !s.barrierFailed
    ensures var (u, next) := RouterRun(s, r, Calls(tries), configured);
            Left(s, r, u, next, tries)
  {
    if tries != [] {
      var init, last := tries[..|tries| - 1], tries[|tries| - 1];
      assert OnlyLastEnds(init) && GoesOn(init);
      TriesEffect(s, r, init, configured);
      var (u, next) := RouterRun(s, r, Calls(init), configured);
      RouterRunConcat(s, r, Calls(init), TryCalls(last.id, last.trial), configured);
      assert AllRefused(tries) <==> AllRefused(init) && last.trial.preparation.NotPrepared?;
      assert Ending(init).NoSuccess?;
      TryEffect(u, next, last.id, last.trial, configured);
      hide RouterRun, TryCalls, TryStatus, OnlyLastEnds, AllRefused;
    }
  }

  /**
   * After a rotation that ran: on success the stored profile is the one tried last and
   * the live driver is the one prepared for it; the barrier is raised exactly when a
   * teardown failed; without success nothing is live, unless every candidate was refused
   * beforehand, and then the path that was up is still up.
   */
  lemma RotationLeaves(s: State, w: World, force: bool, e: Engine, pool: seq<string>, answers: Answers)
    requires Inv(s) && s.desired == On && (force || w.rotationEnabled) && w.policySupported
    requires w.calls == Calls(Tries(e, pool, force, answers)) && w.rotation == Reported(Ending(Tries(e, pool, force, answers)))
    ensures var tries := Tries(e, pool, force, answers);
            var t := AttemptRotation(s, w, force);
            match Ending(tries)
            case Success(id, _) =>
              && tries != [] && tries[|tries| - 1].id == id && tries[|tries| - 1].trial.preparation.Prepared?
              && t.profile == Some(id) && t.driver == tries[|tries| - 1].trial.preparation.driver && t.live == {t.driver}
            case Uncleaned => t.barrierFailed
            case NoSuccess => !t.barrierFailed && if AllRefused(tries) then t.live == s.live && t.driver == s.driver else t.live == {}
            case Exception => !t.barrierFailed
  {
    var tries := Tries(e, pool, force, answers);
    hide Tries, Calls, OnlyLastEnds, AllRefused, RouterRun, Ending, Guarded, Armed, Owed, Torn;
    TriesOrder(e, pool, force, answers);
    var begin := s.(barrierFailed := false);
    assert RouterOk(begin, Router(false, None));
    TriesEffect(begin, Router(false, None), tries, w.configured);
    RouterRunKeeps(begin, Router(false, None), w.calls, w.configured);
    var (u, next) := RouterRun(begin, Router(false, None), w.calls, w.configured);
    assert u.live <= {u.driver};
    hide Inv;
  }
}
