/**
 * What each operation of the watchdog does, read off its history: which events it
 * adds and what is live, stored and protected afterwards, for all answers.
 */
module LifecycleOutcomes {
  import opened Common
  import opened ConnectionLifecycle
  import opened RotationCycle

  // ---------------------------------------------------------------------
  // Protection
  // ---------------------------------------------------------------------

  /** The policy is applied once, remembered as forced exactly when it is not configured. */
  lemma ProtectOutcome(s: State, a: Protection, configured: bool)
    ensures var (t, ok) := Protect(s, a, configured);
            && ok == a.Verified? && t.events == s.events + [Applied(ok)]
            && (t.active <==> s.active || !a.BatchFailed?) && t.forced == (if ok then !configured else s.forced)
            && (t.driver, t.live, t.desired, t.profile) == (s.driver, s.live, s.desired, s.profile)
  {
  }

  /** A policy that is neither configured nor forced, or that is in order, is left alone; any other is applied anew. */
  lemma MaintainOutcome(s: State, w: World, a: Protection)
    ensures var (t, ok) := Maintain(s, w, a);
            if (w.configured || s.forced) && !w.statusOk
            then ok == a.Verified? && t.events == s.events + [Applied(ok)] && t.forced == s.forced && t.live == s.live
            else ok && t == s
  {
  }

  lemma AllFailedOutcome(s: State, w: World)
    ensures var t := AllFailedProtection(s, w);
            if (w.configured || s.forced) && !w.seenActive
            then t.events == s.events + [Applied(w.lastProtection.Verified?)] && t.live == s.live && t.forced == s.forced
            else t == s
  {
  }

  /** The policy is disabled exactly when it is seen active and not to be kept; only a failed disable leaves it forced. */
  lemma ReleaseOutcome(s: State, w: World)
    ensures var t := ReleaseProtection(s, w);
            var drop := w.seenActive && !w.keepPolicy;
            && t.events == s.events + (if drop then [Disabled] else [])
            && (t.active <==> s.active && (!drop || (!w.disabled && w.stillActive)))
            && (t.forced <==> s.forced && drop && !w.disabled)
            && (t.driver, t.live, t.desired, t.profile) == (s.driver, s.live, s.desired, s.profile)
  {
    assert s.events + [] == s.events;
  }

  lemma TeardownOutcome(s: State, a: Teardown)
    ensures var (t, ok) := TeardownActive(s, a);
            && ok == a.TornDown? && t.barrierFailed == !ok && t.events == s.events + [Disconnected(s.driver, ok)]
            && t.live == (if a == NotTornDown(true) then s.live else s.live - {s.driver})
            && (t.driver, t.desired, t.profile, t.active, t.forced) == (s.driver, s.desired, s.profile, s.active, s.forced)
  {
  }

  // ---------------------------------------------------------------------
  // Connect and disconnect
  // ---------------------------------------------------------------------

  /** Everything a connect needs: a prepared driver, the old one torn down, and the policy verified. */
  predicate WayClear(w: World) {
    w.preparation.Prepared? && w.teardown.TornDown? && w.protection.Verified?
  }

  /** The driver opened and its traffic gets out. */
  predicate Works(w: World) {
    w.opening.Opened? && w.egressOk
  }

  /** How far the way to a connect got, in events. */
  function WayEvents(s: State, w: World): seq<Event> {
    if w.preparation.NotPrepared? then []
    else if !w.teardown.TornDown? then [Disconnected(s.driver, false)]
    else [Disconnected(s.driver, true), Applied(w.protection.Verified?)]
  }

  lemma ReadyOutcome(s: State, w: World)
    ensures var (t, ok) := Ready(s, w);
            && (ok <==> WayClear(w)) && t.events == s.events + WayEvents(s, w)
            && t.desired == s.desired && t.profile == s.profile && t.failures == s.failures
            && (ok ==> t.driver == w.preparation.driver && t.active && !t.barrierFailed && t.live == s.live - {s.driver})
  {
    assert s.events + [] == s.events;
    if w.preparation.Prepared? && w.teardown.TornDown? {
      assert (s.events + [Disconnected(s.driver, true)]) + [Applied(w.protection.Verified?)] ==
             s.events + [Disconnected(s.driver, true), Applied(w.protection.Verified?)];
    }
  }

  lemma OpenOutcome(s: State, a: Opening)
    ensures var t := Open(s, a);
            && t.events == s.events + [Connected(s.driver)] && (a.Opened? ==> s.driver in t.live)
            && t.live <= s.live + {s.driver} && (t.driver, t.desired, t.profile) == (s.driver, s.desired, s.profile)
  {
  }

  /** What a failed manual connect does after the connect itself. */
  lemma FailManualOutcome(s: State, w: World)
    ensures var t := FailManualConnect(s, w);
            var released := if w.seenActive && !w.keepPolicy then [Disabled] else [];
            if w.lastTeardown.TornDown?
            then t.events == s.events + [Disconnected(s.driver, true)] + released && t.desired == Off && t.profile.None?
            else t.events == s.events + [Disconnected(s.driver, false)] && t.desired == s.desired && t.barrierFailed
  {
    TeardownOutcome(s, w.lastTeardown);
    hide TeardownActive, ReleaseProtection;
    ReleaseOutcome(TeardownActive(s, w.lastTeardown).0, w);
  }

  /**
   * A manual connect, by its answers. It succeeds exactly when the way is clear and the
   * driver works; then the prepared driver is current and live and the profile stored.
   * A driver that was opened but does not work is torn down next.
   */
  lemma ConnectOutcome(s: State, id: string, w: World)
    ensures var t := Connect(s, id, w);
            var way := s.events + WayEvents(s, w);
            if !WayClear(w) then t.events == way && t.desired == s.desired && t.profile == s.profile
            else
              var d := w.preparation.driver;
              if Works(w) || w.opening.Raised? then
                && t.events == way + [Connected(d)] && t.driver == d && t.desired == On && t.profile == Some(id)
                && (Works(w) ==> d in t.live && t.active)
              else
                && way + [Connected(d), Disconnected(d, w.lastTeardown.TornDown?)] <= t.events
                && (w.lastTeardown.TornDown? ==> t.desired == Off && t.profile.None?) && (!w.lastTeardown.TornDown? ==> t.barrierFailed)
  {
    ReadyOutcome(s, w);
    hide Ready, FailManualConnect, WayEvents;
    if WayClear(w) {
      var ready := Ready(s, w).0.(desired := On, profile := Some(id));
      OpenOutcome(ready, w.opening);
      var u := Open(ready, w.opening);
      FailManualOutcome(u, w);
      var way, d := s.events + WayEvents(s, w), w.preparation.driver;
      assert (way + [Connected(d)]) + [Disconnected(d, w.lastTeardown.TornDown?)] ==
             way + [Connected(d), Disconnected(d, w.lastTeardown.TornDown?)];
    }
  }

  /** After a successful connect, from a sound state, the prepared driver is the one live driver. */
  lemma ConnectResult(s: State, id: string, w: World)
    requires WayClear(w) && Works(w)
    ensures var t := Connect(s, id, w);
            && t.profile == Some(id) && t.desired == On && t.driver == w.preparation.driver && t.driver in t.live
            && (Inv(s) ==> t.live == {t.driver})
  {
    ConnectOutcome(s, id, w);
    if Inv(s) {
      ConnectKeeps(s, id, w);
    }
    hide Connect;
  }

  lemma ReconnectResult(s: State, w: World)
    requires WayClear(w) && Works(w) && Inv(s) && s.desired == On
    ensures TryReconnect(s, w).0.live == {w.preparation.driver}
  {
    ReconnectOutcome(s, w);
    TryReconnectKeeps(s, w);
    hide TryReconnect;
  }

  /** A manual disconnect succeeds exactly when the teardown does, and then forgets the profile. */
  lemma DisconnectOutcome(s: State, w: World)
    ensures var (t, ok) := Disconnect(s, w);
            var released := if w.seenActive && !w.keepPolicy then [Disabled] else [];
            && ok == w.teardown.TornDown? && t.events == s.events + [Disconnected(s.driver, ok)] + (if ok then released else [])
            && (if ok then t.desired == Off && t.profile.None? else t.desired == s.desired && t.profile == s.profile && t.barrierFailed)
  {
    TeardownOutcome(s, w.teardown);
    hide TeardownActive, ReleaseProtection;
    var t := TeardownActive(s, w.teardown).0;
    ReleaseOutcome(t, w);
    assert t.events + [] == t.events;
  }

  /** A reconnect succeeds exactly when the way is clear and the driver works; the desired state and profile stay. */
  lemma ReconnectOutcome(s: State, w: World)
    ensures var (t, attempt) := TryReconnect(s, w);
            var way := s.events + WayEvents(s, w);
            && t.desired == s.desired && t.profile == s.profile && t.failures == s.failures
            && (attempt.Reconnected? <==> WayClear(w) && Works(w))
            && (attempt.Escaped? <==> WayClear(w) && w.opening.Raised?)
            && if !WayClear(w) then t.events == way
               else
                 var d := w.preparation.driver;
                 && t.driver == d && (attempt.Reconnected? ==> d in t.live && t.active && !t.barrierFailed)
                 && t.events == way + [Connected(d)] +
                                if w.opening.Opened? && !w.egressOk then [Disconnected(d, w.lastTeardown.TornDown?)] else []
  {
    ReadyOutcome(s, w);
    hide Ready, WayEvents;
    if WayClear(w) {
      var ready := Ready(s, w).0;
      OpenOutcome(ready, w.opening);
      var u := Open(ready, w.opening);
      TeardownOutcome(u, w.lastTeardown);
      assert u.events + [] == u.events;
    }
  }

  // ---------------------------------------------------------------------
  // The automatic loop
  // ---------------------------------------------------------------------

  /** The tick gets as far as looking at the runtime's health. */
  predicate Watching(s: State, w: World) {
    && w.readable && s.desired == On && ((w.autoconnectReadable && s.autoconnect) || w.runtimeActive)
    && ((w.configured || s.forced) && !w.statusOk ==> w.firstProtection.Verified?)
  }

  /** It finds a runtime that is not healthy, and may try its profile again. */
  predicate ToReconnect(s: State, w: World) {
    Watching(s, w) && !w.healthOk && w.autoconnectReadable && s.autoconnect && w.canRetry && w.profileFound
  }

  /** A healthy runtime, or one that is not to be touched, is left alone: at most the policy is applied anew. */
  lemma HealthyLeftAlone(s: State, w: World)
    requires w.healthOk || !(w.autoconnectReadable && s.autoconnect) || !w.readable || s.desired != On
    ensures var t := Tick(s, w);
            && (t.driver, t.live, t.desired, t.profile, t.failures) == (s.driver, s.live, s.desired, s.profile, s.failures)
            && (t.events == s.events || t.events == s.events + [Applied(w.firstProtection.Verified?)])
  {
    MaintainOutcome(s, w, w.firstProtection);
    hide Recover;
  }

  /**
   * An unhealthy runtime is reconnected when its profile can be: the prepared driver is
   * live and the failure count starts again.
   */
  lemma UnhealthyReconnected(s: State, w: World)
    requires ToReconnect(s, w) && WayClear(w) && Works(w)
    ensures var t := Tick(s, w);
            && t.driver == w.preparation.driver && t.driver in t.live && t.failures == 0 && t.profile == s.profile
            && (s.events + [Disconnected(s.driver, true)] <= t.events ||
                s.events + [Applied(true), Disconnected(s.driver, true)] <= t.events)
  {
    MaintainOutcome(s, w, w.firstProtection);
    var t := Maintain(s, w, w.firstProtection).0;
    RecoverReconnects(t, w);
    hide Recover;
    if t != s {
      assert s.events + [Applied(true), Disconnected(s.driver, true)] == t.events + [Disconnected(s.driver, true)];
    }
  }

  lemma TickResult(s: State, w: World)
    ensures var t := Tick(s, w);
            && (w.healthOk || !s.autoconnect || s.desired != On ==>
                  (t.driver, t.live, t.profile, t.failures) == (s.driver, s.live, s.profile, s.failures))
            && (ToReconnect(s, w) && WayClear(w) && Works(w) ==>
                  t.driver == w.preparation.driver && t.driver in t.live && t.failures == 0)
  {
    hide Tick;
    if w.healthOk || !s.autoconnect || s.desired != On {
      HealthyLeftAlone(s, w);
    } else if ToReconnect(s, w) && WayClear(w) && Works(w) {
      UnhealthyReconnected(s, w);
    }
  }

  lemma RecoverReconnects(s: State, w: World)
    requires w.canRetry && w.profileFound && WayClear(w) && Works(w)
    ensures var t := Recover(s, w);
            && t.driver == w.preparation.driver && t.driver in t.live && t.failures == 0 && t.profile == s.profile && t.desired == s.desired
            && s.events + [Disconnected(s.driver, true)] <= t.events
  {
    var t := s.(barrierFailed := false);
    ReconnectOutcome(t, w);
    var u := TryReconnect(t, w).0;
    MaintainOutcome(u.(failures := 0), w, w.lastProtection);
    assert s.events + [Disconnected(s.driver, true)] <= u.events;
    hide TryReconnect, Maintain;
  }

  /** The reconnect does not come about and leaves nothing that forbids going on. */
  predicate ReconnectFails(w: World) {
    && w.canRetry
    && (w.profileFound ==>
          && !(WayClear(w) && (Works(w) || w.opening.Raised?))
          && !(w.preparation.Prepared? && !w.teardown.TornDown?)
          && !(WayClear(w) && w.opening.Opened? && !w.lastTeardown.TornDown?))
  }

  /** Nothing is done inside the backoff window. */
  lemma BackoffWaits(s: State, w: World)
    requires !w.canRetry
    ensures Recover(s, w) == s.(barrierFailed := false)
  {
  }

  lemma FailedReconnect(s: State, w: World)
    requires ReconnectFails(w) && w.profileFound && !s.barrierFailed
    ensures var (t, attempt) := TryReconnect(s, w);
            attempt.NotReconnected? && !t.barrierFailed && t.failures == s.failures && t.desired == s.desired && t.profile == s.profile
  {
    ReconnectOutcome(s, w);
    ReadyOutcome(s, w);
    var ready := Ready(s, w).0;
    TeardownOutcome(s, w.teardown);
    if WayClear(w) {
      TeardownOutcome(Open(ready, w.opening), w.lastTeardown);
    }
    hide WayEvents;
  }

  /** Below the configured number of attempts a failed reconnect is counted, and the profile stays. */
  lemma FailureCounted(s: State, w: World)
    requires ReconnectFails(w) && s.failures + 1 < w.attempts
    ensures Recover(s, w).failures == s.failures + 1 && Recover(s, w).profile == s.profile
  {
    var t := s.(barrierFailed := false);
    if w.profileFound {
      FailedReconnect(t, w);
    }
    hide TryReconnect, AttemptRotation;
  }

  /** The engine's rotation is what this operation finds. */
  ghost predicate Rotates(w: World, e: Engine, pool: seq<string>, force: bool, answers: Answers) {
    w.calls == Calls(Tries(e, pool, force, answers)) && w.rotation == Reported(Ending(Tries(e, pool, force, answers)))
  }

  /** A rotation that succeeds leaves the profile it found and that profile's driver as the one live driver. */
  ghost predicate RotatedTo(t: State, tries: seq<Tried>) {
    && Ending(tries).Success? && tries != [] && tries[|tries| - 1].trial.preparation.Prepared?
    && t.profile == Some(Ending(tries).profile) && t.driver == tries[|tries| - 1].trial.preparation.driver && t.live == {t.driver}
  }

  lemma RotationReaches(s: State, w: World, force: bool, e: Engine, pool: seq<string>, answers: Answers)
    requires Inv(s) && s.desired == On && (force || w.rotationEnabled) && w.policySupported
    requires Rotates(w, e, pool, force, answers) && Ending(Tries(e, pool, force, answers)).Success?
    ensures RotatedTo(AttemptRotation(s, w, force), Tries(e, pool, force, answers))
  {
    hide Inv, Tries, Calls, Ending, AttemptRotation;
    RotationLeaves(s, w, force, e, pool, answers);
  }

  /** At the configured number of attempts a failed reconnect starts a rotation and the count starts again. */
  lemma LastFailureRotates(s: State, w: World, e: Engine, pool: seq<string>, answers: Answers)
    requires Inv(s) && s.desired == On && ReconnectFails(w) && s.failures + 1 >= w.attempts
    requires w.rotationEnabled && w.policySupported && Rotates(w, e, pool, false, answers)
    requires Ending(Tries(e, pool, false, answers)).Success?
    ensures RotatedTo(Recover(s, w), Tries(e, pool, false, answers)) && Recover(s, w).failures == 0
  {
    var t := s.(barrierFailed := false);
    assert Inv(t);
    hide Inv, TryReconnect, AttemptRotation, Tries, Calls, Ending, RotatedTo, Rotates;
    var u := t;
    if w.profileFound {
      FailedReconnect(t, w);
      TryReconnectKeeps(t, w);
      u := TryReconnect(t, w).0;
    }
    var v := u.(failures := 0);
    assert Inv(v) by {
      InvFailures(u, 0);
    }
    RotationReaches(v, w, false, e, pool, answers);
    RotationResets(v, w, false);
  }

  lemma InvFailures(s: State, n: nat)
    requires Inv(s)
    ensures Inv(s.(failures := n))
  {
  }

  lemma {:induction false} RouterKeepsCount(s: State, r: Router, calls: seq<RouterCall>, configured: bool)
    ensures RouterRun(s, r, calls, configured).0.failures == s.failures
    decreases |calls|
  {
    if calls != [] {
      var (t, next) := Routed(s, r, calls[0], configured);
      RouterKeepsCount(t, next, calls[1..], configured);
    }
  }

  lemma RotationResets(s: State, w: World, force: bool)
    requires s.failures == 0
    ensures AttemptRotation(s, w, force).failures == 0
  {
    RouterKeepsCount(s.(barrierFailed := false), Router(false, None), w.calls, w.configured);
    hide RouterRun;
  }

  /** A scheduled or a manual rotation that is called for takes place. */
  lemma RotationsTakePlace(s: State, w: World, e: Engine, pool: seq<string>, answers: Answers)
    requires Inv(s) && s.desired == On && w.readable && w.policySupported
    ensures s.autoconnect && w.scheduled && !w.poolEmpty && Rotates(w, e, pool, true, answers) && Ending(Tries(e, pool, true, answers)).Success? ==>
              RotatedTo(ScheduledRotate(s, w), Tries(e, pool, true, answers))
    ensures (w.force || w.rotationEnabled) && Rotates(w, e, pool, w.force, answers) && Ending(Tries(e, pool, w.force, answers)).Success? ==>
              RotatedTo(RotateNow(s, w), Tries(e, pool, w.force, answers))
  {
    hide Inv, AttemptRotation, Tries, Calls, Ending, RotatedTo, Rotates;
    if Rotates(w, e, pool, true, answers) && Ending(Tries(e, pool, true, answers)).Success? {
      RotationReaches(s, w, true, e, pool, answers);
    }
    if (w.force || w.rotationEnabled) && Rotates(w, e, pool, w.force, answers) && Ending(Tries(e, pool, w.force, answers)).Success? {
      RotationReaches(s, w, w.force, e, pool, answers);
    }
  }

  // ---------------------------------------------------------------------
  // Startup and shutdown
  // ---------------------------------------------------------------------

  /** The startup is to restore a connection, and its profile is known and accepted. */
  predicate Restores(s: State, w: World) {
    w.readable && s.desired == On && s.autoconnect && s.profile.Some? && w.profileFound && w.preparation.Prepared?
  }

  /** The protection a startup needs, early or late. */
  predicate StartProtected(w: World) {
    if w.restartProtection then w.firstProtection.Verified? else w.protection.Verified?
  }

  lemma StartConnectionOutcome(s: State, w: World)
    requires s.profile.Some? && w.profileFound && w.preparation.Prepared?
    requires w.teardown.TornDown? && (w.restartProtection || w.protection.Verified?)
    ensures var t := StartConnection(s, w);
            var d := w.preparation.driver;
            && t.driver == d && (Works(w) ==> d in t.live) && t.desired == s.desired && t.profile == s.profile
            && t.events == s.events + [Disconnected(s.driver, true)] + (if w.restartProtection then [] else [Applied(true)]) + [Connected(d)] +
                           if w.opening.Opened? && !w.egressOk then [Disconnected(d, w.lastTeardown.TornDown?)] else []
  {
    TeardownOutcome(s, w.teardown);
    var u := Activate(TeardownActive(s, w.teardown).0, w.preparation.driver);
    ProtectOutcome(u, w.protection, w.configured);
    var v := if w.restartProtection then u else Protect(u, w.protection, w.configured).0;
    OpenOutcome(v, w.opening);
    var x := Open(v, w.opening);
    TeardownOutcome(x, w.lastTeardown);
    assert u.events + [] == u.events && x.events + [] == x.events;
    hide TeardownActive, Protect, Open;
  }

  /**
   * A startup that is to restore the connection does: with the old runtime torn down and
   * the policy verified, first or in between, the prepared driver is connected, and live
   * if it works. Without the protection nothing is connected.
   */
  lemma StartupOutcome(s: State, w: World)
    requires Restores(s, w)
    ensures var t := Startup(s, w);
            var early := if w.restartProtection then [Applied(w.firstProtection.Verified?)] else [];
            && t.desired == On && t.profile == s.profile
            && (StartProtected(w) && w.teardown.TornDown? ==>
                  && t.driver == w.preparation.driver && (Works(w) ==> t.driver in t.live && t.active)
                  && s.events + early + [Disconnected(s.driver, true)] <= t.events)
            && (w.restartProtection && !w.firstProtection.Verified? ==> t.events == s.events + early)
  {
    ProtectOutcome(s, w.firstProtection, w.configured);
    var t := if w.restartProtection then Protect(s, w.firstProtection, w.configured).0 else s;
    assert s.events + [] == s.events;
    if StartProtected(w) && w.teardown.TornDown? {
      StartConnectionOutcome(t, w);
      StartConnectionActive(t, w);
    } else if !w.restartProtection || w.firstProtection.Verified? {
      StartConnectionKeepsProfile(t, w);
    }
    hide StartConnection, Protect;
  }

  lemma StartConnectionActive(s: State, w: World)
    requires s.profile.Some? && w.profileFound && w.preparation.Prepared? && w.teardown.TornDown?
    requires if w.restartProtection then s.active else w.protection.Verified?
    ensures StartConnection(s, w).active
  {
  }

  lemma StartConnectionKeepsProfile(s: State, w: World)
    ensures StartConnection(s, w).profile == s.profile && StartConnection(s, w).desired == s.desired
  {
    hide TeardownActive, Protect, Open;
    TeardownOutcome(s, w.teardown);
    if w.preparation.Prepared? {
      var u := Activate(TeardownActive(s, w.teardown).0, w.preparation.driver);
      ProtectOutcome(u, w.protection, w.configured);
      var v := if w.restartProtection then u else Protect(u, w.protection, w.configured).0;
      OpenOutcome(v, w.opening);
      TeardownOutcome(Open(v, w.opening), w.lastTeardown);
    }
  }

  /**
   * With autoconnect off a startup goes to standby: the policy is disabled if it is seen
   * active, and the desired state is off once nothing of it is left.
   */
  lemma StandbyOutcome(s: State, w: World)
    requires w.readable && s.desired == On && !s.autoconnect
    ensures var t := Startup(s, w);
            && t.events == s.events + (if w.dnsRestored && w.seenActive then [Disabled] else []) && t.live == s.live
            && (t.desired == Off <==> w.dnsRestored && (w.seenActive ==> w.disabled && !w.stillActive))
            && (t.desired == Off ==> t.profile.None? && !t.forced)
  {
    assert s.events + [] == s.events;
  }

  /** With nothing to restore a startup does nothing. */
  lemma NothingToRestore(s: State, w: World)
    requires !w.readable || s.desired != On
    ensures Startup(s, w) == s
  {
  }

  /**
   * A shutdown stops the driver. With the desired state on, or unreadable, the policy is
   * applied first and stays; otherwise it is released afterwards as on a disconnect.
   */
  lemma ShutdownOutcome(s: State, w: World)
    ensures var t := Shutdown(s, w);
            var stopped := Disconnected(s.driver, w.teardown.TornDown?);
            && t.profile == s.profile && t.driver == s.driver
            && t.live == (if w.teardown == NotTornDown(true) then s.live else s.live - {s.driver})
            && t.events == s.events +
               if !w.readable || s.desired == On then [Applied(w.protection.Verified?), stopped]
               else [stopped] + if w.seenActive && !w.keepPolicy then [Disabled] else []
  {
    ProtectOutcome(s, w.protection, w.configured);
    var desiredOn := !w.readable || s.desired == On;
    var t := if desiredOn then Protect(s, w.protection, w.configured).0 else s;
    var u := Detach(t, w.teardown);
    ReleaseOutcome(u, w);
    hide Protect, ReleaseProtection;
    var stopped := Disconnected(s.driver, w.teardown.TornDown?);
    assert (s.events + [Applied(w.protection.Verified?)]) + [stopped] == s.events + [Applied(w.protection.Verified?), stopped];
    var released := if w.seenActive && !w.keepPolicy then [Disabled] else [];
    assert (s.events + [stopped]) + released == s.events + ([stopped] + released);
  }
}
