/**
 * A teardown that fails ends the operation it belongs to: nothing is connected
 * after it until the next operation.
 */
module TeardownBarrier {
  import opened Common
  import opened ConnectionLifecycle

  /** Every teardown but the last call succeeds. */
  predicate StopsAtFailure(calls: seq<RouterCall>) {
    forall i :: 0 <= i < |calls| - 1 && calls[i].RouterDisconnect? ==> calls[i].teardown.TornDown?
  }

  predicate Failed(e: Event) {
    e.Disconnected? && !e.ok
  }

  /** From event `n` on no teardown has failed. */
  predicate Clean(events: seq<Event>, n: nat) {
    forall i :: n <= i < |events| ==> !Failed(events[i])
  }

  /** From event `n` on nothing is connected after a teardown that failed. */
  predicate Ends(events: seq<Event>, n: nat) {
    forall i, j :: n <= i < j < |events| && Failed(events[i]) ==> !events[j].Connected?
  }

  lemma Snoc(events: seq<Event>, e: Event, n: nat)
    ensures Clean(events, n) ==> Ends(events + [e], n) && (!Failed(e) ==> Clean(events + [e], n))
    ensures Ends(events, n) && !e.Connected? ==> Ends(events + [e], n)
  {
    assert forall i :: 0 <= i < |events| ==> (events + [e])[i] == events[i];
  }

  lemma TeardownEnds(s: State, a: Teardown, n: nat)
    ensures var t := TeardownActive(s, a).0;
            && (Clean(s.events, n) ==> Ends(t.events, n) && (a.TornDown? ==> Clean(t.events, n)))
            && (Ends(s.events, n) ==> Ends(t.events, n))
  {
    hide Clean, Ends;
    Snoc(s.events, Disconnected(s.driver, a.TornDown?), n);
  }

  lemma ProtectEnds(s: State, a: Protection, configured: bool, n: nat)
    ensures var t := Protect(s, a, configured).0;
            && (Clean(s.events, n) ==> Clean(t.events, n)) && (Ends(s.events, n) ==> Ends(t.events, n))
  {
    hide Clean, Ends;
    Snoc(s.events, Applied(a.Verified?), n);
  }

  lemma OpenEnds(s: State, a: Opening, n: nat)
    requires Clean(s.events, n)
    ensures Clean(Open(s, a).events, n) && Ends(Open(s, a).events, n)
  {
    hide Clean, Ends;
    Snoc(s.events, Connected(s.driver), n);
  }

  lemma MaintainEnds(s: State, w: World, a: Protection, n: nat)
    ensures var t := Maintain(s, w, a).0;
            && (Clean(s.events, n) ==> Clean(t.events, n)) && (Ends(s.events, n) ==> Ends(t.events, n))
    ensures var t := AllFailedProtection(s, w);
            Ends(s.events, n) ==> Ends(t.events, n)
  {
    hide Clean, Ends;
    Snoc(s.events, Applied(a.Verified?), n);
    Snoc(s.events, Applied(w.lastProtection.Verified?), n);
  }

  lemma ReleaseEnds(s: State, w: World, n: nat)
    ensures Ends(s.events, n) ==> Ends(ReleaseProtection(s, w).events, n)
    ensures Ends(s.events, n) ==> Ends(StartStandby(s, w).events, n)
  {
    hide Clean, Ends;
    Snoc(s.events, Disabled, n);
  }

  lemma ReadyEnds(s: State, w: World, n: nat)
    requires Clean(s.events, n)
    ensures var (t, ok) := Ready(s, w);
            && Ends(t.events, n) && (ok ==> Clean(t.events, n))
            && (t.barrierFailed == s.barrierFailed || w.preparation.Prepared?)
            && (!t.barrierFailed ==> Clean(t.events, n))
  {
    hide Clean, Ends;
    CleanEnds(s.events, n);
    if w.preparation.Prepared? {
      TeardownEnds(s, w.teardown, n);
      ProtectEnds(Activate(TeardownActive(s, w.teardown).0, w.preparation.driver), w.protection, w.configured, n);
    }
  }

  lemma CleanEnds(events: seq<Event>, n: nat)
    requires Clean(events, n)
    ensures Ends(events, n)
  {
  }

  lemma RoutedEnds(s: State, r: Router, call: RouterCall, configured: bool, n: nat)
    requires Clean(s.events, n)
    ensures var t := Routed(s, r, call, configured).0;
            Ends(t.events, n) && ((call.RouterDisconnect? ==> call.teardown.TornDown?) ==> Clean(t.events, n))
  {
    hide Clean, Ends;
    CleanEnds(s.events, n);
    match call
    case Preflight(_, _) =>
    case RouterConnect(_, _, _, _) =>
      if r.verified && Chosen(r, call).Prepared? {
        var t := Activate(s, Chosen(r, call).driver);
        ProtectEnds(t, call.protection, configured, n);
        var u := Protect(t, call.protection, configured).0;
        OpenEnds(u, call.opening, n);
        CleanEnds(u.events, n);
      }
    case RouterDisconnect(a) => TeardownEnds(s, a, n);
  }

  lemma {:induction false} RouterRunEnds(s: State, r: Router, calls: seq<RouterCall>, configured: bool, n: nat)
    requires Clean(s.events, n) && StopsAtFailure(calls)
    ensures Ends(RouterRun(s, r, calls, configured).0.events, n)
    decreases |calls|
  {
    hide Clean, Ends, Routed;
    if calls == [] {
      CleanEnds(s.events, n);
    } else {
      RoutedEnds(s, r, calls[0], configured, n);
      var (t, next) := Routed(s, r, calls[0], configured);
      if |calls| == 1 {
        assert calls[1..] == [];
      } else {
        assert StopsAtFailure(calls[1..]) by {
          assert forall i :: 0 <= i < |calls| - 1 ==> calls[1..][i] == calls[i + 1];
        }
        RouterRunEnds(t, next, calls[1..], configured, n);
      }
    }
  }

  lemma RotationEnds(s: State, w: World, force: bool, n: nat)
    requires Clean(s.events, n) && StopsAtFailure(w.calls)
    ensures Ends(AttemptRotation(s, w, force).events, n)
  {
    hide Clean, Ends, StopsAtFailure, RouterRun, Maintain, AllFailedProtection;
    CleanEnds(s.events, n);
    var t := s.(barrierFailed := false);
    RouterRunEnds(t, Router(false, None), w.calls, w.configured, n);
    var u := RouterRun(t, Router(false, None), w.calls, w.configured).0;
    MaintainEnds(t, w, w.lastProtection, n);
    MaintainEnds(u, w, w.lastProtection, n);
    if w.rotation.Rotated? {
      MaintainEnds(u.(failures := 0, profile := Some(w.rotation.profile)), w, w.lastProtection, n);
    }
  }

  lemma ReconnectEnds(s: State, w: World, n: nat)
    requires Clean(s.events, n)
    ensures var t := TryReconnect(s, w).0;
            Ends(t.events, n) && (!t.barrierFailed ==> Clean(t.events, n))
  {
    ReadyEnds(s, w, n);
    hide Clean, Ends, Ready;
    var (t, ok) := Ready(s, w);
    if ok {
      OpenEnds(t, w.opening, n);
      TeardownEnds(Open(t, w.opening), w.lastTeardown, n);
    }
  }

  lemma RecoverEnds(s: State, w: World, n: nat)
    requires Clean(s.events, n) && StopsAtFailure(w.calls)
    ensures Ends(Recover(s, w).events, n)
  {
    hide Clean, Ends, StopsAtFailure, TryReconnect, Maintain, AttemptRotation;
    CleanEnds(s.events, n);
    var t := s.(barrierFailed := false);
    ReconnectEnds(t, w, n);
    var u := if w.profileFound then TryReconnect(t, w).0 else t;
    MaintainEnds(u.(failures := 0), w, w.lastProtection, n);
    if !u.barrierFailed {
      RotationEnds(u.(failures := 0), w, false, n);
    }
  }

  lemma TickEnds(s: State, w: World, n: nat)
    requires Clean(s.events, n) && StopsAtFailure(w.calls)
    ensures Ends(Tick(s, w).events, n)
  {
    hide Clean, Ends, StopsAtFailure, Maintain, Recover;
    CleanEnds(s.events, n);
    MaintainEnds(s, w, w.firstProtection, n);
    RecoverEnds(Maintain(s, w, w.firstProtection).0, w, n);
  }

  lemma FailManualEnds(s: State, w: World, n: nat)
    requires Clean(s.events, n)
    ensures Ends(FailManualConnect(s, w).events, n) && Ends(Disconnect(s, w).0.events, n)
  {
    hide Clean, Ends, ReleaseProtection;
    TeardownEnds(s, w.lastTeardown, n);
    ReleaseEnds(TeardownActive(s, w.lastTeardown).0, w, n);
    TeardownEnds(s, w.teardown, n);
    ReleaseEnds(TeardownActive(s, w.teardown).0, w, n);
  }

  lemma ConnectEnds(s: State, id: string, w: World, n: nat)
    requires Clean(s.events, n)
    ensures Ends(Connect(s, id, w).events, n)
  {
    ReadyEnds(s, w, n);
    hide Clean, Ends, Ready, FailManualConnect;
    var (t, ok) := Ready(s, w);
    if ok {
      var u := t.(desired := On, profile := Some(id));
      OpenEnds(u, w.opening, n);
      FailManualEnds(Open(u, w.opening), w, n);
    }
  }

  lemma StartConnectionEnds(s: State, w: World, n: nat)
    requires Clean(s.events, n)
    ensures Ends(StartConnection(s, w).events, n)
  {
    hide Clean, Ends, TeardownActive, Protect, Open;
    CleanEnds(s.events, n);
    if w.preparation.Prepared? {
      TeardownEnds(s, w.teardown, n);
      var (t, torn) := TeardownActive(s, w.teardown);
      if torn {
        TornDownClean(s, w.teardown, n);
        var u := Activate(t, w.preparation.driver);
        ProtectEnds(u, w.protection, w.configured, n);
        var v := if w.restartProtection then u else Protect(u, w.protection, w.configured).0;
        CleanEnds(v.events, n);
        OpenEnds(v, w.opening, n);
        TeardownEnds(Open(v, w.opening), w.lastTeardown, n);
      }
    }
  }

  lemma TornDownClean(s: State, a: Teardown, n: nat)
    requires Clean(s.events, n) && TeardownActive(s, a).1
    ensures Clean(TeardownActive(s, a).0.events, n)
  {
    hide Clean, Ends;
    TeardownEnds(s, a, n);
  }

  lemma StartupEnds(s: State, w: World, n: nat)
    requires Clean(s.events, n)
    ensures Ends(Startup(s, w).events, n)
  {
    hide Clean, Ends, StartStandby, StartConnection, Protect;
    CleanEnds(s.events, n);
    ReleaseEnds(s, w, n);
    ProtectEnds(s, w.firstProtection, w.configured, n);
    var t := if w.restartProtection then Protect(s, w.firstProtection, w.configured).0 else s;
    StartConnectionEnds(t, w, n);
  }

  lemma ShutdownEnds(s: State, w: World, n: nat)
    requires Clean(s.events, n)
    ensures Ends(Shutdown(s, w).events, n)
  {
    hide Clean, Ends, ReleaseProtection, Protect;
    CleanEnds(s.events, n);
    ProtectEnds(s, w.protection, w.configured, n);
    var t := if !w.readable || s.desired == On then Protect(s, w.protection, w.configured).0 else s;
    Snoc(t.events, Disconnected(t.driver, w.teardown.TornDown?), n);
    ReleaseEnds(Detach(t, w.teardown), w, n);
  }

  /**
   * In no operation is a driver connected after a teardown of the same operation
   * has failed, as long as the rotation engine makes no call after a failed one.
   */
  lemma FailedTeardownEndsOperation(s: State, op: Operation)
    requires (op.DoTick? || op.DoScheduled? || op.DoRotate?) ==> StopsAtFailure(op.world.calls)
    ensures Ends(Do(s, op).events, |s.events|)
  {
    var n := |s.events|;
    assert Clean(s.events, n);
    hide Clean, Ends, StopsAtFailure, Connect, Disconnect, Tick, AttemptRotation, Shutdown, Startup;
    CleanEnds(s.events, n);
    match op
    case DoConnect(id, w) => ConnectEnds(s, id, w, n);
    case DoDisconnect(w) => FailManualEnds(s, w, n);
    case DoTick(w) => TickEnds(s, w, n);
    case DoScheduled(w) => RotationEnds(s, w, true, n);
    case DoRotate(w) => RotationEnds(s, w, w.force, n);
    case DoShutdown(w) => ShutdownEnds(s, w, n);
    case DoRestart(d, w) =>
      Snoc(s.events, Restarted, n);
      StartupEnds(Renewed(s, d), w, n);
    case SetAutoconnect(_) =>
  }
}
