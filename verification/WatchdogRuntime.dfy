/** The watchdog runtime and its rotation router as objects that update their fields. */
module WatchdogRuntimeObject {
  import opened Common
  import opened ConnectionLifecycle
  import opened LifecycleOutcomes

  class WatchdogRuntime {
    var driver: Driver
    var desired: Desired
    var autoconnect: bool
    var activeProfile: Option<string>
    var forced: bool
    var cleanupBarrierFailed: bool
    var reconnectFailures: nat

    // The world outside: runtimes that are up, the kernel's policy, what happened.
    ghost var live: set<Driver>
    ghost var active: bool
    ghost var events: seq<Event>

    ghost function Current(): State
      reads this
    {
      State(driver, live, desired, autoconnect, activeProfile, active, forced, cleanupBarrierFailed, reconnectFailures, events)
    }

    constructor (driver: Driver, desired: Desired, autoconnect: bool, activeProfile: Option<string>, ghost active: bool)
      ensures Current() == State(driver, {}, desired, autoconnect, activeProfile, active, false, false, 0, [])
      ensures Beginning(Current()) && Inv(Current())
    {
      this.driver, this.desired, this.autoconnect, this.activeProfile := driver, desired, autoconnect, activeProfile;
      forced, cleanupBarrierFailed, reconnectFailures := false, false, 0;
      live, this.active, events := {}, active, [];
    }

    // -------------------------------------------------------------------
    // The outside, through its answers
    // -------------------------------------------------------------------

    method DriverDisconnect(a: Teardown) returns (ok: bool)
      modifies this
      ensures Current() == Detach(old(Current()), a) && ok == a.TornDown?
    {
      live := if a == NotTornDown(true) then live else live - {driver};
      events := events + [Disconnected(driver, a.TornDown?)];
      ok := a.TornDown?;
    }

    method DriverConnect(a: Opening)
      modifies this
      ensures Current() == Open(old(Current()), a)
    {
      live := if a.Opened? || a.left then live + {driver} else live;
      events := events + [Connected(driver)];
    }

    method KillSwitchApply(a: Protection) returns (ok: bool)
      modifies this
      ensures (Current(), ok) == ApplyAtomic(old(Current()), a)
    {
      active := active || !a.BatchFailed?;
      events := events + [Applied(a.Verified?)];
      ok := a.Verified?;
    }

    method KillSwitchDisable(w: World) returns (ok: bool)
      modifies this
      ensures Current() == Disable(old(Current()), w) && ok == w.disabled
    {
      active := active && !w.disabled && w.stillActive;
      events := events + [Disabled];
      ok := w.disabled;
    }

    // -------------------------------------------------------------------
    // Teardown and protection
    // -------------------------------------------------------------------

    method TeardownActiveDriver(a: Teardown) returns (ok: bool)
      modifies this
      ensures (Current(), ok) == TeardownActive(old(Current()), a)
      ensures Keeps(old(Current()), Current()) && Quiet(old(Current()), Current())
      ensures ok ==> Cleared(old(Current()), Current())
    {
      hide Keeps, KeepsOn, Quiet, Cleared, Settled, ConnectsOnce, Inv, Armed, Connects;
      TeardownSafe(Current(), a);
      ok := DriverDisconnect(a);
      cleanupBarrierFailed := !ok;
    }

    method ActivateDriver(selected: Driver)
      modifies this
      ensures Current() == Activate(old(Current()), selected)
    {
      if selected != driver {
        driver := selected;
      }
    }

    method ApplyDesiredOnProtection(a: Protection, configured: bool) returns (ok: bool)
      modifies this
      ensures (Current(), ok) == Protect(old(Current()), a, configured)
      ensures Keeps(old(Current()), Current()) && Quiet(old(Current()), Current())
      ensures live == old(live) && (ok ==> active && Armed(events))
    {
      hide Keeps, KeepsOn, Quiet, Cleared, Settled, ConnectsOnce, Inv, Armed, Connects;
      ProtectSafe(Current(), a, configured);
      ok := KillSwitchApply(a);
      if ok {
        forced := !configured;
      }
    }

    method MaintainKillSwitch(w: World, a: Protection) returns (ok: bool)
      modifies this
      ensures (Current(), ok) == Maintain(old(Current()), w, a)
      ensures Keeps(old(Current()), Current()) && Quiet(old(Current()), Current())
      ensures ok && (w.configured || forced) ==> w.statusOk || (active && Armed(events))
      ensures live == old(live) && (old(active) ==> active)
    {
      hide Keeps, KeepsOn, Quiet, Cleared, Settled, ConnectsOnce, Inv, Armed, Connects;
      MaintainSafe(Current(), w, a);
      if !w.configured && !forced {
        return true;
      }
      if w.statusOk {
        return true;
      }
      ok := KillSwitchApply(a);
    }

    method ApplyAllFailedKillSwitch(w: World)
      modifies this
      ensures Current() == AllFailedProtection(old(Current()), w)
      ensures Keeps(old(Current()), Current()) && Quiet(old(Current()), Current())
      ensures (w.configured || forced) && w.lastProtection.Verified? ==> w.seenActive || (active && Armed(events))
      ensures live == old(live) && (old(active) ==> active)
    {
      hide Keeps, KeepsOn, Quiet, Cleared, Settled, ConnectsOnce, Inv, Armed, Connects;
      AllFailedSafe(Current(), w);
      if w.seenActive || (!w.configured && !forced) {
        return;
      }
      var _ := KillSwitchApply(w.lastProtection);
    }

    method HandleManualDisconnectKillSwitch(w: World)
      modifies this
      ensures Current() == ReleaseProtection(old(Current()), w)
      ensures (old(live) == {} ==> Keeps(old(Current()), Current())) && Quiet(old(Current()), Current())
      ensures old(active) && !active ==> w.seenActive && !w.keepPolicy && (w.disabled || !w.stillActive)
      ensures forced ==> old(forced) && w.seenActive && !w.keepPolicy && !w.disabled
    {
      hide Keeps, KeepsOn, Quiet, Cleared, Settled, ConnectsOnce, Inv, Armed, Connects;
      ReleaseSafe(Current(), w);
      if !w.seenActive || w.keepPolicy {
        forced := false;
        return;
      }
      var ok := KillSwitchDisable(w);
      if ok {
        forced := false;
      }
    }

    // -------------------------------------------------------------------
    // Manual connect and disconnect
    // -------------------------------------------------------------------

    method StoreDesiredOff()
      modifies this
      ensures Current() == SwitchOff(old(Current()))
    {
      desired := Off;
      activeProfile := None;
    }

    method DisconnectNow(w: World) returns (ok: bool)
      modifies this
      ensures (Current(), ok) == Disconnect(old(Current()), w)
      ensures ok == w.teardown.TornDown?
      ensures old(Inv(Current())) ==> Inv(Current()) && (ok ==> live == {} && desired == Off)
    {
      DisconnectOutcome(Current(), w);
      hide Keeps, KeepsOn, Quiet, Cleared, Settled, ConnectsOnce, Inv, Armed, Connects, TeardownActive, ReleaseProtection, SwitchOff;
      if Inv(Current()) {
        DisconnectKeeps(Current(), w);
      }
      ok := TeardownActiveDriver(w.teardown);
      if ok {
        HandleManualDisconnectKillSwitch(w);
        StoreDesiredOff();
      }
    }

    method FailManual(w: World)
      modifies this
      ensures Current() == FailManualConnect(old(Current()), w)
      ensures Keeps(old(Current()), Current()) && Quiet(old(Current()), Current()) && Settled(old(Current()), Current())
    {
      hide Keeps, KeepsOn, Quiet, Cleared, Settled, ConnectsOnce, Inv, Armed, Connects, TeardownActive, ReleaseProtection, SwitchOff;
      FailManualSafe(Current(), w);
      var ok := TeardownActiveDriver(w.lastTeardown);
      if ok {
        HandleManualDisconnectKillSwitch(w);
        StoreDesiredOff();
      }
    }

    /** Prepare, tear down, switch and protect, in this order, stopping at the first failure. */
    method GetReady(w: World) returns (ok: bool)
      modifies this
      ensures (Current(), ok) == Ready(old(Current()), w)
      ensures Keeps(old(Current()), Current()) && (ok ==> Cleared(old(Current()), Current()) && Armed(events))
      ensures ok == WayClear(w)
    {
      ReadyOutcome(Current(), w);
      hide WayEvents, Keeps, KeepsOn, Quiet, Cleared, Settled, ConnectsOnce, Inv, Armed, Connects, TeardownActive, Protect, Activate;
      ReadySafe(Current(), w);
      if w.preparation.NotPrepared? {
        return false;
      }
      ok := TeardownActiveDriver(w.teardown);
      if !ok {
        return;
      }
      ActivateDriver(w.preparation.driver);
      ok := ApplyDesiredOnProtection(w.protection, w.configured);
    }

    method ConnectProfile(id: string, w: World) returns (connected: bool)
      modifies this
      ensures Current() == Connect(old(Current()), id, w)
      ensures old(Inv(Current())) ==> Inv(Current())
      ensures connected <==> && w.preparation.Prepared? && w.teardown.TornDown? && w.protection.Verified?
                             && w.opening.Opened? && w.egressOk
      ensures connected ==> driver == w.preparation.driver && driver in live && desired == On && activeProfile == Some(id)
      ensures old(Inv(Current())) && connected ==> live == {driver}
    {
      hide Keeps, KeepsOn, Quiet, Cleared, Settled, ConnectsOnce, Inv, Armed, Connects, Ready, FailManualConnect, Open;
      if WayClear(w) && Works(w) {
        ConnectResult(Current(), id, w);
      }
      if Inv(Current()) {
        ConnectKeeps(Current(), id, w);
      }
      var ok := GetReady(w);
      if !ok {
        return false;
      }
      desired := On;
      activeProfile := Some(id);
      DriverConnect(w.opening);
      if w.opening.Raised? {
        return false;
      }
      if w.opening.Refused? || !w.egressOk {
        FailManual(w);
        return false;
      }
      connected := true;
    }

    // -------------------------------------------------------------------
    // Automatic recovery
    // -------------------------------------------------------------------

    method TryReconnectNow(w: World) returns (attempt: Attempt)
      modifies this
      ensures (Current(), attempt) == TryReconnect(old(Current()), w)
      ensures KeepsOn(old(Current()), Current()) && ConnectsOnce(old(Current()), Current())
      ensures attempt.Reconnected? <==> && w.preparation.Prepared? && w.teardown.TornDown? && w.protection.Verified?
                                        && w.opening.Opened? && w.egressOk
      ensures attempt.Reconnected? ==> driver == w.preparation.driver && driver in live
    {
      hide Keeps, KeepsOn, Quiet, Cleared, Settled, ConnectsOnce, Inv, Armed, Connects, Ready, TeardownActive, WayEvents;
      ReconnectOutcome(Current(), w);
      ReconnectSafe(Current(), w);
      var ok := GetReady(w);
      if !ok {
        return NotReconnected;
      }
      DriverConnect(w.opening);
      match w.opening
      case Raised(_) => return Escaped;
      case Refused(_) => return NotReconnected;
      case Opened =>
        if w.egressOk {
          return Reconnected;
        }
        var _ := TeardownActiveDriver(w.lastTeardown);
        return NotReconnected;
    }

    method RotateThrough(w: World, force: bool)
      modifies this
      ensures Current() == AttemptRotation(old(Current()), w, force)
      ensures KeepsOn(old(Current()), Current())
      ensures (!force && !w.rotationEnabled) || !w.policySupported ==> Quiet(old(Current()), Current())
    {
      hide Keeps, KeepsOn, Quiet, Cleared, Settled, ConnectsOnce, Inv, Armed, Connects, Maintain, AllFailedProtection, RouterRun;
      RotationSafe(Current(), w, force);
      cleanupBarrierFailed := false;
      if !force && !w.rotationEnabled {
        ApplyAllFailedKillSwitch(w);
        return;
      }
      if !w.policySupported {
        return;
      }
      var router := new RuntimeDriverRouter();
      router.Serve(this, w.calls, w.configured);
      if w.rotation.CleanupFailed? || cleanupBarrierFailed {
        return;
      }
      if w.rotation.Rotated? {
        reconnectFailures := 0;
        activeProfile := Some(w.rotation.profile);
        var _ := MaintainKillSwitch(w, w.lastProtection);
        return;
      }
      ApplyAllFailedKillSwitch(w);
    }

    /** One more failure; the last one allowed starts a rotation. */
    method CountFailure(w: World)
      modifies this
      ensures Current() == AfterFailure(old(Current()), w)
    {
      hide Keeps, KeepsOn, Quiet, Inv, Connects, AttemptRotation;
      reconnectFailures := reconnectFailures + 1;
      if reconnectFailures < w.attempts {
        return;
      }
      reconnectFailures := 0;
      RotateThrough(w, false);
    }

    method RecoverFromFailure(w: World)
      modifies this
      ensures Current() == Recover(old(Current()), w)
      ensures KeepsOn(old(Current()), Current())
      ensures old(reconnectFailures) + 1 < w.attempts ==> ConnectsOnce(old(Current()), Current()) && reconnectFailures <= old(reconnectFailures) + 1
    {
      hide Keeps, KeepsOn, Quiet, Cleared, Settled, ConnectsOnce, Inv, Armed, Connects, TryReconnect, Maintain, AfterFailure;
      RecoverSafe(Current(), w);
      cleanupBarrierFailed := false;
      if !w.canRetry {
        return;
      }
      var attempt := NotReconnected;
      if w.profileFound {
        attempt := TryReconnectNow(w);
      }
      if attempt.Reconnected? {
        reconnectFailures := 0;
        var _ := MaintainKillSwitch(w, w.lastProtection);
        return;
      }
      if attempt.Escaped? || cleanupBarrierFailed {
        return;
      }
      CountFailure(w);
    }

    method RunIteration(w: World)
      modifies this
      ensures Current() == Tick(old(Current()), w)
      ensures old(Inv(Current())) ==> Inv(Current())
      ensures w.healthOk || !old(autoconnect) || old(desired) != On ==>
                driver == old(driver) && live == old(live) && activeProfile == old(activeProfile) && reconnectFailures == old(reconnectFailures)
      ensures old(ToReconnect(Current(), w)) && WayClear(w) && Works(w) ==>
                driver == w.preparation.driver && driver in live && reconnectFailures == 0
    {
      TickResult(Current(), w);
      hide Keeps, KeepsOn, Quiet, Cleared, Settled, ConnectsOnce, Inv, Armed, Connects, Maintain, Recover, ToReconnect, WayClear, Works;
      if Inv(Current()) {
        TickKeeps(Current(), w);
      }
      if !(w.readable && desired == On) {
        return;
      }
      var auto := w.autoconnectReadable && autoconnect;
      if !auto && !w.runtimeActive {
        return;
      }
      var ok := MaintainKillSwitch(w, w.firstProtection);
      if !ok || w.healthOk || !auto {
        return;
      }
      RecoverFromFailure(w);
    }

    method Scheduled(w: World)
      modifies this
      ensures Current() == ScheduledRotate(old(Current()), w)
      ensures Keeps(old(Current()), Current())
      ensures old(desired) != On || !old(autoconnect) ==> Current() == old(Current())
    {
      hide Keeps, KeepsOn, Quiet, Cleared, Settled, ConnectsOnce, Inv, Armed, Connects, AttemptRotation;
      AutomaticSafe(Current(), w);
      if w.readable && desired == On && autoconnect && w.scheduled && !w.poolEmpty {
        RotateThrough(w, true);
      }
    }

    method Rotate(w: World)
      modifies this
      ensures Current() == RotateNow(old(Current()), w)
      ensures Keeps(old(Current()), Current())
      ensures old(desired) != On ==> Current() == old(Current())
    {
      hide Keeps, KeepsOn, Quiet, Cleared, Settled, ConnectsOnce, Inv, Armed, Connects, AttemptRotation;
      AutomaticSafe(Current(), w);
      if w.readable && desired == On {
        RotateThrough(w, w.force);
      }
    }

    // -------------------------------------------------------------------
    // Startup and shutdown
    // -------------------------------------------------------------------

    method StandBy(w: World)
      modifies this
      ensures Current() == StartStandby(old(Current()), w)
    {
      if !w.dnsRestored {
        return;
      }
      if w.seenActive {
        var ok := KillSwitchDisable(w);
        if !ok || w.stillActive {
          return;
        }
      }
      StoreDesiredOff();
      forced := false;
    }

    method StartActiveProfile(w: World)
      modifies this
      ensures Current() == StartConnection(old(Current()), w)
    {
      hide Keeps, KeepsOn, Quiet, Cleared, Settled, ConnectsOnce, Inv, Armed, Connects, TeardownActive, Protect, Open;
      if activeProfile.None? || !w.profileFound || w.preparation.NotPrepared? {
        return;
      }
      var ok := TeardownActiveDriver(w.teardown);
      if !ok {
        return;
      }
      ActivateDriver(w.preparation.driver);
      if !w.restartProtection {
        ok := ApplyDesiredOnProtection(w.protection, w.configured);
        if !ok {
          return;
        }
      }
      DriverConnect(w.opening);
      if w.opening.Opened? && !w.egressOk {
        var _ := TeardownActiveDriver(w.lastTeardown);
      }
    }

    method Start(w: World)
      modifies this
      ensures Current() == Startup(old(Current()), w)
      ensures (old(live) == {} ==> Keeps(old(Current()), Current())) && ConnectsOnce(old(Current()), Current())
      ensures old(desired) != On || !old(autoconnect) ==> Quiet(old(Current()), Current())
      ensures old(Restores(Current(), w)) && StartProtected(w) && w.teardown.TornDown? && Works(w) ==>
                driver == w.preparation.driver && driver in live && active
    {
      if Restores(Current(), w) {
        StartupOutcome(Current(), w);
      }
      hide Restores, StartProtected, Works, Keeps, KeepsOn, Quiet, Cleared, Settled, ConnectsOnce, Inv, Armed, Connects, StartStandby, StartConnection, Protect;
      StartupSafe(Current(), w);
      if !w.readable || desired != On {
        return;
      }
      if !autoconnect {
        StandBy(w);
        return;
      }
      if w.restartProtection {
        var ok := ApplyDesiredOnProtection(w.firstProtection, w.configured);
        if !ok {
          return;
        }
      }
      StartActiveProfile(w);
    }

    method Stop(w: World)
      modifies this
      ensures Current() == Shutdown(old(Current()), w)
      ensures Keeps(old(Current()), Current()) && Quiet(old(Current()), Current()) && desired == old(desired)
      ensures old(Inv(Current())) && w.teardown.TornDown? ==> live == {}
      ensures old(Inv(Current())) && desired == On && w.protection.Verified? ==> active && Armed(events)
    {
      hide Keeps, KeepsOn, Quiet, Cleared, Settled, ConnectsOnce, Inv, Armed, Connects, Protect, ReleaseProtection, Detach;
      ShutdownSafe(Current(), w);
      var desiredOn := !w.readable || desired == On;
      if desiredOn {
        var _ := ApplyDesiredOnProtection(w.protection, w.configured);
      }
      var _ := DriverDisconnect(w.teardown);
      if !desiredOn {
        HandleManualDisconnectKillSwitch(w);
      }
    }

    /** A new process takes over the stored state. */
    method StartAgain(driver: Driver, w: World)
      modifies this
      ensures Current() == Restart(old(Current()), driver, w)
    {
      hide Keeps, KeepsOn, Quiet, Cleared, Settled, ConnectsOnce, Inv, Armed, Connects, Startup;
      this.driver := driver;
      forced, cleanupBarrierFailed, reconnectFailures := false, false, 0;
      events := events + [Restarted];
      Start(w);
    }

    method Perform(op: Operation)
      modifies this
      ensures Current() == Do(old(Current()), op)
    {
      hide Keeps, KeepsOn, Quiet, Cleared, Settled, ConnectsOnce, Inv, Armed, Connects, Connect, Disconnect, Tick, ScheduledRotate, RotateNow, Shutdown, Restart;
      match op
      case DoConnect(id, w) => var _ := ConnectProfile(id, w);
      case DoDisconnect(w) => var _ := DisconnectNow(w);
      case DoTick(w) => RunIteration(w);
      case DoScheduled(w) => Scheduled(w);
      case DoRotate(w) => Rotate(w);
      case DoShutdown(w) => Stop(w);
      case DoRestart(d, w) => StartAgain(d, w);
      case SetAutoconnect(on) => autoconnect := on;
    }

    /** Any legal sequence of operations, with any answers, keeps the invariant. */
    method Session(ops: seq<Operation>)
      requires Inv(Current()) && Legal(Current(), ops)
      modifies this
      ensures Current() == Run(old(Current()), ops) && Inv(Current())
    {
      hide Do, Inv, Legal;
      RunKeeps(Current(), ops);
      for i := 0 to |ops|
        invariant Current() == Run(old(Current()), ops[..i])
      {
        assert ops[..i + 1][..i] == ops[..i];
        Perform(ops[i]);
      }
      assert ops[..|ops|] == ops;
    }
  }

  /** A connect returns true or false, or raises. */
  datatype Answer = Yes | No | Raises

  function Heard(opening: Opening): Answer {
    match opening
    case Opened => Yes
    case Refused(_) => No
    case Raised(_) => Raises
  }

  class RuntimeDriverRouter {
    var teardownVerified: bool
    var prepared: Option<(string, Driver)>

    ghost function Standing(): Router
      reads this
    {
      Router(teardownVerified, prepared)
    }

    constructor ()
      ensures Standing() == Router(false, None)
    {
      teardownVerified, prepared := false, None;
    }

    /** A candidate is prepared completely before the healthy path is torn down. */
    method PreflightProfile(id: string, preparation: Preparation) returns (ok: bool)
      modifies this
      ensures ok == preparation.Prepared?
      ensures Standing() == old(Standing()).(prepared := if ok then Some((id, preparation.driver)) else None)
    {
      prepared := None;
      ok := preparation.Prepared?;
      if ok {
        prepared := Some((id, preparation.driver));
      }
    }

    method RouteConnect(runtime: WatchdogRuntime, call: RouterCall, configured: bool) returns (answer: Answer)
      requires call.RouterConnect?
      modifies this, runtime
      ensures (runtime.Current(), Standing()) == RoutedConnect(old(runtime.Current()), old(Standing()), call, configured)
      ensures old(RouterOk(runtime.Current(), Standing())) ==> RouterOk(runtime.Current(), Standing())
      ensures if old(teardownVerified) && old(Chosen(Standing(), call)).Prepared? && call.protection.Verified?
              then && Connects(runtime.events) == old(Connects(runtime.events)) + [old(Chosen(Standing(), call)).driver]
                   && runtime.active && !teardownVerified
              else Quiet(old(runtime.Current()), runtime.Current()) && runtime.live == old(runtime.live)
      ensures answer == if old(teardownVerified) && old(Chosen(Standing(), call)).Prepared? && call.protection.Verified?
                        then Heard(call.opening) else No
    {
      hide Keeps, KeepsOn, Quiet, Cleared, Settled, ConnectsOnce, Inv, Armed, Connects, Protect, Open, RouterOk;
      RoutedConnectSafe(runtime.Current(), Standing(), call, configured);
      RoutedConnectConnects(runtime.Current(), Standing(), call, configured);
      if !teardownVerified {
        runtime.cleanupBarrierFailed := true;
        return No;
      }
      var chosen := call.preparation;
      if prepared.Some? && prepared.value.0 == call.profile {
        chosen := Prepared(prepared.value.1);
      }
      if chosen.NotPrepared? {
        return No;
      }
      prepared := None;
      runtime.ActivateDriver(chosen.driver);
      var ok := runtime.ApplyDesiredOnProtection(call.protection, configured);
      if !ok {
        return No;
      }
      teardownVerified := false;
      runtime.DriverConnect(call.opening);
      answer := Heard(call.opening);
    }

    method RouteDisconnect(runtime: WatchdogRuntime, a: Teardown) returns (ok: bool)
      modifies this, runtime
      ensures (runtime.Current(), ok) == TeardownActive(old(runtime.Current()), a) && ok == a.TornDown?
      ensures Standing() == old(Standing()).(verified := ok)
    {
      hide Keeps, Quiet, Cleared;
      ok := runtime.TeardownActiveDriver(a);
      teardownVerified := ok;
    }

    method Route(runtime: WatchdogRuntime, call: RouterCall, configured: bool)
      modifies this, runtime
      ensures (runtime.Current(), Standing()) == Routed(old(runtime.Current()), old(Standing()), call, configured)
    {
      hide Keeps, KeepsOn, Quiet, Cleared, Settled, ConnectsOnce, Inv, Armed, Connects, TeardownActive, RoutedConnect, RouterOk;
      match call
      case Preflight(id, preparation) => var _ := PreflightProfile(id, preparation);
      case RouterConnect(_, _, _, _) => var _ := RouteConnect(runtime, call, configured);
      case RouterDisconnect(a) => var _ := RouteDisconnect(runtime, a);
    }

    /** The rotation engine drives the router; its calls are arbitrary. */
    method Serve(runtime: WatchdogRuntime, calls: seq<RouterCall>, configured: bool)
      modifies this, runtime
      ensures (runtime.Current(), Standing()) == RouterRun(old(runtime.Current()), old(Standing()), calls, configured)
      ensures old(RouterOk(runtime.Current(), Standing())) ==> RouterOk(runtime.Current(), Standing())
    {
      hide Keeps, KeepsOn, Quiet, Cleared, Settled, ConnectsOnce, Inv, Armed, Connects, Routed, RouterOk;
      if RouterOk(runtime.Current(), Standing()) {
        RouterRunKeeps(runtime.Current(), Standing(), calls, configured);
      }
      assert calls[0..] == calls;
      for i := 0 to |calls|
        invariant RouterRun(old(runtime.Current()), old(Standing()), calls, configured) ==
                  RouterRun(runtime.Current(), Standing(), calls[i..], configured)
      {
        assert calls[i..][1..] == calls[i + 1..];
        Route(runtime, calls[i], configured);
      }
    }
  }
}
