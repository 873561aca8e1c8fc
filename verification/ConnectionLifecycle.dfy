/**
 * The watchdog's connection lifecycle as a state machine. Drivers, the rotation
 * engine, health checks, the firewall and the stored state answer arbitrarily;
 * each operation takes those answers as an argument.
 */
module ConnectionLifecycle {
  import opened Common

  type Driver = nat

  datatype Desired = Off | On | Invalid

  datatype Event =
    | Applied(ok: bool)
    | Disabled
    | Disconnected(driver: Driver, ok: bool)
    | Connected(driver: Driver)
    | Restarted

  /**
   * `live` holds the drivers whose runtime may still be up, `active` says whether
   * the kernel has the kill-switch policy; `events` is history.
   */
  datatype State = State(
    driver: Driver,
    live: set<Driver>,
    desired: Desired,
    autoconnect: bool,
    profile: Option<string>,
    active: bool,
    forced: bool,
    barrierFailed: bool,
    failures: nat,
    events: seq<Event>)

  // ---------------------------------------------------------------------
  // What the outside may answer
  // ---------------------------------------------------------------------

  /** A driver is prepared for the profile, or the profile is refused. */
  datatype Preparation = Prepared(driver: Driver) | NotPrepared

  /** A failed teardown may or may not leave the runtime up. */
  datatype Teardown = TornDown | NotTornDown(left: bool)

  /** The batch fails, it succeeds but is not verified, or all is well. */
  datatype Protection = BatchFailed | NotVerified | Verified

  /** A refused or failing connect may leave a runtime behind. */
  datatype Opening = Opened | Refused(left: bool) | Raised(left: bool)

  datatype RouterCall =
    | Preflight(profile: string, preparation: Preparation)
    | RouterConnect(profile: string, preparation: Preparation, protection: Protection, opening: Opening)
    | RouterDisconnect(teardown: Teardown)

  datatype Rotation = CleanupFailed | Rotated(profile: string) | Unavailable | AllFailed

  /** Everything one operation may ask for. */
  datatype World = World(
    readable: bool, autoconnectReadable: bool,
    preparation: Preparation, teardown: Teardown, lastTeardown: Teardown,
    firstProtection: Protection, protection: Protection, lastProtection: Protection,
    opening: Opening, egressOk: bool, profileFound: bool,
    configured: bool, statusOk: bool, seenActive: bool, stillActive: bool, disabled: bool, keepPolicy: bool,
    dnsRestored: bool, runtimeActive: bool, healthOk: bool, canRetry: bool, attempts: int,
    rotationEnabled: bool, scheduled: bool, poolEmpty: bool, policySupported: bool, force: bool,
    restartProtection: bool, calls: seq<RouterCall>, rotation: Rotation)

  // ---------------------------------------------------------------------
  // Steps every operation is made of
  // ---------------------------------------------------------------------

  function Detach(s: State, a: Teardown): State {
    s.(live := if a == NotTornDown(true) then s.live else s.live - {s.driver},
       events := s.events + [Disconnected(s.driver, a.TornDown?)])
  }

  function TeardownActive(s: State, a: Teardown): (State, bool) {
    (Detach(s, a).(barrierFailed := !a.TornDown?), a.TornDown?)
  }

  function Activate(s: State, d: Driver): State {
    s.(driver := d)
  }

  function ApplyAtomic(s: State, a: Protection): (State, bool) {
    (s.(active := s.active || !a.BatchFailed?, events := s.events + [Applied(a.Verified?)]), a.Verified?)
  }

  function Protect(s: State, a: Protection, configured: bool): (State, bool) {
    var (t, ok) := ApplyAtomic(s, a);
    (if ok then t.(forced := !configured) else t, ok)
  }

  function Disable(s: State, w: World): State {
    s.(active := s.active && !w.disabled && w.stillActive, events := s.events + [Disabled])
  }

  function Open(s: State, a: Opening): State {
    s.(live := if a.Opened? || a.left then s.live + {s.driver} else s.live, events := s.events + [Connected(s.driver)])
  }

  function Maintain(s: State, w: World, a: Protection): (State, bool) {
    if !w.configured && !s.forced then (s, true)
    else if w.statusOk then (s, true)
    else ApplyAtomic(s, a)
  }

  /** The policy is dropped on a manual disconnect unless it is to be kept. */
  function ReleaseProtection(s: State, w: World): State {
    if !w.seenActive || w.keepPolicy then s.(forced := false)
    else
      var t := Disable(s, w);
      if w.disabled then t.(forced := false) else t
  }

  function SwitchOff(s: State): State {
    s.(desired := Off, profile := None)
  }

  // ---------------------------------------------------------------------
  // Manual connect and disconnect
  // ---------------------------------------------------------------------

  function Disconnect(s: State, w: World): (State, bool) {
    var (t, ok) := TeardownActive(s, w.teardown);
    if !ok then (t, false) else (SwitchOff(ReleaseProtection(t, w)), true)
  }

  function FailManualConnect(s: State, w: World): State {
    var (t, ok) := TeardownActive(s, w.lastTeardown);
    if !ok then t else SwitchOff(ReleaseProtection(t, w))
  }

  /** Tear the current driver down, switch, protect: the way to every own connect. */
  function Ready(s: State, w: World): (State, bool) {
    match w.preparation
    case NotPrepared => (s, false)
    case Prepared(d) =>
      var (t, torn) := TeardownActive(s, w.teardown);
      if !torn then (t, false) else Protect(Activate(t, d), w.protection, w.configured)
  }

  function Connect(s: State, id: string, w: World): State {
    var (t, ok) := Ready(s, w);
    if !ok then t
    else
      var u := Open(t.(desired := On, profile := Some(id)), w.opening);
      if w.opening.Raised? then u
      else if w.opening.Refused? || !w.egressOk then FailManualConnect(u, w)
      else u
  }

  // ---------------------------------------------------------------------
  // Rotation through the router
  // ---------------------------------------------------------------------

  datatype Router = Router(verified: bool, prepared: Option<(string, Driver)>)

  /** The driver a router connect uses: the one prepared for this profile, or a new one. */
  function Chosen(r: Router, call: RouterCall): Preparation
    requires call.RouterConnect?
  {
    if r.prepared.Some? && r.prepared.value.0 == call.profile then Prepared(r.prepared.value.1) else call.preparation
  }

  function RoutedConnect(s: State, r: Router, call: RouterCall, configured: bool): (State, Router)
    requires call.RouterConnect?
  {
    if !r.verified then (s.(barrierFailed := true), r)
    else
      match Chosen(r, call)
      case NotPrepared => (s, r)
      case Prepared(d) =>
        var (t, ok) := Protect(Activate(s, d), call.protection, configured);
        if !ok then (t, r.(prepared := None)) else (Open(t, call.opening), Router(false, None))
  }

  function Routed(s: State, r: Router, call: RouterCall, configured: bool): (State, Router) {
    match call
    case Preflight(id, Prepared(d)) => (s, r.(prepared := Some((id, d))))
    case Preflight(_, NotPrepared) => (s, r.(prepared := None))
    case RouterConnect(_, _, _, _) => RoutedConnect(s, r, call, configured)
    case RouterDisconnect(a) =>
      var (t, ok) := TeardownActive(s, a);
      (t, r.(verified := ok))
  }

  /** The rotation engine's calls, in whatever order it makes them. */
  function RouterRun(s: State, r: Router, calls: seq<RouterCall>, configured: bool): (State, Router)
    decreases |calls|
  {
    if calls == [] then (s, r)
    else
      var (t, next) := Routed(s, r, calls[0], configured);
      RouterRun(t, next, calls[1..], configured)
  }

  function AllFailedProtection(s: State, w: World): State {
    if w.seenActive || (!w.configured && !s.forced) then s else ApplyAtomic(s, w.lastProtection).0
  }

  function AttemptRotation(s: State, w: World, force: bool): State {
    var t := s.(barrierFailed := false);
    if !force && !w.rotationEnabled then AllFailedProtection(t, w)
    else if !w.policySupported then t
    else
      var u := RouterRun(t, Router(false, None), w.calls, w.configured).0;
      if w.rotation.CleanupFailed? || u.barrierFailed then u
      else if w.rotation.Rotated? then
        Maintain(u.(failures := 0, profile := Some(w.rotation.profile)), w, w.lastProtection).0
      else AllFailedProtection(u, w)
  }

  // ---------------------------------------------------------------------
  // The automatic loop
  // ---------------------------------------------------------------------

  predicate AutomaticActions(s: State, w: World, requireAutoconnect: bool) {
    w.readable && s.desired == On && (requireAutoconnect ==> s.autoconnect)
  }

  /** A reconnect ends well, ends badly, or the driver's exception escapes. */
  datatype Attempt = Reconnected | NotReconnected | Escaped

  function TryReconnect(s: State, w: World): (State, Attempt) {
    var (t, ok) := Ready(s, w);
    if !ok then (t, NotReconnected)
    else
      var u := Open(t, w.opening);
      match w.opening
      case Raised(_) => (u, Escaped)
      case Refused(_) => (u, NotReconnected)
      case Opened => if w.egressOk then (u, Reconnected) else (TeardownActive(u, w.lastTeardown).0, NotReconnected)
  }

  function AfterFailure(s: State, w: World): State {
    if s.failures + 1 < w.attempts then s.(failures := s.failures + 1)
    else AttemptRotation(s.(failures := 0), w, false)
  }

  function Recover(s: State, w: World): State {
    var t := s.(barrierFailed := false);
    if !w.canRetry then t
    else
      var (u, attempt) := if w.profileFound then TryReconnect(t, w) else (t, NotReconnected);
      match attempt
      case Reconnected => Maintain(u.(failures := 0), w, w.lastProtection).0
      case Escaped => u
      case NotReconnected => if u.barrierFailed then u else AfterFailure(u, w)
  }

  function Tick(s: State, w: World): State {
    var auto := w.autoconnectReadable && s.autoconnect;
    if !AutomaticActions(s, w, false) || (!auto && !w.runtimeActive) then s
    else
      var (t, ok) := Maintain(s, w, w.firstProtection);
      if !ok || w.healthOk || !auto then t else Recover(t, w)
  }

  function ScheduledRotate(s: State, w: World): State {
    if !AutomaticActions(s, w, true) || !w.scheduled || w.poolEmpty then s else AttemptRotation(s, w, true)
  }

  function RotateNow(s: State, w: World): State {
    if !AutomaticActions(s, w, false) then s else AttemptRotation(s, w, w.force)
  }

  // ---------------------------------------------------------------------
  // Startup and shutdown
  // ---------------------------------------------------------------------

  function StartStandby(s: State, w: World): State {
    if !w.dnsRestored then s
    else if !w.seenActive then SwitchOff(s).(forced := false)
    else
      var t := Disable(s, w);
      if !w.disabled || w.stillActive then t else SwitchOff(t).(forced := false)
  }

  /** From the protection on: tear down, switch, protect unless that is done, connect. */
  function StartConnection(s: State, w: World): State {
    if s.profile.None? || !w.profileFound || w.preparation.NotPrepared? then s
    else
      var (t, torn) := TeardownActive(s, w.teardown);
      if !torn then t
      else
        var u := Activate(t, w.preparation.driver);
        var (v, ok) := if w.restartProtection then (u, true) else Protect(u, w.protection, w.configured);
        if !ok then v
        else
          var x := Open(v, w.opening);
          if w.opening.Opened? && !w.egressOk then TeardownActive(x, w.lastTeardown).0 else x
  }

  function Startup(s: State, w: World): State {
    if !w.readable || s.desired != On then s
    else if !s.autoconnect then StartStandby(s, w)
    else
      var (t, ok) := if w.restartProtection then Protect(s, w.firstProtection, w.configured) else (s, true);
      if !ok then t else StartConnection(t, w)
  }

  function Shutdown(s: State, w: World): State {
    var desiredOn := !w.readable || s.desired == On;
    var t := if desiredOn then Protect(s, w.protection, w.configured).0 else s;
    var u := Detach(t, w.teardown);
    if desiredOn then u else ReleaseProtection(u, w)
  }

  function Renewed(s: State, d: Driver): State {
    s.(driver := d, forced := false, barrierFailed := false, failures := 0, events := s.events + [Restarted])
  }

  /** A new process, with a driver of its own and nothing remembered but the stored state. */
  function Restart(s: State, d: Driver, w: World): State {
    Startup(Renewed(s, d), w)
  }

  // ---------------------------------------------------------------------
  // Runs
  // ---------------------------------------------------------------------

  datatype Operation =
    | DoConnect(id: string, world: World)
    | DoDisconnect(world: World)
    | DoTick(world: World)
    | DoScheduled(world: World)
    | DoRotate(world: World)
    | DoShutdown(world: World)
    | DoRestart(driver: Driver, world: World)
    | SetAutoconnect(on: bool)

  /** A new process finds no runtime of the old one. */
  predicate Possible(s: State, op: Operation) {
    op.DoRestart? ==> s.live == {}
  }

  function Do(s: State, op: Operation): State {
    match op
    case DoConnect(id, w) => Connect(s, id, w)
    case DoDisconnect(w) => Disconnect(s, w).0
    case DoTick(w) => Tick(s, w)
    case DoScheduled(w) => ScheduledRotate(s, w)
    case DoRotate(w) => RotateNow(s, w)
    case DoShutdown(w) => Shutdown(s, w)
    case DoRestart(d, w) => Restart(s, d, w)
    case SetAutoconnect(on) => s.(autoconnect := on)
  }

  function Run(s: State, ops: seq<Operation>): State {
    if ops == [] then s else Do(Run(s, ops[..|ops| - 1]), ops[|ops| - 1])
  }

  ghost predicate Legal(s: State, ops: seq<Operation>) {
    ops == [] || (Legal(s, ops[..|ops| - 1]) && Possible(Run(s, ops[..|ops| - 1]), ops[|ops| - 1]))
  }

  /** Nothing is up and nothing has happened; the stored state is whatever it is. */
  predicate Beginning(s: State) {
    s.live == {} && s.events == [] && !s.forced && !s.barrierFailed && s.failures == 0
  }

  // ---------------------------------------------------------------------
  // Invariant
  // ---------------------------------------------------------------------

  /** The last thing done to a driver was a verified teardown. */
  predicate Torn(events: seq<Event>) {
    if events == [] then false
    else
      match events[|events| - 1]
      case Disconnected(_, ok) => ok
      case Connected(_) => false
      case Restarted => false
      case _ => Torn(events[..|events| - 1])
  }

  /** The driver connected last, as long as no teardown of it has succeeded in this process. */
  function Owed(events: seq<Event>): Option<Driver> {
    if events == [] then None
    else
      var before := Owed(events[..|events| - 1]);
      match events[|events| - 1]
      case Connected(d) => Some(d)
      case Disconnected(d, ok) => if ok && before == Some(d) then None else before
      case Restarted => None
      case _ => before
  }

  /** The policy was applied after the last connect and has not been disabled since. */
  predicate Armed(events: seq<Event>) {
    if events == [] then false
    else
      match events[|events| - 1]
      case Applied(ok) => ok || Armed(events[..|events| - 1])
      case Connected(_) => false
      case Disabled => false
      case _ => Armed(events[..|events| - 1])
  }

  predicate GuardedAt(events: seq<Event>, i: nat)
    requires i < |events|
  {
    events[i].Connected? ==> Torn(events[..i]) && Armed(events[..i]) && Owed(events[..i]) == None
  }

  ghost predicate Guarded(events: seq<Event>) {
    forall i :: 0 <= i < |events| ==> GuardedAt(events, i)
  }

  ghost predicate Inv(s: State) {
    && s.live <= {s.driver}
    && (s.live != {} ==> s.desired == On && s.active)
    && (Armed(s.events) ==> s.active)
    && (Owed(s.events) == None || Owed(s.events) == Some(s.driver))
    && Guarded(s.events)
  }

  lemma EventAppended(events: seq<Event>, e: Event)
    requires Guarded(events) && (e.Connected? ==> Torn(events) && Armed(events) && Owed(events) == None)
    ensures Guarded(events + [e])
    ensures (events + [e])[..|events|] == events && (events + [e])[|events|] == e
  {
    var all := events + [e];
    assert all[..|events|] == events;
    forall i | 0 <= i < |all| ensures GuardedAt(all, i) {
      if i < |events| {
        assert GuardedAt(events, i);
        assert all[..i] == events[..i];
      }
    }
  }

  lemma DetachKeeps(s: State, a: Teardown)
    requires Inv(s)
    ensures Inv(Detach(s, a)) && Armed(Detach(s, a).events) == Armed(s.events)
    ensures a.TornDown? ==> Detach(s, a).live == {} && Torn(Detach(s, a).events) && Owed(Detach(s, a).events) == None
  {
    EventAppended(s.events, Disconnected(s.driver, a.TornDown?));
    hide Guarded;
  }

  lemma ApplyKeeps(s: State, a: Protection, configured: bool)
    requires Inv(s)
    ensures Inv(ApplyAtomic(s, a).0) && Inv(Protect(s, a, configured).0)
    ensures Torn(ApplyAtomic(s, a).0.events) == Torn(s.events) && Owed(ApplyAtomic(s, a).0.events) == Owed(s.events)
    ensures a.Verified? ==> Armed(ApplyAtomic(s, a).0.events)
  {
    EventAppended(s.events, Applied(a.Verified?));
    hide Guarded;
  }

  lemma DisableKeeps(s: State, w: World)
    requires Inv(s) && s.live == {}
    ensures Inv(Disable(s, w)) && Torn(Disable(s, w).events) == Torn(s.events)
  {
    EventAppended(s.events, Disabled);
    hide Guarded;
  }

  lemma OpenKeeps(s: State, a: Opening)
    requires Inv(s) && s.live == {} && s.desired == On && Torn(s.events) && Armed(s.events) && Owed(s.events) == None
    ensures Inv(Open(s, a))
  {
    EventAppended(s.events, Connected(s.driver));
    hide Guarded;
  }

  lemma ReleaseKeeps(s: State, w: World)
    requires Inv(s) && s.live == {}
    ensures Inv(ReleaseProtection(s, w)) && ReleaseProtection(s, w).live == {}
  {
    DisableKeeps(s, w);
    hide Guarded, Armed, Torn, Owed;
  }

  lemma MaintainKeeps(s: State, w: World, a: Protection)
    requires Inv(s)
    ensures Inv(Maintain(s, w, a).0) && Maintain(s, w, a).0.desired == s.desired
  {
    ApplyKeeps(s, a, false);
    hide Guarded, Armed, Torn, Owed;
  }

  lemma TeardownKeeps(s: State, a: Teardown)
    requires Inv(s)
    ensures var (t, ok) := TeardownActive(s, a);
            && Inv(t) && t.desired == s.desired && Armed(t.events) == Armed(s.events) && ok == a.TornDown?
            && (ok ==> t.live == {} && Torn(t.events) && Owed(t.events) == None)
  {
    hide Guarded, Armed, Torn, Owed;
    DetachKeeps(s, a);
  }

  /** With everything torn down, any driver may become the current one. */
  lemma ActivateKeeps(s: State, d: Driver)
    requires Inv(s) && s.live == {} && Owed(s.events) == None
    ensures Inv(Activate(s, d))
  {
  }

  lemma ProtectKeeps(s: State, a: Protection, configured: bool)
    requires Inv(s)
    ensures var (t, ok) := Protect(s, a, configured);
            && Inv(t) && t.desired == s.desired && t.live == s.live
            && Torn(t.events) == Torn(s.events) && Owed(t.events) == Owed(s.events)
            && (ok ==> Armed(t.events))
  {
    hide Guarded, Armed, Torn, Owed;
    ApplyKeeps(s, a, configured);
  }

  lemma ReadyKeeps(s: State, w: World)
    requires Inv(s)
    ensures var (t, ok) := Ready(s, w);
            && Inv(t) && t.desired == s.desired
            && (ok ==> t.live == {} && Torn(t.events) && Armed(t.events) && Owed(t.events) == None)
  {
    hide Inv, Armed, Torn, Owed, TeardownActive, Protect;
    if w.preparation.Prepared? {
      TeardownKeeps(s, w.teardown);
      var (t, torn) := TeardownActive(s, w.teardown);
      if torn {
        ActivateKeeps(t, w.preparation.driver);
        ProtectKeeps(Activate(t, w.preparation.driver), w.protection, w.configured);
      }
    }
  }

  lemma DisconnectKeeps(s: State, w: World)
    requires Inv(s)
    ensures Inv(Disconnect(s, w).0)
    ensures Disconnect(s, w).1 ==> Disconnect(s, w).0.live == {} && Disconnect(s, w).0.desired == Off
  {
    DetachKeeps(s, w.teardown);
    var t := TeardownActive(s, w.teardown).0;
    assert Inv(t);
    if w.teardown.TornDown? {
      ReleaseKeeps(t, w);
    }
    hide Guarded, Armed, Torn, Owed;
  }

  lemma FailManualConnectKeeps(s: State, w: World)
    requires Inv(s)
    ensures Inv(FailManualConnect(s, w))
    ensures w.lastTeardown.TornDown? ==> FailManualConnect(s, w).live == {} && FailManualConnect(s, w).desired == Off
  {
    DetachKeeps(s, w.lastTeardown);
    var t := TeardownActive(s, w.lastTeardown).0;
    assert Inv(t);
    if w.lastTeardown.TornDown? {
      ReleaseKeeps(t, w);
    }
    hide Guarded, Armed, Torn, Owed;
  }

  lemma ConnectKeeps(s: State, id: string, w: World)
    requires Inv(s)
    ensures Inv(Connect(s, id, w))
  {
    hide Guarded, Armed, Torn, Owed;
    ReadyKeeps(s, w);
    var (t, ok) := Ready(s, w);
    hide Ready;
    if ok {
      var u := t.(desired := On, profile := Some(id));
      assert Inv(u);
      OpenKeeps(u, w.opening);
      FailManualConnectKeeps(Open(u, w.opening), w);
    }
  }

  /** What the router's verified flag stands for. */
  ghost predicate RouterOk(s: State, r: Router) {
    Inv(s) && s.desired == On && (r.verified ==> s.live == {} && Torn(s.events) && Owed(s.events) == None)
  }

  lemma RoutedConnectKeeps(s: State, r: Router, call: RouterCall, configured: bool)
    requires RouterOk(s, r) && call.RouterConnect?
    ensures var (t, next) := RoutedConnect(s, r, call, configured); RouterOk(t, next)
  {
    hide Armed, Torn, Owed, Guarded, Protect;
    if r.verified && Chosen(r, call).Prepared? {
      var d := Chosen(r, call).driver;
      ActivateKeeps(s, d);
      ProtectKeeps(Activate(s, d), call.protection, configured);
      var (t, ok) := Protect(Activate(s, d), call.protection, configured);
      if ok {
        OpenKeeps(t, call.opening);
      }
    }
  }

  lemma RoutedKeeps(s: State, r: Router, call: RouterCall, configured: bool)
    requires RouterOk(s, r)
    ensures var (t, next) := Routed(s, r, call, configured); RouterOk(t, next)
  {
    hide Armed, Torn, Owed, Guarded, RoutedConnect, TeardownActive, Inv;
    match call
    case Preflight(_, _) =>
    case RouterConnect(_, _, _, _) => RoutedConnectKeeps(s, r, call, configured);
    case RouterDisconnect(a) => TeardownKeeps(s, a);
  }

  /** Whatever calls the rotation engine makes, in whatever order. */
  lemma {:induction false} RouterRunKeeps(s: State, r: Router, calls: seq<RouterCall>, configured: bool)
    requires RouterOk(s, r)
    ensures var (t, next) := RouterRun(s, r, calls, configured); RouterOk(t, next)
    decreases |calls|
  {
    if calls != [] {
      RoutedKeeps(s, r, calls[0], configured);
      hide Routed, Inv;
      var (t, next) := Routed(s, r, calls[0], configured);
      RouterRunKeeps(t, next, calls[1..], configured);
    }
  }

  lemma AllFailedKeeps(s: State, w: World)
    requires Inv(s)
    ensures Inv(AllFailedProtection(s, w)) && AllFailedProtection(s, w).desired == s.desired
  {
    hide Guarded, Armed, Torn, Owed;
    ApplyKeeps(s, w.lastProtection, false);
  }

  lemma AttemptRotationKeeps(s: State, w: World, force: bool)
    requires Inv(s) && s.desired == On
    ensures Inv(AttemptRotation(s, w, force)) && AttemptRotation(s, w, force).desired == On
  {
    hide Guarded, Armed, Torn, Owed, RouterRun, Maintain, AllFailedProtection;
    var t := s.(barrierFailed := false);
    AllFailedKeeps(t, w);
    RouterRunKeeps(t, Router(false, None), w.calls, w.configured);
    var u := RouterRun(t, Router(false, None), w.calls, w.configured).0;
    AllFailedKeeps(u, w);
    if w.rotation.Rotated? {
      MaintainKeeps(u.(failures := 0, profile := Some(w.rotation.profile)), w, w.lastProtection);
    }
  }

  lemma TryReconnectKeeps(s: State, w: World)
    requires Inv(s) && s.desired == On
    ensures Inv(TryReconnect(s, w).0) && TryReconnect(s, w).0.desired == On
  {
    hide Guarded, Armed, Torn, Owed, Ready, TeardownActive, Inv;
    ReadyKeeps(s, w);
    var (t, ok) := Ready(s, w);
    if ok {
      OpenKeeps(t, w.opening);
      TeardownKeeps(Open(t, w.opening), w.lastTeardown);
    }
  }

  lemma RecoverKeeps(s: State, w: World)
    requires Inv(s) && s.desired == On
    ensures Inv(Recover(s, w)) && Recover(s, w).desired == On
  {
    hide Guarded, Armed, Torn, Owed, TryReconnect, Maintain, AttemptRotation;
    var t := s.(barrierFailed := false);
    TryReconnectKeeps(t, w);
    var u := if w.profileFound then TryReconnect(t, w).0 else t;
    assert Inv(u) && u.desired == On;
    MaintainKeeps(u.(failures := 0), w, w.lastProtection);
    AttemptRotationKeeps(u.(failures := 0), w, false);
  }

  lemma TickKeeps(s: State, w: World)
    requires Inv(s)
    ensures Inv(Tick(s, w))
  {
    hide Guarded, Armed, Torn, Owed, Recover;
    MaintainKeeps(s, w, w.firstProtection);
    if AutomaticActions(s, w, false) {
      RecoverKeeps(Maintain(s, w, w.firstProtection).0, w);
    }
  }

  lemma StartStandbyKeeps(s: State, w: World)
    requires Inv(s) && s.live == {}
    ensures Inv(StartStandby(s, w))
  {
    hide Guarded, Armed, Torn, Owed;
    DisableKeeps(s, w);
  }

  lemma StartConnectionKeeps(s: State, w: World)
    requires Inv(s) && s.desired == On && (w.restartProtection ==> Armed(s.events))
    ensures Inv(StartConnection(s, w))
  {
    hide Guarded, Armed, Torn, Owed, TeardownActive, Protect, Inv;
    if w.preparation.Prepared? {
      TeardownKeeps(s, w.teardown);
      var (t, torn) := TeardownActive(s, w.teardown);
      if torn {
        ActivateKeeps(t, w.preparation.driver);
        var u := Activate(t, w.preparation.driver);
        ProtectKeeps(u, w.protection, w.configured);
        var (v, ok) := if w.restartProtection then (u, true) else Protect(u, w.protection, w.configured);
        if ok {
          OpenKeeps(v, w.opening);
          TeardownKeeps(Open(v, w.opening), w.lastTeardown);
        }
      }
    }
  }

  lemma StartupKeeps(s: State, w: World)
    requires Inv(s) && s.live == {}
    ensures Inv(Startup(s, w))
  {
    hide Guarded, Armed, Torn, Owed, StartStandby, StartConnection, Protect;
    StartStandbyKeeps(s, w);
    ProtectKeeps(s, w.firstProtection, w.configured);
    var (t, ok) := if w.restartProtection then Protect(s, w.firstProtection, w.configured) else (s, true);
    if ok && s.desired == On {
      StartConnectionKeeps(t, w);
    }
  }

  lemma ShutdownKeeps(s: State, w: World)
    requires Inv(s)
    ensures Inv(Shutdown(s, w)) && (w.teardown.TornDown? ==> Shutdown(s, w).live == {})
    ensures s.desired == On && w.protection.Verified? ==> Armed(Shutdown(s, w).events) && Shutdown(s, w).active
  {
    assert Protect(s, w.protection, w.configured).1 == w.protection.Verified?;
    hide Guarded, Armed, Torn, Owed, Protect, ReleaseProtection;
    ProtectKeeps(s, w.protection, w.configured);
    var desiredOn := !w.readable || s.desired == On;
    var t := if desiredOn then Protect(s, w.protection, w.configured).0 else s;
    DetachKeeps(t, w.teardown);
    if !desiredOn {
      ReleaseKeeps(Detach(t, w.teardown), w);
    }
  }

  lemma RenewedKeeps(s: State, d: Driver)
    requires Inv(s) && s.live == {}
    ensures Inv(Renewed(s, d)) && Renewed(s, d).live == {}
  {
    hide Guarded, Torn;
    EventAppended(s.events, Restarted);
    assert Owed(s.events + [Restarted]) == None;
    assert Armed(s.events + [Restarted]) == Armed(s.events);
    hide Owed, Armed;
  }

  lemma DoKeeps(s: State, op: Operation)
    requires Inv(s) && Possible(s, op)
    ensures Inv(Do(s, op))
  {
    match op
    case DoConnect(id, w) => ConnectKeeps(s, id, w);
    case DoDisconnect(w) => DisconnectKeeps(s, w);
    case DoTick(w) => TickKeeps(s, w);
    case DoScheduled(w) =>
      hide Inv, AttemptRotation;
      if AutomaticActions(s, w, true) {
        AttemptRotationKeeps(s, w, true);
      }
    case DoRotate(w) =>
      hide Inv, AttemptRotation;
      if AutomaticActions(s, w, false) {
        AttemptRotationKeeps(s, w, w.force);
      }
    case DoShutdown(w) => ShutdownKeeps(s, w);
    case DoRestart(d, w) =>
      RenewedKeeps(s, d);
      hide Inv, Startup, Renewed;
      StartupKeeps(Renewed(s, d), w);
    case SetAutoconnect(_) =>
  }

  // ---------------------------------------------------------------------
  // Whole runs
  // ---------------------------------------------------------------------

  lemma {:induction false} RunKeeps(s: State, ops: seq<Operation>)
    requires Inv(s) && Legal(s, ops)
    ensures Inv(Run(s, ops))
  {
    if ops != [] {
      hide Inv, Do, Possible;
      RunKeeps(s, ops[..|ops| - 1]);
      DoKeeps(Run(s, ops[..|ops| - 1]), ops[|ops| - 1]);
    }
  }

  /**
   * In every run at most one driver is live; it is the current one, and then the
   * desired state is on and the kill-switch policy is in force.
   */
  lemma LiveDriverIsCurrentAndProtected(s: State, ops: seq<Operation>)
    requires Beginning(s) && Legal(s, ops)
    ensures var t := Run(s, ops);
            && |t.live| <= 1 && (forall d :: d in t.live ==> d == t.driver)
            && (t.live != {} ==> t.desired == On && t.active)
  {
    RunKeeps(s, ops);
    var t := Run(s, ops);
    SubsetCardinality(t.live, {t.driver});
  }

  /**
   * In every run each driver connect comes after a verified teardown, with no
   * other connect in between, and after a successful atomic apply that nothing
   * has undone.
   */
  lemma EveryConnectIsGuarded(s: State, ops: seq<Operation>, i: nat)
    requires Beginning(s) && Legal(s, ops)
    requires i < |Run(s, ops).events| && Run(s, ops).events[i].Connected?
    ensures Torn(Run(s, ops).events[..i]) && Armed(Run(s, ops).events[..i])
  {
    RunKeeps(s, ops);
    assert GuardedAt(Run(s, ops).events, i);
  }

  /** What `Torn` says: the latest event about a driver, in this process, is a successful teardown. */
  lemma {:induction false} TornMeans(events: seq<Event>)
    ensures Torn(events) <==>
            exists k :: && 0 <= k < |events| && events[k].Disconnected? && events[k].ok
                        && forall j :: k < j < |events| ==> events[j].Applied? || events[j].Disabled?
  {
    if events != [] {
      var n := |events| - 1;
      TornMeans(events[..n]);
      if events[n].Applied? || events[n].Disabled? {
        if Torn(events[..n]) {
          var k :| && 0 <= k < n && events[..n][k].Disconnected? && events[..n][k].ok
                   && forall j :: k < j < n ==> events[..n][j].Applied? || events[..n][j].Disabled?;
          forall j | k < j < |events| ensures events[j].Applied? || events[j].Disabled? {
            assert j == n || events[j] == events[..n][j];
          }
          assert events[k] == events[..n][k];
        }
        if k :| && 0 <= k < |events| && events[k].Disconnected? && events[k].ok
                && forall j :: k < j < |events| ==> events[j].Applied? || events[j].Disabled? {
          assert events[..n][k] == events[k];
          assert forall j :: k < j < n ==> events[..n][j] == events[j];
        }
      }
    }
  }

  /** What `Armed` says: the policy was applied, and since then neither disabled nor used up by a connect. */
  lemma {:induction false} ArmedMeans(events: seq<Event>)
    ensures Armed(events) <==>
            exists k :: && 0 <= k < |events| && events[k] == Applied(true)
                        && forall j :: k < j < |events| ==> !events[j].Disabled? && !events[j].Connected?
  {
    if events != [] {
      var n := |events| - 1;
      ArmedMeans(events[..n]);
      if !events[n].Connected? && !events[n].Disabled? {
        if Armed(events[..n]) {
          var k :| && 0 <= k < n && events[..n][k] == Applied(true)
                   && forall j :: k < j < n ==> !events[..n][j].Disabled? && !events[..n][j].Connected?;
          forall j | k < j < |events| ensures !events[j].Disabled? && !events[j].Connected? {
            assert j == n || events[j] == events[..n][j];
          }
          assert events[k] == events[..n][k];
        }
        if k :| && 0 <= k < |events| && events[k] == Applied(true)
                && forall j :: k < j < |events| ==> !events[j].Disabled? && !events[j].Connected? {
          if k < n {
            assert events[..n][k] == events[k];
            assert forall j :: k < j < n ==> events[..n][j] == events[j];
          }
        }
      }
    }
  }

  /** The drivers connected, in order. */
  function Connects(events: seq<Event>): seq<Driver> {
    if events == [] then []
    else
      var e := events[|events| - 1];
      Connects(events[..|events| - 1]) + if e.Connected? then [e.driver] else []
  }

  lemma ConnectsSnoc(events: seq<Event>, e: Event)
    ensures Connects(events + [e]) == Connects(events) + if e.Connected? then [e.driver] else []
  {
    assert (events + [e])[..|events|] == events;
  }

  lemma ReleaseConnectsNothing(s: State, w: World)
    ensures Connects(ReleaseProtection(s, w).events) == Connects(s.events)
    ensures ReleaseProtection(s, w).desired == s.desired
  {
    ConnectsSnoc(s.events, Disabled);
  }

  lemma ProtectConnectsNothing(s: State, a: Protection, configured: bool)
    ensures Connects(ApplyAtomic(s, a).0.events) == Connects(s.events)
    ensures Connects(Protect(s, a, configured).0.events) == Connects(s.events)
  {
    ConnectsSnoc(s.events, Applied(a.Verified?));
  }

  lemma DetachConnectsNothing(s: State, a: Teardown)
    ensures Connects(Detach(s, a).events) == Connects(s.events)
    ensures Connects(TeardownActive(s, a).0.events) == Connects(s.events)
  {
    ConnectsSnoc(s.events, Disconnected(s.driver, a.TornDown?));
  }

  lemma FailManualConnectsNothing(s: State, w: World)
    ensures Connects(FailManualConnect(s, w).events) == Connects(s.events)
  {
    hide Connects;
    DetachConnectsNothing(s, w.lastTeardown);
    ReleaseConnectsNothing(TeardownActive(s, w.lastTeardown).0, w);
  }

  lemma ShutdownConnectsNothing(s: State, w: World)
    ensures Connects(Shutdown(s, w).events) == Connects(s.events) && Shutdown(s, w).desired == s.desired
  {
    hide Connects;
    ProtectConnectsNothing(s, w.protection, w.configured);
    var t := if !w.readable || s.desired == On then Protect(s, w.protection, w.configured).0 else s;
    DetachConnectsNothing(t, w.teardown);
    ReleaseConnectsNothing(Detach(t, w.teardown), w);
  }

  /** The router connects only on a verified teardown, which it uses up, and under a verified policy. */
  lemma RoutedConnectConnects(s: State, r: Router, call: RouterCall, configured: bool)
    requires call.RouterConnect?
    ensures var (t, next) := RoutedConnect(s, r, call, configured);
            if r.verified && Chosen(r, call).Prepared? && call.protection.Verified?
            then Connects(t.events) == Connects(s.events) + [Chosen(r, call).driver] && t.active && !next.verified
            else Connects(t.events) == Connects(s.events) && t.live == s.live && next.verified == r.verified
  {
    hide Connects;
    if r.verified && Chosen(r, call).Prepared? {
      var t := Activate(s, Chosen(r, call).driver);
      ProtectConnectsNothing(t, call.protection, configured);
      var u := Protect(t, call.protection, configured).0;
      ConnectsSnoc(u.events, Connected(u.driver));
    }
  }

  /** A startup connects once at most, and not at all when it is not to connect by itself. */
  lemma StartupConnects(s: State, w: World)
    ensures |Connects(Startup(s, w).events)| <= |Connects(s.events)| + 1
    ensures s.desired != On || !s.autoconnect ==> Connects(Startup(s, w).events) == Connects(s.events)
  {
    hide Connects;
    ConnectsSnoc(s.events, Disabled);
    ProtectConnectsNothing(s, w.firstProtection, w.configured);
    var t := if w.restartProtection then Protect(s, w.firstProtection, w.configured).0 else s;
    StartConnectionConnects(t, w);
    hide StartConnection;
  }

  lemma StartConnectionConnects(s: State, w: World)
    ensures |Connects(StartConnection(s, w).events)| <= |Connects(s.events)| + 1
  {
    hide Connects;
    if w.preparation.Prepared? {
      DetachConnectsNothing(s, w.teardown);
      var t := Activate(TeardownActive(s, w.teardown).0, w.preparation.driver);
      ProtectConnectsNothing(t, w.protection, w.configured);
      var u := if w.restartProtection then t else Protect(t, w.protection, w.configured).0;
      ConnectsSnoc(u.events, Connected(u.driver));
      DetachConnectsNothing(Open(u, w.opening), w.lastTeardown);
    }
  }

  lemma RenewedConnectsNothing(s: State, d: Driver)
    ensures Connects(Renewed(s, d).events) == Connects(s.events)
  {
    ConnectsSnoc(s.events, Restarted);
  }

  /** With the desired state off, nothing but a manual connect connects. */
  lemma OffStaysQuiet(s: State, op: Operation)
    requires s.desired == Off && !op.DoConnect?
    ensures Do(s, op).desired == Off && Connects(Do(s, op).events) == Connects(s.events)
  {
    hide Connects;
    match op
    case DoDisconnect(w) =>
      DetachConnectsNothing(s, w.teardown);
      ReleaseConnectsNothing(TeardownActive(s, w.teardown).0, w);
    case DoShutdown(w) =>
      ProtectConnectsNothing(s, w.protection, w.configured);
      var t := if !w.readable then Protect(s, w.protection, w.configured).0 else s;
      DetachConnectsNothing(t, w.teardown);
      ReleaseConnectsNothing(Detach(t, w.teardown), w);
    case DoRestart(d, w) =>
      RenewedConnectsNothing(s, d);
    case _ =>
  }

  lemma {:induction false} OffRunStaysQuiet(s: State, ops: seq<Operation>)
    requires s.desired == Off && forall i :: 0 <= i < |ops| ==> !ops[i].DoConnect?
    ensures Run(s, ops).desired == Off && Connects(Run(s, ops).events) == Connects(s.events)
  {
    if ops != [] {
      hide Do, Connects;
      var init := ops[..|ops| - 1];
      OffRunStaysQuiet(s, init);
      OffStaysQuiet(Run(s, init), ops[|ops| - 1]);
    }
  }

  /**
   * After a successful manual disconnect no sequence of ticks, rotations,
   * shutdowns and restarts connects a driver or turns the desired state on.
   */
  lemma QuietAfterDisconnect(s: State, w: World, ops: seq<Operation>)
    requires Disconnect(s, w).1 && forall i :: 0 <= i < |ops| ==> !ops[i].DoConnect?
    ensures var t := Disconnect(s, w).0;
            Run(t, ops).desired == Off && Connects(Run(t, ops).events) == Connects(s.events)
  {
    hide Connects, Run;
    DetachConnectsNothing(s, w.teardown);
    ReleaseConnectsNothing(TeardownActive(s, w.teardown).0, w);
    OffRunStaysQuiet(Disconnect(s, w).0, ops);
  }

  /** Everything that happens by itself, or ends a connection. */
  predicate Unasked(op: Operation) {
    op.DoTick? || op.DoScheduled? || op.DoRestart? || op.DoShutdown? || op.DoDisconnect? || op == SetAutoconnect(false)
  }

  lemma AutoconnectOffStep(s: State, op: Operation)
    requires !s.autoconnect && Unasked(op)
    ensures !Do(s, op).autoconnect && Connects(Do(s, op).events) == Connects(s.events)
  {
    hide Connects;
    match op
    case DoTick(w) => ProtectConnectsNothing(s, w.firstProtection, false);
    case DoScheduled(w) =>
    case DoRestart(d, w) =>
      RenewedConnectsNothing(s, d);
      ConnectsSnoc(Renewed(s, d).events, Disabled);
    case DoShutdown(w) => ShutdownConnectsNothing(s, w);
    case DoDisconnect(w) =>
      DetachConnectsNothing(s, w.teardown);
      ReleaseConnectsNothing(TeardownActive(s, w.teardown).0, w);
    case SetAutoconnect(_) =>
  }

  /**
   * With autoconnect off no sequence of ticks, scheduled rotations, disconnects,
   * shutdowns and restarts connects a driver.
   */
  lemma {:induction false} AutoconnectOffConnectsNothing(s: State, ops: seq<Operation>)
    requires !s.autoconnect && forall i :: 0 <= i < |ops| ==> Unasked(ops[i])
    ensures !Run(s, ops).autoconnect && Connects(Run(s, ops).events) == Connects(s.events)
  {
    if ops != [] {
      hide Do, Connects, Unasked;
      var init := ops[..|ops| - 1];
      AutoconnectOffConnectsNothing(s, init);
      AutoconnectOffStep(Run(s, init), ops[|ops| - 1]);
    }
  }

  /** A driver that was connected and is not owed was torn down since, or its process ended. */
  lemma {:induction false} OwedMeans(events: seq<Event>, i: nat)
    requires i < |events| && events[i].Connected? && Owed(events) != Some(events[i].driver)
    requires forall j :: i < j < |events| ==> !events[j].Connected?
    ensures exists k :: i < k < |events| && (events[k] == Disconnected(events[i].driver, true) || events[k].Restarted?)
  {
    var n := |events| - 1;
    if i < n && events[n] != Disconnected(events[i].driver, true) && !events[n].Restarted? {
      assert events[..n][i] == events[i];
      assert Owed(events[..n]) != Some(events[i].driver);
      OwedMeans(events[..n], i);
      var k :| i < k < n && (events[..n][k] == Disconnected(events[i].driver, true) || events[..n][k].Restarted?);
      assert events[k] == events[..n][k];
    }
  }

  /**
   * Between two consecutive driver connects of a run the first of the two drivers
   * is torn down successfully, unless its process has ended.
   */
  lemma PreviousDriverTornDown(s: State, ops: seq<Operation>, i: nat, j: nat)
    requires Beginning(s) && Legal(s, ops)
    requires i < j < |Run(s, ops).events| && Run(s, ops).events[i].Connected? && Run(s, ops).events[j].Connected?
    requires forall m :: i < m < j ==> !Run(s, ops).events[m].Connected?
    ensures exists k :: && i < k < j
                        && (Run(s, ops).events[k] == Disconnected(Run(s, ops).events[i].driver, true) || Run(s, ops).events[k].Restarted?)
  {
    RunKeeps(s, ops);
    hide Run;
    var events := Run(s, ops).events;
    assert GuardedAt(events, j);
    var front := events[..j];
    assert forall m :: 0 <= m < j ==> front[m] == events[m];
    OwedMeans(front, i);
    var k :| i < k < j && (front[k] == Disconnected(front[i].driver, true) || front[k].Restarted?);
    assert events[k] == front[k];
  }

  /** What comes before a connect: after a failed teardown, a successful one. */
  lemma TornAfterFailure(front: seq<Event>, i: nat)
    requires Torn(front) && i < |front| && front[i].Disconnected? && !front[i].ok
    ensures exists k :: i < k < |front| && front[k].Disconnected? && front[k].ok
  {
    TornMeans(front);
    hide Torn;
    var k :| && 0 <= k < |front| && front[k].Disconnected? && front[k].ok
             && forall m :: k < m < |front| ==> front[m].Applied? || front[m].Disabled?;
    assert i < k;
  }

  /** In every run a failed teardown keeps every driver from being connected until a teardown succeeds. */
  lemma FailedTeardownBlocks(s: State, ops: seq<Operation>, i: nat, j: nat)
    requires Beginning(s) && Legal(s, ops) && i < j < |Run(s, ops).events|
    requires Run(s, ops).events[i].Disconnected? && !Run(s, ops).events[i].ok && Run(s, ops).events[j].Connected?
    ensures exists k :: i < k < j && Run(s, ops).events[k].Disconnected? && Run(s, ops).events[k].ok
  {
    hide Run, Legal, Beginning, Torn, Armed;
    EveryConnectIsGuarded(s, ops, j);
    var events := Run(s, ops).events;
    TornAfterFailure(events[..j], i);
    var k :| i < k < j && events[..j][k].Disconnected? && events[..j][k].ok;
    assert events[k] == events[..j][k];
  }

  lemma ReconnectConnectsOnce(s: State, w: World)
    ensures |Connects(TryReconnect(s, w).0.events)| <= |Connects(s.events)| + 1
    ensures TryReconnect(s, w).0.failures == s.failures
  {
    hide Connects;
    if w.preparation.Prepared? {
      DetachConnectsNothing(s, w.teardown);
      var t := Activate(TeardownActive(s, w.teardown).0, w.preparation.driver);
      ProtectConnectsNothing(t, w.protection, w.configured);
      var u := Protect(t, w.protection, w.configured).0;
      ConnectsSnoc(u.events, Connected(u.driver));
      DetachConnectsNothing(Open(u, w.opening), w.lastTeardown);
    }
  }

  /** The teardown before the reconnect fails, or the one after a connect whose traffic does not get out. */
  predicate TeardownFails(w: World) {
    && w.preparation.Prepared?
    && (!w.teardown.TornDown? || (w.protection.Verified? && w.opening.Opened? && !w.egressOk && !w.lastTeardown.TornDown?))
  }

  /**
   * A teardown that fails during recovery ends the operation: it is the last thing
   * that happens, no rotation starts, and the failure is not even counted.
   */
  lemma BarrierStopsRecovery(s: State, w: World)
    requires w.canRetry && w.profileFound && TeardownFails(w)
    ensures var t := Recover(s, w);
            && t.barrierFailed && t.failures == s.failures && |Connects(t.events)| <= |Connects(s.events)| + 1
            && t.events != [] && t.events[|t.events| - 1] == Disconnected(t.driver, false)
  {
    hide AfterFailure, Maintain, Connects;
    ReconnectConnectsOnce(s.(barrierFailed := false), w);
  }

  /**
   * Until the configured number of attempts has failed in a row, a recovery makes
   * at most one connect and counts a failure at most once; no rotation happens.
   */
  lemma RetriesBeforeRotation(s: State, w: World)
    requires s.failures + 1 < w.attempts
    ensures |Connects(Recover(s, w).events)| <= |Connects(s.events)| + 1
    ensures Recover(s, w).failures <= s.failures + 1
  {
    hide Connects, TryReconnect;
    var t := s.(barrierFailed := false);
    ReconnectConnectsOnce(t, w);
    var u := TryReconnect(t, w).0;
    ProtectConnectsNothing(u.(failures := 0), w.lastProtection, false);
  }

  // ---------------------------------------------------------------------
  // What a caller of each operation may count on
  // ---------------------------------------------------------------------

  /** What an operation keeps, whatever it was called on. */
  ghost predicate Keeps(s: State, t: State) {
    Inv(s) ==> Inv(t)
  }

  /** The same of an operation that is only called with the desired state on. */
  ghost predicate KeepsOn(s: State, t: State) {
    Inv(s) && s.desired == On ==> Inv(t) && t.desired == On
  }

  /** No driver was connected in between. */
  predicate Quiet(s: State, t: State) {
    Connects(t.events) == Connects(s.events)
  }

  /** Nothing is up, nothing is owed, and the last word about a driver is a verified teardown. */
  ghost predicate Cleared(s: State, t: State) {
    Inv(s) ==> t.live == {} && Torn(t.events) && Owed(t.events) == None
  }

  /** At most one connect in between. */
  predicate ConnectsOnce(s: State, t: State) {
    |Connects(t.events)| <= |Connects(s.events)| + 1
  }

  lemma TeardownSafe(s: State, a: Teardown)
    ensures var (t, ok) := TeardownActive(s, a);
            Keeps(s, t) && Quiet(s, t) && (ok ==> Cleared(s, t))
  {
    DetachConnectsNothing(s, a);
    hide TeardownActive, Inv, Torn, Owed, Armed, Connects;
    if Inv(s) {
      TeardownKeeps(s, a);
    }
  }

  lemma ProtectSafe(s: State, a: Protection, configured: bool)
    ensures var (t, ok) := Protect(s, a, configured);
            Keeps(s, t) && Quiet(s, t) && (ok ==> Armed(t.events))
  {
    ProtectConnectsNothing(s, a, configured);
    assert a.Verified? ==> Armed(s.events + [Applied(true)]);
    hide Inv, Torn, Owed, Armed, Connects;
    if Inv(s) {
      ProtectKeeps(s, a, configured);
    }
  }

  lemma MaintainSafe(s: State, w: World, a: Protection)
    ensures var (t, ok) := Maintain(s, w, a);
            && Keeps(s, t) && Quiet(s, t)
            && (ok && (w.configured || s.forced) ==> w.statusOk || Armed(t.events))
  {
    ProtectConnectsNothing(s, a, false);
    assert a.Verified? ==> Armed(s.events + [Applied(true)]);
    hide Inv, Torn, Owed, Armed, Connects;
    if Inv(s) {
      MaintainKeeps(s, w, a);
    }
  }

  lemma AllFailedSafe(s: State, w: World)
    ensures var t := AllFailedProtection(s, w);
            && Keeps(s, t) && Quiet(s, t)
            && ((w.configured || s.forced) && w.lastProtection.Verified? ==> w.seenActive || Armed(t.events))
  {
    ProtectConnectsNothing(s, w.lastProtection, false);
    assert Armed(s.events + [Applied(true)]);
    hide Inv, Torn, Owed, Armed, Connects;
    if Inv(s) {
      AllFailedKeeps(s, w);
    }
  }

  lemma ReleaseSafe(s: State, w: World)
    ensures var t := ReleaseProtection(s, w);
            (s.live == {} ==> Keeps(s, t)) && Quiet(s, t)
  {
    ReleaseConnectsNothing(s, w);
    hide ReleaseProtection, Inv, Connects;
    if Inv(s) && s.live == {} {
      ReleaseKeeps(s, w);
    }
  }

  /** A failed manual connect ends in standby, or with the cleanup barrier raised. */
  ghost predicate Settled(s: State, t: State) {
    Inv(s) ==> t.barrierFailed || (t.live == {} && t.desired == Off)
  }

  lemma FailManualSafe(s: State, w: World)
    ensures var t := FailManualConnect(s, w);
            Keeps(s, t) && Quiet(s, t) && Settled(s, t)
  {
    FailManualConnectsNothing(s, w);
    assert !w.lastTeardown.TornDown? ==> FailManualConnect(s, w).barrierFailed;
    hide FailManualConnect, Inv, Connects;
    if Inv(s) {
      FailManualConnectKeeps(s, w);
    }
  }

  lemma ReadySafe(s: State, w: World)
    ensures var (t, ok) := Ready(s, w);
            Keeps(s, t) && (ok ==> Cleared(s, t) && Armed(t.events))
  {
    ReadyArms(s, w);
    hide Ready, Inv, Torn, Owed, Armed;
    if Inv(s) {
      ReadyKeeps(s, w);
    }
  }

  lemma ReadyArms(s: State, w: World)
    ensures Ready(s, w).1 ==> Armed(Ready(s, w).0.events)
  {
    if w.preparation.Prepared? {
      ProtectSafe(Activate(TeardownActive(s, w.teardown).0, w.preparation.driver), w.protection, w.configured);
    }
    hide Keeps, Quiet, Armed, Protect, TeardownActive;
  }

  lemma ReconnectSafe(s: State, w: World)
    ensures var (t, attempt) := TryReconnect(s, w);
            KeepsOn(s, t) && ConnectsOnce(s, t)
  {
    ReconnectConnectsOnce(s, w);
    hide TryReconnect, Inv, Connects;
    if Inv(s) && s.desired == On {
      TryReconnectKeeps(s, w);
    }
  }

  lemma RotationSafe(s: State, w: World, force: bool)
    ensures var t := AttemptRotation(s, w, force);
            && KeepsOn(s, t)
            && ((!force && !w.rotationEnabled) || !w.policySupported ==> Quiet(s, t))
  {
    hide AttemptRotation, Inv, Connects, Quiet;
    if (!force && !w.rotationEnabled) || !w.policySupported {
      RotationRefused(s, w, force);
    }
    if Inv(s) && s.desired == On {
      AttemptRotationKeeps(s, w, force);
    }
  }

  lemma RotationRefused(s: State, w: World, force: bool)
    requires (!force && !w.rotationEnabled) || !w.policySupported
    ensures Quiet(s, AttemptRotation(s, w, force))
  {
    hide Connects, RouterRun, Maintain;
    ProtectConnectsNothing(s.(barrierFailed := false), w.lastProtection, false);
  }

  lemma RecoverSafe(s: State, w: World)
    ensures var t := Recover(s, w);
            && KeepsOn(s, t)
            && (s.failures + 1 < w.attempts ==> ConnectsOnce(s, t) && t.failures <= s.failures + 1)
  {
    hide Recover, Inv, Connects;
    if s.failures + 1 < w.attempts {
      RetriesBeforeRotation(s, w);
    }
    if Inv(s) && s.desired == On {
      RecoverKeeps(s, w);
    }
  }

  lemma AutomaticSafe(s: State, w: World)
    ensures Keeps(s, Tick(s, w)) && Keeps(s, ScheduledRotate(s, w)) && Keeps(s, RotateNow(s, w))
  {
    hide Inv, AttemptRotation, Tick;
    if Inv(s) {
      TickKeeps(s, w);
      if s.desired == On {
        AttemptRotationKeeps(s, w, true);
        AttemptRotationKeeps(s, w, w.force);
      }
    }
  }

  lemma StartupSafe(s: State, w: World)
    ensures var t := Startup(s, w);
            && (s.live == {} ==> Keeps(s, t)) && ConnectsOnce(s, t)
            && (s.desired != On || !s.autoconnect ==> Quiet(s, t))
  {
    StartupConnects(s, w);
    hide Startup, Inv, Connects;
    if Inv(s) && s.live == {} {
      StartupKeeps(s, w);
    }
  }

  /** A shutdown with the desired state on leaves the policy behind, to be found by the next process. */
  lemma ShutdownSafe(s: State, w: World)
    ensures var t := Shutdown(s, w);
            && Keeps(s, t) && Quiet(s, t) && t.desired == s.desired
            && (Inv(s) && w.teardown.TornDown? ==> t.live == {})
            && (Inv(s) && s.desired == On && w.protection.Verified? ==> t.active && Armed(t.events))
  {
    ShutdownConnectsNothing(s, w);
    hide Shutdown, Inv, Connects, Armed;
    if Inv(s) {
      ShutdownKeeps(s, w);
    }
  }

  lemma RoutedConnectSafe(s: State, r: Router, call: RouterCall, configured: bool)
    requires call.RouterConnect?
    ensures var (t, next) := RoutedConnect(s, r, call, configured);
            && (RouterOk(s, r) ==> RouterOk(t, next))
            && (!(r.verified && Chosen(r, call).Prepared? && call.protection.Verified?) ==> Quiet(s, t) && t.live == s.live)
  {
    RoutedConnectConnects(s, r, call, configured);
    hide RoutedConnect, RouterOk, Connects, Chosen;
    if RouterOk(s, r) {
      RoutedConnectKeeps(s, r, call, configured);
    }
  }
}
