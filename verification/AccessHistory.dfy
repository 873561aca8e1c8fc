/** The access theorem told by the run itself: when the access began, and that it is still the same one. */
module AccessHistory {
  import opened Common
  import opened ConfigFiles
  import opened RestoreInterleaving

  lemma ReachesMore(s: State, events: seq<Event>, u: State, event: Event)
    requires Reaches(s, events, u) && Enabled(u, event.pid, event.action)
    ensures Reaches(s, events + [event], Next(u, event.pid, event.action))
  {
    hide Enabled, Next;
    var all := events + [event];
    assert all[|all| - 1] == event && all[..|all| - 1] == events;
  }

  lemma {:induction false} ReachesConcat(s: State, before: seq<Event>, u: State, after: seq<Event>, t: State)
    requires Reaches(s, before, u) && Reaches(u, after, t)
    ensures Reaches(s, before + after, t)
    decreases |after|
  {
    hide Enabled, Next, Reaches;
    if after == [] {
      ReachesNothing(u, t);
      assert before + after == before;
    } else {
      var init, last := after[..|after| - 1], after[|after| - 1];
      var v := LastStep(u, after, t);
      ReachesConcat(s, before, u, init, v);
      ReachesMore(s, before + init, v, last);
      assert before + after == before + init + [last];
    }
  }

  lemma ReachesNothing(s: State, t: State)
    requires Reaches(s, [], t)
    ensures s == t
  {
  }

  lemma LastStep(s: State, events: seq<Event>, t: State) returns (u: State)
    requires events != [] && Reaches(s, events, t)
    ensures var last := events[|events| - 1];
            Reaches(s, events[..|events| - 1], u) && Enabled(u, last.pid, last.action) && t == Next(u, last.pid, last.action)
  {
    hide Enabled, Next;
    var last := events[|events| - 1];
    u :| Reaches(s, events[..|events| - 1], u) && Enabled(u, last.pid, last.action) && t == Next(u, last.pid, last.action);
  }

  /** The process ends its access or crashes. */
  predicate Leaves(event: Event, pid: Pid) {
    event.pid == pid && event.action.Access? && (event.action.access.EndAccess? || event.action.access.Crash?)
  }

  ghost predicate Owes(s: State, pid: Pid, id: TransactionId) {
    id in OwedBy(PhaseOf(s, pid))
  }

  lemma OwesOnAccess(s: State, pid: Pid, a: AccessStep, id: TransactionId)
    requires AccessEnabled(s, pid, a) && Owes(s, pid, id) && !a.EndAccess? && !a.Crash?
    ensures Owes(AccessNext(s, pid, a), pid, id)
  {
  }

  lemma OwesOnRecovery(s: State, pid: Pid, a: RecoveryStep, id: TransactionId)
    requires RecoveryEnabled(s, pid, a) && Owes(s, pid, id)
    ensures Owes(RecoveryNext(s, pid, a), pid, id)
  {
    hide Unnamed, Overwrite, Paths, NextEntry, MoreToDo;
  }

  lemma OwesOnStep(s: State, event: Event, pid: Pid, id: TransactionId)
    requires Inv(s) && Enabled(s, event.pid, event.action) && Owes(s, pid, id) && !Leaves(event, pid)
    ensures Owes(Next(s, event.pid, event.action), pid, id)
  {
    if event.pid != pid {
      assert OwnOk(s, event.pid);
      StepFramed(s, event.pid, event.action);
      hide Enabled, Next, Inv, OwnOk;
    } else {
      match event.action
      case Access(a) => OwesOnAccess(s, pid, a, id);
      case Recover(a) => OwesOnRecovery(s, pid, a, id);
      case _ =>
    }
  }

  lemma {:induction false} OwesOnRun(s: State, events: seq<Event>, t: State, pid: Pid, id: TransactionId)
    requires Inv(s) && Reaches(s, events, t) && Owes(s, pid, id)
    requires forall i :: 0 <= i < |events| ==> !Leaves(events[i], pid)
    ensures Owes(t, pid, id) && Inv(t)
  {
    hide Enabled, Next, Inv, Owes, Leaves, Reaches;
    if events == [] {
      ReachesNothing(s, t);
    } else {
      var last := events[|events| - 1];
      var u := LastStep(s, events, t);
      OwesOnRun(s, events[..|events| - 1], u, pid, id);
      OwesOnStep(u, last, pid, id);
      StepKeeps(u, last.pid, last.action);
    }
  }

  /**
   * In any run: a transaction is abandoned, then a process begins an access and is still
   * in it. If it is inside its lock, the transaction is rolled back, nothing it wrote is on
   * disk, and each file it named is as before it, unless written since.
   */
  lemma AccessAfterAbandonment(s: State, before: seq<Event>, u: State, pid: Pid, path: Path, after: seq<Event>, t: State,
      id: TransactionId, p: Path)
    requires Initial(s) && Reaches(s, before, u) && Has(u, id, Abandoned)
    requires AccessEnabled(u, pid, BeginAccess(path)) && Reaches(AccessNext(u, pid, BeginAccess(path)), after, t)
    requires (forall i :: 0 <= i < |after| ==> !Leaves(after[i], pid)) && PhaseOf(t, pid).Accessing?
    ensures Has(t, id, RolledBack) && id in t.begun && id in t.settled
    ensures !LeftBy(t, id, p) && AsBefore(t, id, p)
  {
    hide Inv, Reaches, Leaves, AsBefore;
    var begin := Event(pid, Access(BeginAccess(path)));
    var v := Next(u, pid, begin.action);
    assert Owes(v, pid, id);
    hide Owes, AccessNext;
    ReachesMore(s, before, u, begin);
    ReachableInv(s, before + [begin], v);
    OwesOnRun(v, after, t, pid, id);
    ReachesConcat(s, before + [begin], v, after, t);
    OwedNow(t, pid, id);
    AccessSeesRollback(s, before + [begin] + after, t, pid, id, p);
  }

  lemma OwedNow(t: State, pid: Pid, id: TransactionId)
    requires Owes(t, pid, id) && PhaseOf(t, pid).Accessing?
    ensures id in PhaseOf(t, pid).owed
  {
  }
}
