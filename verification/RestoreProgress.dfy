/**
 * Nobody waits in vain: whenever some process is inside a restore, a recovery or an
 * access, one of them can go on.
 */
module RestoreProgress {
  import opened Common
  import opened ConfigFiles
  import opened RestoreInterleaving

  predicate TidyGoal(goal: Goal) {
    match goal
    case ForAccess(_, _) => true
    case ForRestore(entries, locked) => locked <= Paths(entries)
    case ForRollback(_, entries, locked, _) => locked <= Paths(entries)
  }

  /** A restore locks named files only, and drops the strangers before it puts anything back. */
  predicate Tidy(phase: Phase) {
    match phase
    case RestoreLocking(entries, locked) => locked <= Paths(entries)
    case Restoring(_, entries, locked) => locked <= Paths(entries)
    case Undoing(_, entries, locked, strangers, done) => locked <= Paths(entries) && (done > 0 ==> strangers == {})
    case WaitingForJournal(goal) => TidyGoal(goal)
    case Rechecking(goal) => TidyGoal(goal)
    case RecoveryLocking(goal, _, _, _) => TidyGoal(goal)
    case Rewriting(goal, _, _, _, _, _) => TidyGoal(goal)
    case Recovered(goal, _) => TidyGoal(goal)
    case _ => true
  }

  predicate LockAccounted(s: State, p: Path) {
    p in s.locks ==> p in LockedBy(PhaseOf(s, s.locks[p]))
  }

  predicate JournalAccounted(s: State) {
    s.journalLock.Some? ==> HoldsJournal(PhaseOf(s, s.journalLock.value))
  }

  /** Every lock has a holder that knows of it. */
  ghost predicate Accounted(s: State) {
    JournalAccounted(s) && (forall p :: LockAccounted(s, p)) && (forall pid :: Tidy(PhaseOf(s, pid)))
  }

  /** What a step does to the locks. */
  ghost predicate Locally(s: State, pid: Pid, s': State) {
    var phase := PhaseOf(s', pid);
    && (forall q :: q != pid ==> PhaseOf(s', q) == PhaseOf(s, q))
    && (forall p :: p in s'.locks ==>
          if s'.locks[p] == pid then p in LockedBy(phase) else p in s.locks && s.locks[p] == s'.locks[p])
    && (s'.journalLock.Some? ==> if s'.journalLock.value == pid then HoldsJournal(phase) else s'.journalLock == s.journalLock)
    && Tidy(phase)
  }

  lemma LocallyAccounted(s: State, pid: Pid, s': State)
    requires Accounted(s) && Locally(s, pid, s')
    ensures Accounted(s')
  {
    hide LockedBy, HoldsJournal, Tidy, PhaseOf;
    forall p ensures LockAccounted(s', p) {
      assert LockAccounted(s, p);
    }
    forall q ensures Tidy(PhaseOf(s', q)) {
      assert Tidy(PhaseOf(s, q));
    }
  }

  /** What the locks of one process are, before its step. */
  ghost predicate Before(s: State, pid: Pid) {
    && (forall p :: p in s.locks && s.locks[p] == pid ==> p in LockedBy(PhaseOf(s, pid)))
    && (s.journalLock == Some(pid) ==> HoldsJournal(PhaseOf(s, pid)))
    && Tidy(PhaseOf(s, pid))
  }

  lemma AccountedBefore(s: State, pid: Pid)
    requires Accounted(s)
    ensures Before(s, pid)
  {
    hide LockedBy, HoldsJournal, Tidy, PhaseOf;
    forall p | p in s.locks && s.locks[p] == pid ensures p in LockedBy(PhaseOf(s, pid)) {
      assert LockAccounted(s, p);
    }
  }

  lemma GiveUpLocally(s: State, pid: Pid)
    requires Before(s, pid)
    ensures Locally(s, pid, GiveUp(s, pid))
  {
  }

  lemma RestoreLocally(s: State, pid: Pid, a: RestoreStep)
    requires Before(s, pid) && RestoreEnabled(s, pid, a)
    ensures Locally(s, pid, RestoreNext(s, pid, a))
  {
    hide UpToDate, IsSnapshot, Overwrite, GiveUp;
    match a
    case BeginRestore(_) =>
    case LockForRestore(_) =>
    case RecoverFirst =>
    case WriteJournal(_) =>
    case Mutate(_, _) =>
    case Commit =>
    case RefuseJournal => GiveUpLocally(s, pid);
    case Close => GiveUpLocally(s, pid);
    case Abandon => GiveUpLocally(s, pid);
  }

  lemma RollbackLocally(s: State, pid: Pid, a: RollbackStep)
    requires Before(s, pid) && RollbackEnabled(s, pid, a)
    ensures Locally(s, pid, RollbackNext(s, pid, a))
  {
    hide Unnamed, Paths, Overwrite;
    match a
    case StartRollback =>
    case RecoverOwn =>
    case DropStranger(_) =>
    case PutBackNext =>
    case ClearOwn =>
  }

  /** A process that goes on holds what its goal kept. */
  lemma OnwardLocks(goal: Goal)
    ensures LockedBy(Onward(goal)) == Kept(goal) && (HoldsJournal(Onward(goal)) <==> !goal.ForAccess?)
    ensures TidyGoal(goal) ==> Tidy(Onward(goal))
  {
  }

  lemma RecheckLocally(s: State, pid: Pid)
    requires Before(s, pid) && RecoveryEnabled(s, pid, Recheck)
    ensures Locally(s, pid, RecoveryNext(s, pid, Recheck))
  {
    OnwardLocks(PhaseOf(s, pid).goal);
    hide Paths, Onward, Kept, TidyGoal;
  }

  lemma FinishLocally(s: State, pid: Pid)
    requires Before(s, pid) && RecoveryEnabled(s, pid, FinishRecovery)
    ensures Locally(s, pid, RecoveryNext(s, pid, FinishRecovery))
  {
    OnwardLocks(PhaseOf(s, pid).goal);
    hide Paths, Onward, Kept, TidyGoal;
  }

  lemma LockingLocally(s: State, pid: Pid, a: RecoveryStep)
    requires Before(s, pid) && RecoveryEnabled(s, pid, a) && (a.TakeJournalLock? || a.LockForRecovery? || a.StartRewriting?)
    ensures Locally(s, pid, RecoveryNext(s, pid, a))
  {
    hide Unnamed, Paths, TidyGoal, Kept;
  }

  lemma RewritingLocally(s: State, pid: Pid, a: RecoveryStep)
    requires Before(s, pid) && RecoveryEnabled(s, pid, a) && (a.PruneFile? || a.RewriteNext? || a.ClearRecovered?)
    ensures Locally(s, pid, RecoveryNext(s, pid, a))
  {
    hide Paths, TidyGoal, Kept, Overwrite;
  }

  lemma RecoveryLocally(s: State, pid: Pid, a: RecoveryStep)
    requires Before(s, pid) && RecoveryEnabled(s, pid, a)
    ensures Locally(s, pid, RecoveryNext(s, pid, a))
  {
    hide Unnamed, Locally, Before, RecoveryNext, RecoveryEnabled;
    match a
    case TakeJournalLock => LockingLocally(s, pid, a);
    case Recheck => RecheckLocally(s, pid);
    case LockForRecovery(_) => LockingLocally(s, pid, a);
    case StartRewriting => LockingLocally(s, pid, a);
    case PruneFile(_) => RewritingLocally(s, pid, a);
    case RewriteNext => RewritingLocally(s, pid, a);
    case ClearRecovered => RewritingLocally(s, pid, a);
    case FinishRecovery => FinishLocally(s, pid);
  }

  lemma AccessLocally(s: State, pid: Pid, a: AccessStep)
    requires Before(s, pid) && AccessEnabled(s, pid, a)
    ensures Locally(s, pid, AccessNext(s, pid, a))
  {
    match a
    case BeginAccess(_) =>
    case CheckJournal =>
    case TakeFileLock =>
    case Touch(_) =>
    case EndAccess => GiveUpLocally(s, pid);
    case Crash => GiveUpLocally(s, pid);
  }

  lemma StepAccounted(s: State, pid: Pid, a: Action)
    requires Accounted(s) && Enabled(s, pid, a)
    ensures Accounted(Next(s, pid, a))
  {
    hide Accounted, Locally, Before, RestoreEnabled, RestoreNext, RollbackEnabled, RollbackNext, RecoveryEnabled, RecoveryNext,
         AccessEnabled, AccessNext;
    AccountedBefore(s, pid);
    match a {
      case Restore(step) => RestoreLocally(s, pid, step);
      case RollBack(step) => RollbackLocally(s, pid, step);
      case Recover(step) => RecoveryLocally(s, pid, step);
      case Access(step) => AccessLocally(s, pid, step);
    }
    LocallyAccounted(s, pid, Next(s, pid, a));
  }

  lemma {:induction false} ReachableAccounted(s: State, events: seq<Event>, t: State)
    requires Initial(s) && Reaches(s, events, t)
    ensures Accounted(t)
  {
    if events != [] {
      hide Enabled, Next, Accounted;
      var last := events[|events| - 1];
      var u :| Reaches(s, events[..|events| - 1], u) && Enabled(u, last.pid, last.action) && t == Next(u, last.pid, last.action);
      ReachableAccounted(s, events[..|events| - 1], u);
      StepAccounted(u, last.pid, last.action);
    }
  }

  // ---------------------------------------------------------------------
  // Progress
  // ---------------------------------------------------------------------

  /** A process that has begun can take a step that brings it further, not by crashing or giving up. */
  ghost predicate CanGoOn(s: State, pid: Pid) {
    && !PhaseOf(s, pid).Idle?
    && exists a :: && Enabled(s, pid, a) && PhaseOf(Next(s, pid, a), pid) != PhaseOf(s, pid)
                   && a != Access(Crash) && a != Restore(Abandon) && a != Restore(RefuseJournal)
  }

  /** A restore that has all its locks but whose snapshot is no longer what is on disk. */
  ghost predicate Outdated(s: State, pid: Pid) {
    var phase := PhaseOf(s, pid);
    phase.RestoreLocking? && s.journal.None? && Paths(phase.entries) <= phase.locked && !UpToDate(s, phase.entries)
  }

  lemma GoesOn(s: State, pid: Pid, a: Action)
    requires !PhaseOf(s, pid).Idle? && Enabled(s, pid, a) && PhaseOf(Next(s, pid, a), pid) != PhaseOf(s, pid)
    requires a != Access(Crash) && a != Restore(Abandon) && a != Restore(RefuseJournal)
    ensures CanGoOn(s, pid)
  {
  }

  /** A phase in which nothing has to be waited for. */
  predicate Free(phase: Phase) {
    || phase.Restoring? || phase.Closing? || phase.Checking? || phase.Rechecking? || phase.Recovered? || phase.Accessing?
  }

  lemma FreeGoesOn(s: State, pid: Pid)
    requires Free(PhaseOf(s, pid))
    ensures CanGoOn(s, pid)
  {
    hide CanGoOn;
    match PhaseOf(s, pid)
    case Restoring(_, _, _) => GoesOn(s, pid, Restore(Commit));
    case Closing(_) => GoesOn(s, pid, Restore(Close));
    case Checking(_, _) => GoesOn(s, pid, Access(CheckJournal));
    case Rechecking(_) => GoesOn(s, pid, Recover(Recheck));
    case Recovered(_, _) => GoesOn(s, pid, Recover(FinishRecovery));
    case Accessing(_, _) => GoesOn(s, pid, Access(EndAccess));
  }

  lemma RewritingGoesOn(s: State, pid: Pid)
    requires Inv(s) && PhaseOf(s, pid).Rewriting?
    ensures CanGoOn(s, pid)
  {
    assert OwnOk(s, pid);
    hide Inv;
    var phase := PhaseOf(s, pid);
    if p :| p in phase.stale {
      GoesOn(s, pid, Recover(PruneFile(p)));
    } else if phase.done < |phase.entries| {
      GoesOn(s, pid, Recover(RewriteNext));
    } else {
      GoesOn(s, pid, Recover(ClearRecovered));
    }
  }

  /** The holder of a file lock goes on, unless it is the holder of the journal lock. */
  lemma HolderGoesOn(s: State, p: Path)
    requires Inv(s) && Accounted(s) && p in s.locks && s.journalLock != Some(s.locks[p])
    ensures CanGoOn(s, s.locks[p])
  {
    var q := s.locks[p];
    assert LockAccounted(s, p) && OwnOk(s, q);
    hide Inv, Accounted;
    HoldsIt(s, q);
    assert PhaseOf(s, q).Accessing?;
    FreeGoesOn(s, q);
  }

  /** A path that stands in the way of the journal's holder is held by somebody who goes on. */
  lemma InTheWay(s: State, pid: Pid, p: Path)
    requires Inv(s) && Accounted(s) && s.journalLock == Some(pid) && p in s.locks && s.locks[p] != pid
    ensures exists q :: CanGoOn(s, q)
  {
    hide Inv, Accounted, CanGoOn;
    HolderGoesOn(s, p);
  }

  lemma {:induction false} Above(ids: set<TransactionId>) returns (id: TransactionId)
    ensures forall i :: i in ids ==> i < id
  {
    id := 0;
    if ids != {} {
      var some :| some in ids;
      var rest := Above(ids - {some});
      id := if some < rest then rest else some + 1;
      assert forall i :: i in ids ==> i == some || i in ids - {some};
    }
  }

  lemma RestoreLockingGoesOn(s: State, pid: Pid)
    requires Inv(s) && Accounted(s) && PhaseOf(s, pid).RestoreLocking? && !Outdated(s, pid)
    ensures exists q :: CanGoOn(s, q)
  {
    var phase := PhaseOf(s, pid);
    assert OwnOk(s, pid);
    HoldsIt(s, pid);
    AccountedBefore(s, pid);
    if s.journal.Some? {
      GoesOn(s, pid, Restore(RecoverFirst));
    } else if p :| p in Paths(phase.entries) && p !in phase.locked {
      if p !in s.locks {
        GoesOn(s, pid, Restore(LockForRestore(p)));
      } else {
        InTheWay(s, pid, p);
      }
    } else {
      var id := Above(s.status.Keys);
      assert id !in s.status;
      GoesOn(s, pid, Restore(WriteJournal(id)));
    }
  }

  lemma RecoveryLockingGoesOn(s: State, pid: Pid)
    requires Inv(s) && Accounted(s) && PhaseOf(s, pid).RecoveryLocking?
    ensures exists q :: CanGoOn(s, q)
  {
    var phase := PhaseOf(s, pid);
    assert OwnOk(s, pid);
    HoldsIt(s, pid);
    if p :| p in Paths(phase.entries) && p !in phase.locked {
      if p !in s.locks || s.locks[p] == pid {
        GoesOn(s, pid, Recover(LockForRecovery(p)));
      } else {
        InTheWay(s, pid, p);
      }
    } else {
      GoesOn(s, pid, Recover(StartRewriting));
    }
  }

  lemma UndoingGoesOn(s: State, pid: Pid)
    requires Inv(s) && Accounted(s) && PhaseOf(s, pid).Undoing?
    ensures exists q :: CanGoOn(s, q)
  {
    var phase := PhaseOf(s, pid);
    assert OwnOk(s, pid);
    HoldsIt(s, pid);
    AccountedBefore(s, pid);
    if p :| p in phase.strangers {
      if s.journal.Some? {
        GoesOn(s, pid, RollBack(RecoverOwn));
      } else if p !in s.locks {
        GoesOn(s, pid, RollBack(DropStranger(p)));
      } else {
        assert s.locks[p] != pid;
        InTheWay(s, pid, p);
      }
    } else if phase.done < |phase.entries| {
      GoesOn(s, pid, RollBack(PutBackNext));
    } else {
      GoesOn(s, pid, RollBack(ClearOwn));
    }
  }

  /** The holder of the journal lock, or whoever it waits for, goes on. */
  lemma JournalHolderGoesOn(s: State, pid: Pid)
    requires Inv(s) && Accounted(s) && HoldsJournal(PhaseOf(s, pid)) && !Outdated(s, pid)
    ensures exists q :: CanGoOn(s, q)
  {
    hide Inv, Accounted, CanGoOn, Outdated;
    match PhaseOf(s, pid)
    case RestoreLocking(_, _) => RestoreLockingGoesOn(s, pid);
    case Undoing(_, _, _, _, _) => UndoingGoesOn(s, pid);
    case RecoveryLocking(_, _, _, _) => RecoveryLockingGoesOn(s, pid);
    case Rewriting(_, _, _, _, _, _) => RewritingGoesOn(s, pid);
    case _ => FreeGoesOn(s, pid);
  }

  /**
   * No deadlock: in every reachable state with a process that is not idle, some process
   * that is not idle can go on, unless a restore holds an outdated snapshot.
   */
  lemma SomebodyGoesOn(s: State, events: seq<Event>, t: State, pid: Pid)
    requires Initial(s) && Reaches(s, events, t) && !PhaseOf(t, pid).Idle? && forall q :: !Outdated(t, q)
    ensures exists q :: CanGoOn(t, q)
  {
    ReachableInv(s, events, t);
    ReachableAccounted(s, events, t);
    hide Inv, CanGoOn, Outdated, Reaches;
    var phase := PhaseOf(t, pid);
    if HoldsJournal(phase) {
      JournalHolderGoesOn(t, pid);
    } else if t.journalLock.Some? {
      assert JournalAccounted(t);
      JournalHolderGoesOn(t, t.journalLock.value);
    } else if phase.WaitingForJournal? {
      JournalFree(t, pid);
    } else if phase.WaitingForFile? {
      FileWaiterGoesOn(t, pid);
    } else {
      FreeGoesOn(t, pid);
    }
  }

  lemma JournalFree(s: State, pid: Pid)
    requires s.journalLock.None? && PhaseOf(s, pid).WaitingForJournal?
    ensures CanGoOn(s, pid)
  {
    GoesOn(s, pid, Recover(TakeJournalLock));
  }

  lemma FileWaiterGoesOn(s: State, pid: Pid)
    requires Inv(s) && Accounted(s) && s.journalLock.None? && PhaseOf(s, pid).WaitingForFile?
    ensures exists q :: CanGoOn(s, q)
  {
    var p := PhaseOf(s, pid).path;
    if p in s.locks {
      hide CanGoOn, Inv, Accounted;
      HolderGoesOn(s, p);
    } else {
      GoesOn(s, pid, Access(TakeFileLock));
    }
  }
}
