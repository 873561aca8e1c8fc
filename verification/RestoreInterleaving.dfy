/**
 * Many processes sharing the configuration directory: restorers, accessors and
 * crashes, interleaved at lock, journal and file operations. Advisory locks
 * are released when their holder crashes; the journal is not.
 */
module RestoreInterleaving {
  import opened Common
  import opened ConfigFiles

  type Pid = nat

  type TransactionId = nat

  /** What has become of a journalled transaction. Abandoned: its writer crashed or gave up. */
  datatype Status = Active(writer: Pid) | Abandoned | Committed | RolledBack

  /**
   * Why a process recovers: to access one file, on the way into its own restore, or
   * because its own rollback takes the lock of a rule file it does not hold.
   */
  datatype Goal =
    | ForAccess(path: Path, owed: set<TransactionId>)
    | ForRestore(entries: seq<Entry>, locked: set<Path>)
    | ForRollback(id: TransactionId, entries: seq<Entry>, locked: set<Path>, strangers: set<Path>)

  /**
   * Where a process is. `owed` is fixed when an access begins: the transactions
   * abandoned by then. `strangers` are the unnamed rule files a rollback has listed
   * and `stale` those a recovery has listed, both still to be unlinked.
   */
  datatype Phase =
    | Idle
    | RestoreLocking(entries: seq<Entry>, locked: set<Path>)
    | Restoring(id: TransactionId, entries: seq<Entry>, locked: set<Path>)
    | Undoing(id: TransactionId, entries: seq<Entry>, locked: set<Path>, strangers: set<Path>, done: nat)
    | Closing(locked: set<Path>)
    | Checking(path: Path, owed: set<TransactionId>)
    | WaitingForJournal(goal: Goal)
    | Rechecking(goal: Goal)
    | RecoveryLocking(goal: Goal, id: TransactionId, entries: seq<Entry>, locked: set<Path>)
    | Rewriting(goal: Goal, id: TransactionId, entries: seq<Entry>, locked: set<Path>, stale: set<Path>, done: nat)
    | Recovered(goal: Goal, locked: set<Path>)
    | WaitingForFile(path: Path, owed: set<TransactionId>)
    | Accessing(path: Path, owed: set<TransactionId>)

  /** The last write of a file: when, and by which transaction if it was one's own. */
  datatype Stamp = Stamp(at: nat, author: Option<TransactionId>)

  /** The files a transaction found when it wrote its journal, and the paths it named there. */
  datatype Beginning = Beginning(files: map<Path, Bytes>, named: set<Path>)

  /** The files, the number of writes so far, and, as history, each file's last write. */
  datatype Storage = Storage(files: map<Path, Bytes>, clock: nat, written: map<Path, Stamp>)

  /** `begun` and `settled` are history: how each transaction began, and when its rollback was complete. */
  datatype State = State(
    phases: map<Pid, Phase>,
    journalLock: Option<Pid>,
    locks: map<Path, Pid>,
    journal: Option<(TransactionId, seq<Entry>)>,
    status: map<TransactionId, Status>,
    disk: Storage,
    begun: map<TransactionId, Beginning>,
    settled: map<TransactionId, nat>)

  function PhaseOf(s: State, pid: Pid): Phase {
    if pid in s.phases then s.phases[pid] else Idle
  }

  function At(files: map<Path, Bytes>, p: Path): Option<Bytes> {
    if p in files then Some(files[p]) else None
  }

  function Contents(s: State, p: Path): Option<Bytes> {
    At(s.disk.files, p)
  }

  function Overwrite(d: Storage, p: Path, content: Option<Bytes>, author: Option<TransactionId>): Storage {
    Storage(match content case None => d.files - {p} case Some(bytes) => d.files[p := bytes],
            d.clock + 1, d.written[p := Stamp(d.clock + 1, author)])
  }

  function WithFile(s: State, p: Path, content: Option<Bytes>, author: Option<TransactionId>): State {
    s.(disk := Overwrite(s.disk, p, content, author))
  }

  function To(s: State, pid: Pid, phase: Phase): State {
    s.(phases := s.phases[pid := phase])
  }

  /** Release every file lock of a process except those in `keep`. */
  function Release(s: State, pid: Pid, keep: set<Path>): State {
    s.(locks := map p | p in s.locks && (s.locks[p] != pid || p in keep) :: s.locks[p])
  }

  function ReleaseJournal(s: State, pid: Pid): State {
    if s.journalLock == Some(pid) then s.(journalLock := None) else s
  }

  function Paths(entries: seq<Entry>): set<Path> {
    set e | e in entries :: e.path
  }

  /** The rule files on disk that a transaction did not name. */
  function Unnamed(s: State, entries: seq<Entry>): set<Path> {
    set p | p in s.disk.files && p.Rule? && p !in Paths(entries)
  }

  function AbandonedIds(s: State): set<TransactionId> {
    set id | id in s.status && s.status[id].Abandoned?
  }

  /** The phase in which a recovered process goes on. */
  function Onward(goal: Goal): Phase {
    match goal
    case ForAccess(p, owed) => WaitingForFile(p, owed)
    case ForRestore(entries, locked) => RestoreLocking(entries, locked)
    case ForRollback(id, entries, locked, strangers) => Undoing(id, entries, locked, strangers, 0)
  }

  function Kept(goal: Goal): set<Path> {
    if goal.ForAccess? then {} else goal.locked
  }

  // ---------------------------------------------------------------------
  // Steps
  // ---------------------------------------------------------------------

  /** Steps of a process inside its own restore. */
  datatype RestoreStep =
    | BeginRestore(entries: seq<Entry>)      // take the journal lock
    | LockForRestore(path: Path)
    | RecoverFirst                           // a journal is found pending while locking
    | WriteJournal(id: TransactionId)
    | RefuseJournal
    | Mutate(path: Path, content: Option<Bytes>)
    | Commit
    | Close
    | Abandon

  /** Steps of the in-process rollback. */
  datatype RollbackStep =
    | StartRollback
    | RecoverOwn                             // the first stranger's lock finds the own journal
    | DropStranger(path: Path)
    | PutBackNext
    | ClearOwn

  /** Steps of a process recovering somebody's transaction. */
  datatype RecoveryStep =
    | TakeJournalLock
    | Recheck
    | LockForRecovery(path: Path)
    | StartRewriting
    | PruneFile(path: Path)
    | RewriteNext
    | ClearRecovered
    | FinishRecovery

  /** Steps of a process accessing one file, and the crash of any process. */
  datatype AccessStep =
    | BeginAccess(path: Path)
    | CheckJournal
    | TakeFileLock
    | Touch(content: Option<Bytes>)
    | EndAccess
    | Crash

  datatype Action =
    | Restore(restore: RestoreStep)
    | RollBack(rollback: RollbackStep)
    | Recover(recover: RecoveryStep)
    | Access(access: AccessStep)

  ghost predicate DistinctEntries(entries: seq<Entry>) {
    forall i, j :: 0 <= i < j < |entries| ==> entries[i].path != entries[j].path
  }

  /** A snapshot names each of its paths once, and the nine documents among them. */
  ghost predicate IsSnapshot(entries: seq<Entry>) {
    DistinctEntries(entries) && forall d: Document :: Doc(d) in Paths(entries)
  }

  /** Nobody has written a named file since the snapshot was taken. */
  ghost predicate UpToDate(s: State, entries: seq<Entry>) {
    forall i :: 0 <= i < |entries| ==> Contents(s, entries[i].path) == entries[i].before
  }

  predicate MoreToDo(phase: Phase) {
    (phase.Rewriting? || phase.Undoing?) && phase.done < |phase.entries|
  }

  ghost predicate RestoreEnabled(s: State, pid: Pid, a: RestoreStep) {
    var phase := PhaseOf(s, pid);
    match a
    case BeginRestore(entries) => phase.Idle? && s.journalLock.None? && IsSnapshot(entries)
    case LockForRestore(p) =>
      phase.RestoreLocking? && s.journal.None? && p in Paths(phase.entries) && p !in s.locks
    case RecoverFirst => phase.RestoreLocking? && s.journal.Some?
    case WriteJournal(id) =>
      && phase.RestoreLocking? && s.journal.None? && id !in s.status
      && Paths(phase.entries) <= phase.locked && UpToDate(s, phase.entries)
    case RefuseJournal => phase.RestoreLocking? && s.journal.Some?
    case Mutate(p, _) => phase.Restoring? && Managed(p)
    case Commit => phase.Restoring?
    case Close => phase.Closing?
    case Abandon => phase.Restoring? || phase.Undoing?
  }

  predicate RollbackEnabled(s: State, pid: Pid, a: RollbackStep) {
    var phase := PhaseOf(s, pid);
    match a
    case StartRollback => phase.Restoring?
    case RecoverOwn => phase.Undoing? && phase.done == 0 && phase.strangers != {} && s.journal.Some?
    case DropStranger(p) => phase.Undoing? && p in phase.strangers && s.journal.None? && p !in s.locks
    case PutBackNext => phase.Undoing? && phase.strangers == {} && MoreToDo(phase)
    case ClearOwn => phase.Undoing? && phase.strangers == {} && phase.done == |phase.entries|
  }

  predicate RecoveryEnabled(s: State, pid: Pid, a: RecoveryStep) {
    var phase := PhaseOf(s, pid);
    match a
    case TakeJournalLock => phase.WaitingForJournal? && s.journalLock.None?
    case Recheck => phase.Rechecking?
    case LockForRecovery(p) => phase.RecoveryLocking? && (p !in s.locks || s.locks[p] == pid)
    case StartRewriting => phase.RecoveryLocking? && Paths(phase.entries) <= phase.locked
    case PruneFile(p) => phase.Rewriting? && p in phase.stale
    case RewriteNext => phase.Rewriting? && phase.stale == {} && MoreToDo(phase)
    case ClearRecovered => phase.Rewriting? && phase.stale == {} && phase.done == |phase.entries|
    case FinishRecovery => phase.Recovered?
  }

  predicate AccessEnabled(s: State, pid: Pid, a: AccessStep) {
    var phase := PhaseOf(s, pid);
    match a
    case BeginAccess(_) => phase.Idle?
    case CheckJournal => phase.Checking?
    case TakeFileLock => phase.WaitingForFile? && phase.path !in s.locks
    case Touch(_) => phase.Accessing?
    case EndAccess => phase.Accessing?
    case Crash => !phase.Idle?
  }

  ghost predicate Enabled(s: State, pid: Pid, a: Action) {
    match a
    case Restore(step) => RestoreEnabled(s, pid, step)
    case RollBack(step) => RollbackEnabled(s, pid, step)
    case Recover(step) => RecoveryEnabled(s, pid, step)
    case Access(step) => AccessEnabled(s, pid, step)
  }

  /** Leave: every lock is released; a transaction in progress is abandoned. */
  function GiveUp(s: State, pid: Pid): State {
    var phase := PhaseOf(s, pid);
    var s' := Release(ReleaseJournal(To(s, pid, Idle), pid), pid, {});
    if phase.Restoring? then s'.(status := s.status[phase.id := Abandoned]) else s'
  }

  ghost function RestoreNext(s: State, pid: Pid, a: RestoreStep): State
    requires RestoreEnabled(s, pid, a)
  {
    var phase := PhaseOf(s, pid);
    match a
    case BeginRestore(entries) => To(s, pid, RestoreLocking(entries, {})).(journalLock := Some(pid))
    case LockForRestore(p) =>
      To(s, pid, RestoreLocking(phase.entries, phase.locked + {p})).(locks := s.locks[p := pid])
    case RecoverFirst => To(s, pid, Rechecking(ForRestore(phase.entries, phase.locked)))
    case WriteJournal(id) =>
      To(s, pid, Restoring(id, phase.entries, phase.locked))
        .(journal := Some((id, phase.entries)), status := s.status[id := Active(pid)],
          begun := s.begun[id := Beginning(s.disk.files, Paths(phase.entries))])
    case Mutate(p, content) => WithFile(s, p, content, Some(phase.id))
    case Commit => To(s, pid, Closing(phase.locked)).(journal := None, status := s.status[phase.id := Committed])
    case _ => GiveUp(s, pid)
  }

  /** The rollback of a transaction is complete. */
  function Settle(s: State, id: TransactionId): State {
    s.(journal := None, status := s.status[id := RolledBack], settled := s.settled[id := s.disk.clock])
  }

  function Dropped(phase: Phase, p: Path): Phase
    requires phase.Undoing?
  {
    Undoing(phase.id, phase.entries, phase.locked, phase.strangers - {p}, phase.done)
  }

  function Restored(phase: Phase): Phase
    requires phase.Undoing?
  {
    Undoing(phase.id, phase.entries, phase.locked, phase.strangers, phase.done + 1)
  }

  function RollbackNext(s: State, pid: Pid, a: RollbackStep): State
    requires RollbackEnabled(s, pid, a)
  {
    var phase := PhaseOf(s, pid);
    match a
    case StartRollback =>
      To(s, pid, Undoing(phase.id, phase.entries, phase.locked, Unnamed(s, phase.entries), 0))
        .(status := s.status[phase.id := Abandoned])
    case RecoverOwn => To(s, pid, Rechecking(ForRollback(phase.id, phase.entries, phase.locked, phase.strangers)))
    case DropStranger(p) => WithFile(To(s, pid, Dropped(phase, p)), p, None, None)
    case PutBackNext => WithFile(To(s, pid, Restored(phase)), NextEntry(phase).path, NextEntry(phase).before, None)
    case ClearOwn =>
      var s' := To(s, pid, Closing(phase.locked));
      if s.journal.None? then s' else Settle(s', phase.id)
  }

  /** The named file to be put back next. */
  function NextEntry(phase: Phase): Entry
    requires MoreToDo(phase)
  {
    phase.entries[phase.done]
  }

  function Pruned(phase: Phase, p: Path): Phase
    requires phase.Rewriting?
  {
    Rewriting(phase.goal, phase.id, phase.entries, phase.locked, phase.stale - {p}, phase.done)
  }

  function Rewritten(phase: Phase): Phase
    requires phase.Rewriting?
  {
    Rewriting(phase.goal, phase.id, phase.entries, phase.locked, phase.stale, phase.done + 1)
  }

  function RecoveryNext(s: State, pid: Pid, a: RecoveryStep): State
    requires RecoveryEnabled(s, pid, a)
  {
    var phase := PhaseOf(s, pid);
    match a
    case TakeJournalLock => To(s, pid, Rechecking(phase.goal)).(journalLock := Some(pid))
    case Recheck =>
      if s.journal.Some? then
        To(s, pid, RecoveryLocking(phase.goal, s.journal.value.0, s.journal.value.1, Kept(phase.goal)))
      else if phase.goal.ForAccess? then ReleaseJournal(To(s, pid, Onward(phase.goal)), pid)
      else To(s, pid, Onward(phase.goal))
    case LockForRecovery(p) =>
      To(s, pid, RecoveryLocking(phase.goal, phase.id, phase.entries, phase.locked + {p})).(locks := s.locks[p := pid])
    case StartRewriting =>
      To(s, pid, Rewriting(phase.goal, phase.id, phase.entries, phase.locked, Unnamed(s, phase.entries), 0))
    case PruneFile(p) => WithFile(To(s, pid, Pruned(phase, p)), p, None, None)
    case RewriteNext => WithFile(To(s, pid, Rewritten(phase)), NextEntry(phase).path, NextEntry(phase).before, None)
    case ClearRecovered => Settle(To(s, pid, Recovered(phase.goal, phase.locked)), phase.id)
    case FinishRecovery =>
      Release(if phase.goal.ForAccess? then ReleaseJournal(To(s, pid, Onward(phase.goal)), pid) else To(s, pid, Onward(phase.goal)),
              pid, Kept(phase.goal))
  }

  function AccessNext(s: State, pid: Pid, a: AccessStep): State
    requires AccessEnabled(s, pid, a)
  {
    var phase := PhaseOf(s, pid);
    match a
    case BeginAccess(p) => To(s, pid, Checking(p, AbandonedIds(s)))
    case CheckJournal =>
      To(s, pid, if s.journal.None? then WaitingForFile(phase.path, phase.owed)
                 else WaitingForJournal(ForAccess(phase.path, phase.owed)))
    case TakeFileLock => To(s, pid, Accessing(phase.path, phase.owed)).(locks := s.locks[phase.path := pid])
    case Touch(content) => WithFile(s, phase.path, content, None)
    case EndAccess => GiveUp(s, pid)
    case Crash => GiveUp(s, pid)
  }

  ghost function Next(s: State, pid: Pid, a: Action): State
    requires Enabled(s, pid, a)
  {
    match a
    case Restore(step) => RestoreNext(s, pid, step)
    case RollBack(step) => RollbackNext(s, pid, step)
    case Recover(step) => RecoveryNext(s, pid, step)
    case Access(step) => AccessNext(s, pid, step)
  }

  // ---------------------------------------------------------------------
  // The invariant
  // ---------------------------------------------------------------------

  predicate HoldsJournal(phase: Phase) {
    || phase.RestoreLocking? || phase.Restoring? || phase.Undoing? || phase.Closing? || phase.Rechecking?
    || phase.RecoveryLocking? || phase.Rewriting? || phase.Recovered?
  }

  function LockedBy(phase: Phase): set<Path> {
    match phase
    case RestoreLocking(_, locked) => locked
    case Restoring(_, _, locked) => locked
    case Undoing(_, _, locked, _, _) => locked
    case Closing(locked) => locked
    case Rechecking(goal) => Kept(goal)
    case RecoveryLocking(goal, _, _, locked) => locked + Kept(goal)
    case Rewriting(goal, _, _, locked, _, _) => locked + Kept(goal)
    case Recovered(goal, locked) => locked + Kept(goal)
    case Accessing(p, _) => {p}
    case _ => {}
  }

  /** The transactions an access in progress must not miss. */
  function OwedBy(phase: Phase): set<TransactionId> {
    match phase
    case Checking(_, owed) => owed
    case WaitingForJournal(ForAccess(_, owed)) => owed
    case Rechecking(ForAccess(_, owed)) => owed
    case RecoveryLocking(ForAccess(_, owed), _, _, _) => owed
    case Rewriting(ForAccess(_, owed), _, _, _, _, _) => owed
    case Recovered(ForAccess(_, owed), _) => owed
    case WaitingForFile(_, owed) => owed
    case Accessing(_, owed) => owed
    case _ => {}
  }

  predicate Past(phase: Phase) {
    phase.WaitingForFile? || phase.Accessing?
  }

  ghost predicate LocksOk(s: State, pid: Pid) {
    var phase := PhaseOf(s, pid);
    && (HoldsJournal(phase) ==> s.journalLock == Some(pid))
    && (forall p :: p in LockedBy(phase) ==> p in s.locks && s.locks[p] == pid)
  }

  ghost predicate OwedOk(s: State, pid: Pid) {
    var phase := PhaseOf(s, pid);
    forall id :: id in OwedBy(phase) ==>
      && id in s.status
      && (s.status[id].RolledBack? || (s.status[id].Abandoned? && !Past(phase)))
  }

  predicate Has(s: State, id: TransactionId, status: Status) {
    id in s.status && s.status[id] == status
  }

  /** The transaction a rollback hands over to a recovery, before and after that has settled it. */
  ghost predicate GoalOk(s: State, goal: Goal, recovered: bool) {
    match goal
    case ForAccess(_, _) => true
    case ForRestore(entries, _) => IsSnapshot(entries)
    case ForRollback(id, entries, locked, strangers) =>
      && IsSnapshot(entries) && Paths(entries) <= locked && strangers !! Paths(entries)
      && if recovered then Has(s, id, RolledBack) else s.journal == Some((id, entries))
  }

  ghost predicate OwnerOk(s: State, pid: Pid) {
    var phase := PhaseOf(s, pid);
    match phase
    case RestoreLocking(entries, _) => IsSnapshot(entries)
    case Restoring(id, entries, locked) =>
      Has(s, id, Active(pid)) && s.journal == Some((id, entries)) && Paths(entries) <= locked
    case Undoing(id, entries, locked, strangers, _) =>
      && Paths(entries) <= locked && IsSnapshot(entries) && strangers !! Paths(entries)
      && if s.journal.Some? then Has(s, id, Abandoned) && s.journal == Some((id, entries)) else Has(s, id, RolledBack)
    case WaitingForJournal(goal) => goal.ForAccess?
    case Rechecking(goal) => GoalOk(s, goal, false)
    case RecoveryLocking(goal, id, entries, _) =>
      Has(s, id, Abandoned) && s.journal == Some((id, entries)) && GoalOk(s, goal, false)
    case Rewriting(goal, id, entries, _, _, _) =>
      Has(s, id, Abandoned) && s.journal == Some((id, entries)) && GoalOk(s, goal, false)
    case Recovered(goal, _) => s.journal.None? && GoalOk(s, goal, true)
    case _ => true
  }

  /** The file is on disk and the transaction was the last to write it. */
  predicate LeftBy(s: State, id: TransactionId, p: Path) {
    p in s.disk.files && p in s.disk.written && s.disk.written[p].author == Some(id)
  }

  /** The first `done` named files are back, and what else the transaction left is listed in `rest`. */
  ghost predicate PutBack(s: State, id: TransactionId, entries: seq<Entry>, rest: set<Path>, done: nat) {
    && done <= |entries|
    && (forall i :: 0 <= i < done ==> Contents(s, entries[i].path) == entries[i].before && !LeftBy(s, id, entries[i].path))
    && (forall p :: LeftBy(s, id, p) ==> p in rest || p in Paths(entries))
  }

  /** How far a recovery or a rollback under the journal has come; it holds all named files. */
  ghost predicate ProgressOk(s: State, pid: Pid) {
    var phase := PhaseOf(s, pid);
    match phase
    case Undoing(id, entries, _, strangers, done) =>
      done <= |entries| && if s.journal.Some? then PutBack(s, id, entries, strangers, done) else UpToDate(s, entries)
    case Rewriting(_, id, entries, locked, stale, done) =>
      Paths(entries) <= locked && PutBack(s, id, entries, stale, done) && (done > 0 ==> stale == {})
    case Recovered(goal, _) => goal.ForRollback? ==> UpToDate(s, goal.entries)
    case _ => true
  }

  /** What the journal says is how its transaction began, and what it leaves is managed. */
  ghost predicate JournalSays(s: State, id: TransactionId, entries: seq<Entry>) {
    && IsSnapshot(entries)
    && id in s.begun && s.begun[id].named == Paths(entries)
    && (forall i :: 0 <= i < |entries| ==> At(s.begun[id].files, entries[i].path) == entries[i].before)
    && (forall p :: LeftBy(s, id, p) ==> Managed(p))
  }

  /** The journal belongs to the one transaction that is neither committed nor rolled back. */
  ghost predicate JournalOwned(s: State) {
    && (s.journal.Some? ==>
         && s.journal.value.0 in s.status
         && (s.status[s.journal.value.0].Active? || s.status[s.journal.value.0].Abandoned?))
    && (forall id :: id in s.status && (s.status[id].Active? || s.status[id].Abandoned?) ==>
          s.journal.Some? && s.journal.value.0 == id)
    && (forall id :: id in s.status && s.status[id].Active? ==>
          PhaseOf(s, s.status[id].writer).Restoring? && PhaseOf(s, s.status[id].writer).id == id)
  }

  ghost predicate JournalOk(s: State) {
    JournalOwned(s) && (s.journal.Some? ==> JournalSays(s, s.journal.value.0, s.journal.value.1))
  }

  /** A named file is as the transaction found it, or somebody has written it since the rollback was complete. */
  predicate AsBefore(s: State, id: TransactionId, p: Path)
    requires id in s.begun && id in s.settled
  {
    p in s.begun[id].named ==>
      Contents(s, p) == At(s.begun[id].files, p) || (p in s.disk.written && s.disk.written[p].at > s.settled[id])
  }

  /** Nothing a rolled-back transaction wrote is left. */
  ghost predicate SettledOk(s: State, id: TransactionId) {
    Has(s, id, RolledBack) ==>
      && id in s.begun && id in s.settled && s.settled[id] <= s.disk.clock
      && (forall p :: !LeftBy(s, id, p) && AsBefore(s, id, p))
  }

  ghost predicate OwnOk(s: State, pid: Pid) {
    LocksOk(s, pid) && OwedOk(s, pid) && OwnerOk(s, pid) && ProgressOk(s, pid)
  }

  /** A write was made in the past, and its author, if a transaction, has begun. */
  predicate AuthorKnown(s: State, p: Path) {
    p in s.disk.written ==>
      && s.disk.written[p].at <= s.disk.clock
      && (s.disk.written[p].author.Some? ==> s.disk.written[p].author.value in s.status)
  }

  ghost predicate Inv(s: State) {
    && JournalOk(s)
    && (forall pid :: OwnOk(s, pid))
    && (forall id :: SettledOk(s, id))
    && (forall p :: AuthorKnown(s, p))
  }

  // ---------------------------------------------------------------------
  // Every step keeps the invariant
  // ---------------------------------------------------------------------

  /** What a step of one process can change for the others. */
  ghost predicate Framed(s: State, pid: Pid, s': State) {
    && (forall q :: q != pid ==> PhaseOf(s', q) == PhaseOf(s, q))
    && (s.journalLock.Some? && s.journalLock.value != pid ==>
         s'.journalLock == s.journalLock && s'.journal == s.journal)
    && (forall p :: p in s.locks && s.locks[p] != pid ==> p in s'.locks && s'.locks[p] == s.locks[p])
  }

  /** Statuses move only forward, and only by the holder of the journal lock; the history of the settled stays. */
  ghost predicate StatusMoves(s: State, pid: Pid, s': State) {
    forall id :: id in s.status ==>
      && id in s'.status
      && (s'.status[id] != s.status[id] ==>
           && s.journalLock == Some(pid)
           && (s.status[id].Active? || (s.status[id].Abandoned? && s'.status[id].RolledBack?)))
      && (id in s.begun ==> id in s'.begun && s'.begun[id] == s.begun[id])
      && (s.status[id].RolledBack? && id in s.settled ==> id in s'.settled && s'.settled[id] == s.settled[id])
  }

  predicate Untouched(s: State, s': State, p: Path) {
    && Contents(s', p) == Contents(s, p)
    && (p in s.disk.written <==> p in s'.disk.written)
    && (p in s.disk.written ==> s'.disk.written[p] == s.disk.written[p])
  }

  /** A write is made under the file's lock or the journal lock; under a transaction's name only by its writer. */
  predicate WrittenBy(s: State, pid: Pid, s': State, p: Path) {
    && p in s'.disk.written && s'.disk.written[p].at == s'.disk.clock == s.disk.clock + 1
    && (s.journalLock == Some(pid) || (p in s.locks && s.locks[p] == pid))
    && (s'.disk.written[p].author.Some? ==>
         s.journalLock == Some(pid) && Managed(p) && Has(s, s'.disk.written[p].author.value, Active(pid)))
  }

  ghost predicate WritesLocked(s: State, pid: Pid, s': State) {
    s.disk.clock <= s'.disk.clock && forall p :: Untouched(s, s', p) || WrittenBy(s, pid, s', p)
  }

  ghost predicate Effect(s: State, pid: Pid, s': State) {
    Framed(s, pid, s') && StatusMoves(s, pid, s') && WritesLocked(s, pid, s')
  }

  lemma HoldsIt(s: State, pid: Pid)
    requires OwnOk(s, pid)
    ensures HoldsJournal(PhaseOf(s, pid)) ==> s.journalLock == Some(pid)
  {
  }

  lemma FileOnly(u: State, p: Path, content: Option<Bytes>, author: Option<TransactionId>)
    ensures var s' := WithFile(u, p, content, author);
            && s'.phases == u.phases && s'.journalLock == u.journalLock && s'.journal == u.journal && s'.locks == u.locks
            && s'.status == u.status && s'.begun == u.begun && s'.settled == u.settled
  {
  }

  lemma Releases(u: State, pid: Pid, keep: set<Path>)
    ensures var s' := Release(u, pid, keep);
            && s'.phases == u.phases && s'.journalLock == u.journalLock && s'.journal == u.journal
            && s'.status == u.status && s'.disk == u.disk && s'.begun == u.begun && s'.settled == u.settled
            && forall p :: p in u.locks && (u.locks[p] != pid || p in keep) ==> p in s'.locks && s'.locks[p] == u.locks[p]
  {
  }

  predicate SameFiles(s: State, u: State) {
    u.disk == s.disk
  }

  lemma NothingWritten(s: State, pid: Pid, s': State)
    requires SameFiles(s, s')
    ensures WritesLocked(s, pid, s')
  {
  }

  lemma OneWritten(s: State, pid: Pid, u: State, p: Path, content: Option<Bytes>, author: Option<TransactionId>)
    requires SameFiles(s, u) && (s.journalLock == Some(pid) || (p in s.locks && s.locks[p] == pid))
    requires author.Some? ==> s.journalLock == Some(pid) && Managed(p) && Has(s, author.value, Active(pid))
    ensures WritesLocked(s, pid, WithFile(u, p, content, author))
  {
  }

  lemma RestoreWrites(s: State, pid: Pid, a: RestoreStep)
    requires OwnOk(s, pid) && RestoreEnabled(s, pid, a)
    ensures WritesLocked(s, pid, RestoreNext(s, pid, a))
  {
    HoldsIt(s, pid);
    hide UpToDate, WritesLocked, IsSnapshot, LocksOk, OwedOk, ProgressOk;
    if a.Mutate? {
      OneWritten(s, pid, s, a.path, a.content, Some(PhaseOf(s, pid).id));
    } else {
      NothingWritten(s, pid, RestoreNext(s, pid, a));
    }
  }

  lemma RestoreFramed(s: State, pid: Pid, a: RestoreStep)
    requires OwnOk(s, pid) && RestoreEnabled(s, pid, a)
    ensures Framed(s, pid, RestoreNext(s, pid, a))
  {
    HoldsIt(s, pid);
    hide UpToDate, IsSnapshot, OwnOk;
  }

  lemma RestoreMoves(s: State, pid: Pid, a: RestoreStep)
    requires OwnOk(s, pid) && RestoreEnabled(s, pid, a)
    ensures StatusMoves(s, pid, RestoreNext(s, pid, a))
  {
    HoldsIt(s, pid);
    hide UpToDate, IsSnapshot, LocksOk, OwedOk, ProgressOk, GoalOk, HoldsJournal;
  }

  lemma RollbackWrites(s: State, pid: Pid, a: RollbackStep)
    requires OwnOk(s, pid) && RollbackEnabled(s, pid, a)
    ensures WritesLocked(s, pid, RollbackNext(s, pid, a))
  {
    HoldsIt(s, pid);
    hide Unnamed, WritesLocked, WithFile, Dropped, Restored, Pruned, Rewritten, NextEntry, IsSnapshot, LocksOk, OwedOk, ProgressOk;
    var phase := PhaseOf(s, pid);
    match a
    case DropStranger(p) => OneWritten(s, pid, To(s, pid, Dropped(phase, p)), p, None, None);
    case PutBackNext => OneWritten(s, pid, To(s, pid, Restored(phase)), NextEntry(phase).path, NextEntry(phase).before, None);
    case _ => NothingWritten(s, pid, RollbackNext(s, pid, a));
  }

  lemma RollbackFramed(s: State, pid: Pid, a: RollbackStep)
    requires OwnOk(s, pid) && RollbackEnabled(s, pid, a)
    ensures Framed(s, pid, RollbackNext(s, pid, a))
  {
    HoldsIt(s, pid);
    hide Unnamed, IsSnapshot, OwnOk;
  }

  lemma RollbackMoves(s: State, pid: Pid, a: RollbackStep)
    requires OwnOk(s, pid) && RollbackEnabled(s, pid, a)
    ensures StatusMoves(s, pid, RollbackNext(s, pid, a))
  {
    HoldsIt(s, pid);
    hide Unnamed, IsSnapshot, LocksOk, OwedOk, ProgressOk, GoalOk, HoldsJournal;
  }

  /** All recovery steps but the two that write. */
  lemma RecoveryReadsOnly(s: State, pid: Pid, a: RecoveryStep)
    requires RecoveryEnabled(s, pid, a) && !a.PruneFile? && !a.RewriteNext?
    ensures SameFiles(s, RecoveryNext(s, pid, a))
  {
    hide Unnamed, Onward, Kept, Paths, PhaseOf, MoreToDo, NextEntry;
    match a
    case TakeJournalLock =>
    case Recheck =>
    case LockForRecovery(_) =>
    case StartRewriting =>
    case ClearRecovered =>
    case FinishRecovery =>
  }

  lemma RecoveryWrites(s: State, pid: Pid, a: RecoveryStep)
    requires OwnOk(s, pid) && RecoveryEnabled(s, pid, a)
    ensures WritesLocked(s, pid, RecoveryNext(s, pid, a))
  {
    HoldsIt(s, pid);
    hide WritesLocked, WithFile, Pruned, Rewritten, NextEntry, OwnOk, HoldsJournal, SameFiles, Has;
    var phase := PhaseOf(s, pid);
    if a.PruneFile? {
      assert HoldsJournal(phase);
      SamePhaseFiles(s, pid, Pruned(phase, a.path));
      OneWritten(s, pid, To(s, pid, Pruned(phase, a.path)), a.path, None, None);
    } else if a.RewriteNext? {
      assert HoldsJournal(phase);
      SamePhaseFiles(s, pid, Rewritten(phase));
      OneWritten(s, pid, To(s, pid, Rewritten(phase)), NextEntry(phase).path, NextEntry(phase).before, None);
    } else {
      RecoveryReadsOnly(s, pid, a);
      hide RecoveryNext;
      NothingWritten(s, pid, RecoveryNext(s, pid, a));
    }
  }

  lemma SamePhaseFiles(s: State, pid: Pid, phase: Phase)
    ensures SameFiles(s, To(s, pid, phase))
  {
  }

  lemma RecoveryFramed(s: State, pid: Pid, a: RecoveryStep)
    requires OwnOk(s, pid) && RecoveryEnabled(s, pid, a)
    ensures Framed(s, pid, RecoveryNext(s, pid, a))
  {
    HoldsIt(s, pid);
    hide Unnamed, IsSnapshot, OwnOk, WithFile, Release, Pruned, Rewritten, NextEntry, Onward;
    var phase := PhaseOf(s, pid);
    match a
    case PruneFile(p) => FileOnly(To(s, pid, Pruned(phase, p)), p, None, None);
    case RewriteNext => FileOnly(To(s, pid, Rewritten(phase)), NextEntry(phase).path, NextEntry(phase).before, None);
    case FinishRecovery =>
      Releases(To(s, pid, Onward(phase.goal)), pid, Kept(phase.goal));
      Releases(ReleaseJournal(To(s, pid, Onward(phase.goal)), pid), pid, Kept(phase.goal));
    case _ =>
  }

  lemma RecoveryMoves(s: State, pid: Pid, a: RecoveryStep)
    requires OwnOk(s, pid) && RecoveryEnabled(s, pid, a)
    ensures StatusMoves(s, pid, RecoveryNext(s, pid, a))
  {
    HoldsIt(s, pid);
    hide Unnamed, IsSnapshot, LocksOk, OwedOk, ProgressOk, GoalOk, HoldsJournal;
  }

  lemma AccessWrites(s: State, pid: Pid, a: AccessStep)
    requires OwnOk(s, pid) && AccessEnabled(s, pid, a)
    ensures WritesLocked(s, pid, AccessNext(s, pid, a))
  {
    HoldsIt(s, pid);
    hide WritesLocked, IsSnapshot, OwedOk, ProgressOk, OwnerOk;
    if a.Touch? {
      OneWritten(s, pid, s, PhaseOf(s, pid).path, a.content, None);
    } else {
      NothingWritten(s, pid, AccessNext(s, pid, a));
    }
  }

  lemma AccessFramed(s: State, pid: Pid, a: AccessStep)
    requires OwnOk(s, pid) && AccessEnabled(s, pid, a)
    ensures Framed(s, pid, AccessNext(s, pid, a))
  {
    HoldsIt(s, pid);
    hide IsSnapshot, OwnOk;
  }

  lemma AccessMoves(s: State, pid: Pid, a: AccessStep)
    requires OwnOk(s, pid) && AccessEnabled(s, pid, a)
    ensures StatusMoves(s, pid, AccessNext(s, pid, a))
  {
    HoldsIt(s, pid);
    hide IsSnapshot, LocksOk, OwedOk, ProgressOk, GoalOk, HoldsJournal;
  }

  lemma StepFramed(s: State, pid: Pid, a: Action)
    requires OwnOk(s, pid) && Enabled(s, pid, a)
    ensures Effect(s, pid, Next(s, pid, a))
  {
    hide Framed, StatusMoves, WritesLocked, OwnOk, RestoreNext, RollbackNext, RecoveryNext, AccessNext;
    hide RestoreEnabled, RollbackEnabled, RecoveryEnabled, AccessEnabled;
    match a {
      case Restore(step) =>
        RestoreFramed(s, pid, step);
        RestoreMoves(s, pid, step);
        RestoreWrites(s, pid, step);
      case RollBack(step) =>
        RollbackFramed(s, pid, step);
        RollbackMoves(s, pid, step);
        RollbackWrites(s, pid, step);
      case Recover(step) =>
        RecoveryFramed(s, pid, step);
        RecoveryMoves(s, pid, step);
        RecoveryWrites(s, pid, step);
      case Access(step) =>
        AccessFramed(s, pid, step);
        AccessMoves(s, pid, step);
        AccessWrites(s, pid, step);
    }
  }

  /** Progress under the journal is not disturbed by a process that does not hold it. */
  lemma PutBackKept(s: State, pid: Pid, s': State, q: Pid, id: TransactionId, entries: seq<Entry>, rest: set<Path>, done: nat)
    requires WritesLocked(s, pid, s') && s.journalLock == Some(q) && q != pid && PutBack(s, id, entries, rest, done)
    requires forall p :: p in Paths(entries) ==> p in s.locks && s.locks[p] == q
    ensures PutBack(s', id, entries, rest, done)
  {
    forall p ensures LeftBy(s', id, p) ==> LeftBy(s, id, p) {
      assert Untouched(s, s', p) || WrittenBy(s, pid, s', p);
    }
    forall i | 0 <= i < done ensures Contents(s', entries[i].path) == entries[i].before && !LeftBy(s', id, entries[i].path) {
      var p := entries[i].path;
      assert entries[i] in entries && p in Paths(entries);
      assert Untouched(s, s', p) || WrittenBy(s, pid, s', p);
    }
  }

  lemma UpToDateKept(s: State, pid: Pid, s': State, q: Pid, entries: seq<Entry>)
    requires WritesLocked(s, pid, s') && s.journalLock == Some(q) && q != pid && UpToDate(s, entries)
    requires forall p :: p in Paths(entries) ==> p in s.locks && s.locks[p] == q
    ensures UpToDate(s', entries)
  {
    forall i | 0 <= i < |entries| ensures Contents(s', entries[i].path) == entries[i].before {
      var p := entries[i].path;
      assert entries[i] in entries && p in Paths(entries);
      assert Untouched(s, s', p) || WrittenBy(s, pid, s', p);
    }
  }

  lemma OthersKept(s: State, pid: Pid, s': State, q: Pid)
    requires OwnOk(s, q) && q != pid && Effect(s, pid, s')
    ensures OwnOk(s', q)
  {
    hide PutBack, UpToDate, IsSnapshot, WritesLocked;
    var phase := PhaseOf(s, q);
    if phase.Undoing? && s.journal.Some? {
      PutBackKept(s, pid, s', q, phase.id, phase.entries, phase.strangers, phase.done);
    } else if phase.Undoing? {
      UpToDateKept(s, pid, s', q, phase.entries);
    } else if phase.Recovered? && phase.goal.ForRollback? {
      UpToDateKept(s, pid, s', q, phase.goal.entries);
    } else if phase.Rewriting? {
      PutBackKept(s, pid, s', q, phase.id, phase.entries, phase.stale, phase.done);
    }
  }

  /** The journal a process finds under the journal lock has no active writer. */
  lemma FoundAbandoned(s: State, pid: Pid)
    requires Inv(s) && PhaseOf(s, pid).Rechecking? && s.journal.Some?
    ensures Has(s, s.journal.value.0, Abandoned)
  {
    var status := s.status[s.journal.value.0];
    var writer := if status.Active? then status.writer else pid;
    assert OwnOk(s, pid) && OwnOk(s, writer);
  }

  lemma LocksRestore(s: State, pid: Pid, a: RestoreStep)
    requires OwnOk(s, pid) && RestoreEnabled(s, pid, a)
    ensures LocksOk(RestoreNext(s, pid, a), pid)
  {
    hide IsSnapshot, ProgressOk, OwedOk, OwnerOk, UpToDate;
  }

  lemma OwedRestore(s: State, pid: Pid, a: RestoreStep)
    requires JournalOk(s) && OwnOk(s, pid) && RestoreEnabled(s, pid, a)
    ensures OwedOk(RestoreNext(s, pid, a), pid)
  {
    hide IsSnapshot, ProgressOk, LocksOk, JournalSays, UpToDate;
  }

  lemma OwnerRestore(s: State, pid: Pid, a: RestoreStep)
    requires JournalOk(s) && OwnOk(s, pid) && RestoreEnabled(s, pid, a)
    ensures OwnerOk(RestoreNext(s, pid, a), pid)
  {
    hide IsSnapshot, LocksOk, OwedOk, UpToDate, ProgressOk;
  }

  lemma LocksRollback(s: State, pid: Pid, a: RollbackStep)
    requires OwnOk(s, pid) && RollbackEnabled(s, pid, a)
    ensures LocksOk(RollbackNext(s, pid, a), pid)
  {
    hide IsSnapshot, ProgressOk, OwedOk, OwnerOk, Unnamed;
  }

  lemma OwedRollback(s: State, pid: Pid, a: RollbackStep)
    requires JournalOk(s) && OwnOk(s, pid) && RollbackEnabled(s, pid, a)
    ensures OwedOk(RollbackNext(s, pid, a), pid)
  {
    hide IsSnapshot, ProgressOk, LocksOk, JournalSays, Unnamed;
  }

  lemma UnnamedApart(s: State, entries: seq<Entry>)
    ensures Unnamed(s, entries) !! Paths(entries)
  {
  }

  lemma OwnerRollback(s: State, pid: Pid, a: RollbackStep)
    requires JournalOk(s) && OwnOk(s, pid) && RollbackEnabled(s, pid, a)
    ensures OwnerOk(RollbackNext(s, pid, a), pid)
  {
    UnnamedApart(s, if PhaseOf(s, pid).Restoring? then PhaseOf(s, pid).entries else []);
    hide IsSnapshot, LocksOk, OwedOk, Unnamed, PutBack;
  }

  lemma LocksFinish(s: State, pid: Pid)
    requires OwnOk(s, pid) && RecoveryEnabled(s, pid, FinishRecovery)
    ensures LocksOk(RecoveryNext(s, pid, FinishRecovery), pid)
  {
    var phase := PhaseOf(s, pid);
    hide IsSnapshot, ProgressOk, OwedOk, OwnerOk, Release;
    Releases(To(s, pid, Onward(phase.goal)), pid, Kept(phase.goal));
    Releases(ReleaseJournal(To(s, pid, Onward(phase.goal)), pid), pid, Kept(phase.goal));
  }

  lemma LocksRecovery(s: State, pid: Pid, a: RecoveryStep)
    requires OwnOk(s, pid) && RecoveryEnabled(s, pid, a)
    ensures LocksOk(RecoveryNext(s, pid, a), pid)
  {
    var phase := PhaseOf(s, pid);
    assert phase.WaitingForJournal? ==> phase.goal.ForAccess?;
    hide IsSnapshot, ProgressOk, OwedOk, OwnerOk, Unnamed, WithFile, Release, MoreToDo;
    match a
    case PruneFile(p) => FileOnly(To(s, pid, Pruned(phase, p)), p, None, None);
    case RewriteNext => FileOnly(To(s, pid, Rewritten(phase)), NextEntry(phase).path, NextEntry(phase).before, None);
    case FinishRecovery => LocksFinish(s, pid);
    case TakeJournalLock =>
    case Recheck =>
    case LockForRecovery(_) =>
    case StartRewriting =>
    case ClearRecovered =>
  }

  lemma OwedRecovery(s: State, pid: Pid, a: RecoveryStep)
    requires JournalOk(s) && OwnOk(s, pid) && RecoveryEnabled(s, pid, a)
    ensures OwedOk(RecoveryNext(s, pid, a), pid)
  {
    var phase := PhaseOf(s, pid);
    hide IsSnapshot, ProgressOk, LocksOk, JournalSays, Unnamed, WithFile, Release, MoreToDo, GoalOk;
    match a
    case PruneFile(p) => FileOnly(To(s, pid, Pruned(phase, p)), p, None, None);
    case RewriteNext => FileOnly(To(s, pid, Rewritten(phase)), NextEntry(phase).path, NextEntry(phase).before, None);
    case FinishRecovery =>
      Releases(To(s, pid, Onward(phase.goal)), pid, Kept(phase.goal));
      Releases(ReleaseJournal(To(s, pid, Onward(phase.goal)), pid), pid, Kept(phase.goal));
    case TakeJournalLock =>
    case Recheck =>
    case LockForRecovery(_) =>
    case StartRewriting =>
    case ClearRecovered =>
  }

  lemma OwnerRecovery(s: State, pid: Pid, a: RecoveryStep)
    requires JournalOk(s) && OwnOk(s, pid) && RecoveryEnabled(s, pid, a)
    requires a.Recheck? && s.journal.Some? ==> Has(s, s.journal.value.0, Abandoned)
    ensures OwnerOk(RecoveryNext(s, pid, a), pid)
  {
    var phase := PhaseOf(s, pid);
    hide IsSnapshot, ProgressOk, LocksOk, OwedOk, JournalOk, Unnamed, WithFile, Release, MoreToDo;
    match a
    case PruneFile(p) => FileOnly(To(s, pid, Pruned(phase, p)), p, None, None);
    case RewriteNext => FileOnly(To(s, pid, Rewritten(phase)), NextEntry(phase).path, NextEntry(phase).before, None);
    case FinishRecovery =>
      Releases(To(s, pid, Onward(phase.goal)), pid, Kept(phase.goal));
      Releases(ReleaseJournal(To(s, pid, Onward(phase.goal)), pid), pid, Kept(phase.goal));
    case TakeJournalLock =>
    case Recheck =>
    case LockForRecovery(_) =>
    case StartRewriting =>
    case ClearRecovered =>
  }

  lemma LocksAccess(s: State, pid: Pid, a: AccessStep)
    requires OwnOk(s, pid) && AccessEnabled(s, pid, a)
    ensures LocksOk(AccessNext(s, pid, a), pid)
  {
    hide IsSnapshot, ProgressOk, OwedOk, OwnerOk;
  }

  lemma OwedAccess(s: State, pid: Pid, a: AccessStep)
    requires JournalOk(s) && OwnOk(s, pid) && AccessEnabled(s, pid, a)
    ensures OwedOk(AccessNext(s, pid, a), pid)
  {
    hide IsSnapshot, ProgressOk, LocksOk, JournalSays;
  }

  lemma OwnerAccess(s: State, pid: Pid, a: AccessStep)
    requires JournalOk(s) && OwnOk(s, pid) && AccessEnabled(s, pid, a)
    ensures OwnerOk(AccessNext(s, pid, a), pid)
  {
    hide IsSnapshot, LocksOk, OwedOk, ProgressOk;
  }

  /** Whatever a transaction leaves and did not name is an unnamed rule file on disk. */
  lemma LeftIsListed(s: State, id: TransactionId, entries: seq<Entry>)
    requires JournalSays(s, id, entries)
    ensures PutBack(s, id, entries, Unnamed(s, entries), 0)
  {
    forall p | LeftBy(s, id, p) ensures p in Unnamed(s, entries) || p in Paths(entries) {
      if p.Doc? {
        assert Doc(p.doc) in Paths(entries);
      }
    }
  }

  /** One more named file is back. */
  lemma PutBackNamed(s: State, id: TransactionId, entries: seq<Entry>, rest: set<Path>, done: nat)
    requires PutBack(s, id, entries, rest, done) && done < |entries| && DistinctEntries(entries)
    ensures PutBack(WithFile(s, entries[done].path, entries[done].before, None), id, entries, rest, done + 1)
  {
    var s' := WithFile(s, entries[done].path, entries[done].before, None);
    forall p ensures LeftBy(s', id, p) ==> LeftBy(s, id, p) && p != entries[done].path {
    }
    forall i | 0 <= i <= done ensures Contents(s', entries[i].path) == entries[i].before && !LeftBy(s', id, entries[i].path) {
      assert i < done ==> entries[i].path != entries[done].path;
    }
  }

  /** One more listed file is gone. */
  lemma PutBackPruned(s: State, id: TransactionId, entries: seq<Entry>, rest: set<Path>, p: Path)
    requires PutBack(s, id, entries, rest, 0)
    ensures PutBack(WithFile(s, p, None, None), id, entries, rest - {p}, 0)
  {
    var s' := WithFile(s, p, None, None);
    forall q ensures LeftBy(s', id, q) ==> LeftBy(s, id, q) && q != p {
    }
  }

  lemma SamePutBack(s: State, u: State, id: TransactionId, entries: seq<Entry>, rest: set<Path>, done: nat)
    requires u.disk == s.disk && PutBack(s, id, entries, rest, done)
    ensures PutBack(u, id, entries, rest, done)
  {
    assert forall p :: LeftBy(u, id, p) <==> LeftBy(s, id, p);
  }

  lemma ProgressRestore(s: State, pid: Pid, a: RestoreStep)
    requires RestoreEnabled(s, pid, a)
    ensures ProgressOk(RestoreNext(s, pid, a), pid)
  {
    hide IsSnapshot, UpToDate, PutBack;
  }

  lemma ProgressAccess(s: State, pid: Pid, a: AccessStep)
    requires AccessEnabled(s, pid, a)
    ensures ProgressOk(AccessNext(s, pid, a), pid)
  {
    hide PutBack;
  }

  lemma ProgressRollback(s: State, pid: Pid, a: RollbackStep)
    requires JournalOk(s) && OwnOk(s, pid) && RollbackEnabled(s, pid, a)
    ensures ProgressOk(RollbackNext(s, pid, a), pid)
  {
    var phase, s' := PhaseOf(s, pid), RollbackNext(s, pid, a);
    hide LocksOk, OwedOk, PutBack, UpToDate, JournalSays, WithFile, Unnamed;
    match a
    case StartRollback =>
      LeftIsListed(s, phase.id, phase.entries);
      SamePutBack(s, s', phase.id, phase.entries, Unnamed(s, phase.entries), 0);
    case PutBackNext =>
      FileOnly(To(s, pid, Restored(phase)), NextEntry(phase).path, NextEntry(phase).before, None);
      if s.journal.Some? {
        var u := To(s, pid, Restored(phase));
        SamePutBack(s, u, phase.id, phase.entries, phase.strangers, phase.done);
        PutBackNamed(u, phase.id, phase.entries, phase.strangers, phase.done);
      } else {
        AgainUpToDate(s, To(s, pid, Restored(phase)), phase.entries, phase.done);
      }
    case DropStranger(p) =>
      FileOnly(To(s, pid, Dropped(phase, p)), p, None, None);
      StillUpToDate(s, To(s, pid, Dropped(phase, p)), phase.entries, p);
    case RecoverOwn =>
    case ClearOwn =>
  }

  /** Putting a file back that is back already changes nothing. */
  lemma AgainUpToDate(s: State, u: State, entries: seq<Entry>, i: nat)
    requires UpToDate(s, entries) && u.disk == s.disk && i < |entries|
    ensures UpToDate(WithFile(u, entries[i].path, entries[i].before, None), entries)
    ensures forall p :: Contents(WithFile(u, entries[i].path, entries[i].before, None), p) == Contents(s, p)
  {
    assert Contents(s, entries[i].path) == entries[i].before;
  }

  lemma StillUpToDate(s: State, u: State, entries: seq<Entry>, p: Path)
    requires UpToDate(s, entries) && u.disk == s.disk && p !in Paths(entries)
    ensures UpToDate(WithFile(u, p, None, None), entries)
  {
    forall i | 0 <= i < |entries| ensures Contents(WithFile(u, p, None, None), entries[i].path) == entries[i].before {
      assert entries[i] in entries;
    }
  }

  lemma AllBack(s: State, s': State, id: TransactionId, entries: seq<Entry>, rest: set<Path>)
    requires PutBack(s, id, entries, rest, |entries|) && s'.disk == s.disk
    ensures UpToDate(s', entries)
  {
  }

  lemma ProgressRecovery(s: State, pid: Pid, a: RecoveryStep)
    requires JournalOk(s) && OwnOk(s, pid) && RecoveryEnabled(s, pid, a)
    ensures ProgressOk(RecoveryNext(s, pid, a), pid)
  {
    var phase, s' := PhaseOf(s, pid), RecoveryNext(s, pid, a);
    hide LocksOk, OwedOk, PutBack, UpToDate, JournalSays, JournalOwned, WithFile, Unnamed, IsSnapshot, Release;
    match a
    case StartRewriting =>
      LeftIsListed(s, phase.id, phase.entries);
      SamePutBack(s, s', phase.id, phase.entries, Unnamed(s, phase.entries), 0);
    case PruneFile(p) =>
      var u := To(s, pid, Pruned(phase, p));
      SamePutBack(s, u, phase.id, phase.entries, phase.stale, phase.done);
      FileOnly(u, p, None, None);
      PutBackPruned(u, phase.id, phase.entries, phase.stale, p);
    case RewriteNext =>
      var u := To(s, pid, Rewritten(phase));
      SamePutBack(s, u, phase.id, phase.entries, phase.stale, phase.done);
      FileOnly(u, NextEntry(phase).path, NextEntry(phase).before, None);
      Distinctly(phase.entries, s);
      PutBackNamed(u, phase.id, phase.entries, phase.stale, phase.done);
    case ClearRecovered => AllBack(s, s', phase.id, phase.entries, phase.stale);
    case FinishRecovery => FinishKeepsUp(s, pid);
    case TakeJournalLock =>
    case Recheck =>
    case LockForRecovery(_) =>
  }

  lemma Distinctly(entries: seq<Entry>, s: State)
    requires s.journal.Some? && s.journal.value.1 == entries && JournalSays(s, s.journal.value.0, entries)
    ensures DistinctEntries(entries)
  {
  }

  lemma FinishKeepsUp(s: State, pid: Pid)
    requires OwnOk(s, pid) && RecoveryEnabled(s, pid, FinishRecovery)
    ensures ProgressOk(RecoveryNext(s, pid, FinishRecovery), pid)
  {
    var phase, s' := PhaseOf(s, pid), RecoveryNext(s, pid, FinishRecovery);
    assert s'.disk == s.disk && s'.journal == s.journal;
    if phase.goal.ForRollback? {
      SameUpToDate(s, s', phase.goal.entries);
    }
    hide LocksOk, OwedOk, PutBack, UpToDate, IsSnapshot, Release;
  }

  lemma SameUpToDate(s: State, s': State, entries: seq<Entry>)
    requires UpToDate(s, entries) && s'.disk == s.disk
    ensures UpToDate(s', entries)
  {
  }

  lemma OwnedRestore(s: State, pid: Pid, a: RestoreStep)
    requires JournalOwned(s) && OwnOk(s, pid) && RestoreEnabled(s, pid, a)
    ensures JournalOwned(RestoreNext(s, pid, a))
  {
    hide IsSnapshot, UpToDate, LocksOk, OwedOk, ProgressOk;
  }

  lemma OwnedRollback(s: State, pid: Pid, a: RollbackStep)
    requires JournalOwned(s) && OwnOk(s, pid) && RollbackEnabled(s, pid, a)
    ensures JournalOwned(RollbackNext(s, pid, a))
  {
    hide IsSnapshot, LocksOk, OwedOk, ProgressOk, Unnamed;
  }

  lemma OwnedRecovery(s: State, pid: Pid, a: RecoveryStep)
    requires JournalOwned(s) && OwnOk(s, pid) && RecoveryEnabled(s, pid, a)
    ensures JournalOwned(RecoveryNext(s, pid, a))
  {
    var phase := PhaseOf(s, pid);
    hide IsSnapshot, LocksOk, OwedOk, ProgressOk, Unnamed, GoalOk, Kept, Paths, WithFile, Release, MoreToDo;
    match a
    case PruneFile(p) => FileOnly(To(s, pid, Pruned(phase, p)), p, None, None);
    case RewriteNext => FileOnly(To(s, pid, Rewritten(phase)), NextEntry(phase).path, NextEntry(phase).before, None);
    case FinishRecovery =>
      Releases(To(s, pid, Onward(phase.goal)), pid, Kept(phase.goal));
      Releases(ReleaseJournal(To(s, pid, Onward(phase.goal)), pid), pid, Kept(phase.goal));
    case TakeJournalLock =>
    case Recheck =>
    case LockForRecovery(_) =>
    case StartRewriting =>
    case ClearRecovered =>
  }

  lemma OwnedAccess(s: State, pid: Pid, a: AccessStep)
    requires JournalOwned(s) && OwnOk(s, pid) && AccessEnabled(s, pid, a)
    ensures JournalOwned(AccessNext(s, pid, a))
  {
    hide IsSnapshot, LocksOk, OwedOk, ProgressOk, GoalOk;
  }

  lemma OwnRestore(s: State, pid: Pid, a: RestoreStep)
    requires JournalOk(s) && OwnOk(s, pid) && RestoreEnabled(s, pid, a)
    ensures OwnOk(RestoreNext(s, pid, a), pid) && JournalOwned(RestoreNext(s, pid, a))
  {
    hide LocksOk, OwedOk, OwnerOk, ProgressOk, JournalOwned, RestoreNext, RestoreEnabled;
    LocksRestore(s, pid, a);
    OwedRestore(s, pid, a);
    OwnerRestore(s, pid, a);
    ProgressRestore(s, pid, a);
    OwnedRestore(s, pid, a);
  }

  lemma OwnRollback(s: State, pid: Pid, a: RollbackStep)
    requires JournalOk(s) && OwnOk(s, pid) && RollbackEnabled(s, pid, a)
    ensures OwnOk(RollbackNext(s, pid, a), pid) && JournalOwned(RollbackNext(s, pid, a))
  {
    hide LocksOk, OwedOk, OwnerOk, ProgressOk, JournalOwned, RollbackNext, RollbackEnabled;
    LocksRollback(s, pid, a);
    OwedRollback(s, pid, a);
    OwnerRollback(s, pid, a);
    ProgressRollback(s, pid, a);
    OwnedRollback(s, pid, a);
  }

  lemma OwnRecovery(s: State, pid: Pid, a: RecoveryStep)
    requires JournalOk(s) && OwnOk(s, pid) && RecoveryEnabled(s, pid, a)
    requires a.Recheck? && s.journal.Some? ==> Has(s, s.journal.value.0, Abandoned)
    ensures OwnOk(RecoveryNext(s, pid, a), pid) && JournalOwned(RecoveryNext(s, pid, a))
  {
    hide LocksOk, OwedOk, OwnerOk, ProgressOk, JournalOwned, RecoveryNext, RecoveryEnabled;
    LocksRecovery(s, pid, a);
    OwedRecovery(s, pid, a);
    OwnerRecovery(s, pid, a);
    ProgressRecovery(s, pid, a);
    OwnedRecovery(s, pid, a);
  }

  lemma OwnAccess(s: State, pid: Pid, a: AccessStep)
    requires JournalOk(s) && OwnOk(s, pid) && AccessEnabled(s, pid, a)
    ensures OwnOk(AccessNext(s, pid, a), pid) && JournalOwned(AccessNext(s, pid, a))
  {
    hide LocksOk, OwedOk, OwnerOk, ProgressOk, JournalOwned, AccessNext, AccessEnabled;
    LocksAccess(s, pid, a);
    OwedAccess(s, pid, a);
    OwnerAccess(s, pid, a);
    ProgressAccess(s, pid, a);
    OwnedAccess(s, pid, a);
  }

  lemma OwnKept(s: State, pid: Pid, a: Action)
    requires Inv(s) && Enabled(s, pid, a)
    ensures OwnOk(Next(s, pid, a), pid) && JournalOwned(Next(s, pid, a))
  {
    assert OwnOk(s, pid);
    if a == Recover(Recheck) && s.journal.Some? {
      FoundAbandoned(s, pid);
    }
    hide OwnOk, JournalOwned, RestoreNext, RollbackNext, RecoveryNext, AccessNext;
    match a
    case Restore(step) => OwnRestore(s, pid, step);
    case RollBack(step) => OwnRollback(s, pid, step);
    case Recover(step) => OwnRecovery(s, pid, step);
    case Access(step) => OwnAccess(s, pid, step);
  }

  // ---------------------------------------------------------------------
  // What a transaction leaves behind
  // ---------------------------------------------------------------------

  lemma SaysKept(s: State, pid: Pid, s': State, id: TransactionId, entries: seq<Entry>)
    requires JournalSays(s, id, entries) && Effect(s, pid, s') && id in s.status
    ensures JournalSays(s', id, entries)
  {
    hide IsSnapshot, Framed;
    forall p ensures LeftBy(s', id, p) ==> Managed(p) {
      assert Untouched(s, s', p) || WrittenBy(s, pid, s', p);
    }
  }

  lemma SettledKept(s: State, pid: Pid, s': State, id: TransactionId)
    requires SettledOk(s, id) && Has(s, id, RolledBack) && Effect(s, pid, s')
    ensures SettledOk(s', id)
  {
    hide Framed;
    forall p ensures !LeftBy(s', id, p) && AsBefore(s', id, p) {
      assert !LeftBy(s, id, p) && AsBefore(s, id, p);
      assert Untouched(s, s', p) || WrittenBy(s, pid, s', p);
    }
  }

  /** A rollback that has put everything back has settled its transaction. */
  lemma Settles(s: State, s': State, id: TransactionId, entries: seq<Entry>)
    requires JournalSays(s, id, entries) && PutBack(s, id, entries, {}, |entries|)
    requires s'.disk == s.disk && s'.begun == s.begun && id in s'.settled && s'.settled[id] == s.disk.clock
    ensures SettledOk(s', id)
  {
    forall p ensures !LeftBy(s', id, p) && AsBefore(s', id, p) {
      if p in Paths(entries) {
        var e :| e in entries && e.path == p;
        var i :| 0 <= i < |entries| && entries[i] == e;
        assert Contents(s, entries[i].path) == entries[i].before && !LeftBy(s, id, entries[i].path);
      }
      assert LeftBy(s', id, p) <==> LeftBy(s, id, p);
    }
  }

  /** Only a complete rollback makes a transaction rolled back. */
  predicate Completes(s: State, pid: Pid, a: Action) {
    a == Recover(ClearRecovered) || (a == RollBack(ClearOwn) && s.journal.Some?)
  }

  lemma RolledBackBefore(s: State, pid: Pid, a: Action, id: TransactionId)
    requires OwnOk(s, pid) && Enabled(s, pid, a) && Has(Next(s, pid, a), id, RolledBack)
    ensures Has(s, id, RolledBack) || (Completes(s, pid, a) && PhaseOf(s, pid).id == id)
  {
    hide IsSnapshot, UpToDate, LocksOk, OwedOk, ProgressOk, OwnerOk, Unnamed, WithFile, Release, Paths, MoreToDo;
    var phase := PhaseOf(s, pid);
    match a {
      case Restore(step) =>
        if step.Mutate? {
          FileOnly(s, step.path, step.content, Some(phase.id));
        } else {
          GivesUp(s, pid);
        }
      case RollBack(step) =>
        if step.DropStranger? {
          FileOnly(To(s, pid, Dropped(phase, step.path)), step.path, None, None);
        } else if step.PutBackNext? {
          FileOnly(To(s, pid, Restored(phase)), NextEntry(phase).path, NextEntry(phase).before, None);
        }
      case Recover(step) => RecoveryStatus(s, pid, step);
      case Access(step) =>
        if step.Touch? {
          FileOnly(s, phase.path, step.content, None);
        } else {
          GivesUp(s, pid);
        }
    }
  }

  lemma GivesUp(s: State, pid: Pid)
    ensures forall id :: Has(GiveUp(s, pid), id, RolledBack) ==> Has(s, id, RolledBack)
  {
  }

  lemma RecoveryStatus(s: State, pid: Pid, a: RecoveryStep)
    requires RecoveryEnabled(s, pid, a)
    ensures a.ClearRecovered? || RecoveryNext(s, pid, a).status == s.status
  {
    hide Unnamed, Onward, Kept, Paths, PhaseOf, MoreToDo, NextEntry, Pruned, Rewritten, Overwrite;
    match a
    case PruneFile(_) =>
    case RewriteNext =>
    case TakeJournalLock =>
    case Recheck =>
    case LockForRecovery(_) =>
    case StartRewriting =>
    case ClearRecovered =>
    case FinishRecovery =>
  }

  lemma CompletionSettles(s: State, pid: Pid, a: Action)
    requires JournalOk(s) && OwnOk(s, pid) && Enabled(s, pid, a) && Completes(s, pid, a)
    ensures SettledOk(Next(s, pid, a), PhaseOf(s, pid).id)
  {
    var phase := PhaseOf(s, pid);
    hide JournalSays, PutBack, LocksOk, OwedOk, SettledOk, GoalOk, JournalOwned, IsSnapshot;
    Settles(s, Next(s, pid, a), phase.id, phase.entries);
  }

  lemma SettledStep(s: State, pid: Pid, a: Action, id: TransactionId)
    requires Inv(s) && Enabled(s, pid, a)
    ensures SettledOk(Next(s, pid, a), id)
  {
    assert OwnOk(s, pid) && SettledOk(s, id);
    var s' := Next(s, pid, a);
    if Has(s', id, RolledBack) {
      StepFramed(s, pid, a);
      RolledBackBefore(s, pid, a, id);
      if Has(s, id, RolledBack) {
        hide OwnOk, JournalOk, Effect, SettledOk, Next, Enabled;
        SettledKept(s, pid, s', id);
      } else {
        CompletionSettles(s, pid, a);
      }
    }
  }

  /** A journal in place stays, is cleared, or is a new one that says how its transaction begins. */
  lemma JournalStep(s: State, pid: Pid, a: Action)
    requires Inv(s) && Enabled(s, pid, a) && Next(s, pid, a).journal.Some?
    ensures var j := Next(s, pid, a).journal.value; JournalSays(Next(s, pid, a), j.0, j.1)
  {
    assert OwnOk(s, pid);
    var s' := Next(s, pid, a);
    var j := s'.journal.value;
    StepFramed(s, pid, a);
    if a.Restore? && a.restore.WriteJournal? {
      JournalBegins(s, pid, a.restore.id);
    } else {
      JournalUnchanged(s, pid, a);
      hide OwnOk, Effect, Next, Enabled, JournalSays, JournalOwned;
      assert JournalOwned(s);
      Journalled(s);
      SaysKept(s, pid, s', j.0, j.1);
    }
  }

  lemma Journalled(s: State)
    requires JournalOwned(s) && s.journal.Some?
    ensures s.journal.value.0 in s.status
  {
  }

  lemma RecoveryJournal(s: State, pid: Pid, a: RecoveryStep)
    requires RecoveryEnabled(s, pid, a)
    ensures RecoveryNext(s, pid, a).journal == s.journal || RecoveryNext(s, pid, a).journal.None?
  {
    hide Unnamed, Onward, Kept, Paths, PhaseOf, MoreToDo, NextEntry, Pruned, Rewritten, Overwrite;
    match a
    case PruneFile(_) =>
    case RewriteNext =>
    case TakeJournalLock =>
    case Recheck =>
    case LockForRecovery(_) =>
    case StartRewriting =>
    case ClearRecovered =>
    case FinishRecovery =>
  }

  lemma RestoreJournal(s: State, pid: Pid, a: RestoreStep)
    requires RestoreEnabled(s, pid, a) && !a.WriteJournal?
    ensures RestoreNext(s, pid, a).journal == s.journal || RestoreNext(s, pid, a).journal.None?
  {
    hide IsSnapshot, UpToDate, Paths, PhaseOf, Overwrite;
  }

  lemma RollbackJournal(s: State, pid: Pid, a: RollbackStep)
    requires RollbackEnabled(s, pid, a)
    ensures RollbackNext(s, pid, a).journal == s.journal || RollbackNext(s, pid, a).journal.None?
  {
    hide Unnamed, PhaseOf, MoreToDo, NextEntry, Dropped, Restored, Overwrite;
  }

  lemma AccessJournal(s: State, pid: Pid, a: AccessStep)
    requires AccessEnabled(s, pid, a)
    ensures AccessNext(s, pid, a).journal == s.journal
  {
    hide PhaseOf, Overwrite;
  }

  lemma JournalUnchanged(s: State, pid: Pid, a: Action)
    requires Enabled(s, pid, a) && Next(s, pid, a).journal.Some? && !(a.Restore? && a.restore.WriteJournal?)
    ensures s.journal == Next(s, pid, a).journal
  {
    hide RestoreNext, RollbackNext, RecoveryNext, AccessNext, RecoveryEnabled, RestoreEnabled, RollbackEnabled, AccessEnabled;
    match a
    case Restore(step) => RestoreJournal(s, pid, step);
    case RollBack(step) => RollbackJournal(s, pid, step);
    case Recover(step) => RecoveryJournal(s, pid, step);
    case Access(step) => AccessJournal(s, pid, step);
  }

  lemma JournalBegins(s: State, pid: Pid, id: TransactionId)
    requires Inv(s) && RestoreEnabled(s, pid, WriteJournal(id))
    ensures var s' := RestoreNext(s, pid, WriteJournal(id)); JournalSays(s', id, PhaseOf(s, pid).entries)
  {
    assert OwnOk(s, pid);
    var s' := RestoreNext(s, pid, WriteJournal(id));
    forall p ensures !LeftBy(s', id, p) {
      assert AuthorKnown(s, p);
    }
    hide LocksOk, OwedOk, ProgressOk, JournalOk, IsSnapshot;
  }

  lemma AuthorsKept(s: State, pid: Pid, s': State, p: Path)
    requires AuthorKnown(s, p) && Effect(s, pid, s')
    ensures AuthorKnown(s', p)
  {
    hide Framed;
    assert Untouched(s, s', p) || WrittenBy(s, pid, s', p);
  }

  /** Every step of every process keeps the invariant. */
  lemma StepKeeps(s: State, pid: Pid, a: Action)
    requires Inv(s) && Enabled(s, pid, a)
    ensures Inv(Next(s, pid, a))
  {
    OwnKept(s, pid, a);
    assert OwnOk(s, pid);
    StepFramed(s, pid, a);
    var s' := Next(s, pid, a);
    if s'.journal.Some? {
      JournalStep(s, pid, a);
    }
    hide Next, Enabled, Effect, OwnOk, JournalSays, JournalOwned, SettledOk, AuthorKnown;
    forall q: Pid ensures OwnOk(s', q) {
      assert OwnOk(s, q);
      if q != pid {
        OthersKept(s, pid, s', q);
      }
    }
    forall id ensures SettledOk(s', id) {
      SettledStep(s, pid, a, id);
    }
    forall p ensures AuthorKnown(s', p) {
      assert AuthorKnown(s, p);
      AuthorsKept(s, pid, s', p);
    }
  }

  // ---------------------------------------------------------------------
  // Runs
  // ---------------------------------------------------------------------

  datatype Event = Event(pid: Pid, action: Action)

  /** Nobody is active and no transaction is known; the files are arbitrary. */
  predicate Initial(s: State) {
    && s.phases == map[] && s.journalLock.None? && s.locks == map[] && s.journal.None?
    && s.status == map[] && s.disk.written == map[]
  }

  ghost predicate Reaches(s: State, events: seq<Event>, t: State) {
    if events == [] then s == t
    else
      var last := events[|events| - 1];
      exists u :: Reaches(s, events[..|events| - 1], u) && Enabled(u, last.pid, last.action) && t == Next(u, last.pid, last.action)
  }

  lemma {:induction false} ReachableInv(s: State, events: seq<Event>, t: State)
    requires Initial(s) && Reaches(s, events, t)
    ensures Inv(t)
  {
    if events != [] {
      hide Enabled, Next, Inv;
      var last := events[|events| - 1];
      var u :| Reaches(s, events[..|events| - 1], u) && Enabled(u, last.pid, last.action) && t == Next(u, last.pid, last.action);
      ReachableInv(s, events[..|events| - 1], u);
      StepKeeps(u, last.pid, last.action);
    }
  }

  predicate RewritesFiles(a: RecoveryStep) {
    a.PruneFile? || a.RewriteNext? || a.ClearRecovered?
  }

  /**
   * In every run, a recovery touches the files of a transaction only when its
   * writer has crashed or abandoned it: no other process is restoring it, or
   * restoring, rolling back or recovering anything else, at that moment.
   */
  lemma RecoveryOnlyAfterAbandonment(s: State, events: seq<Event>, t: State, pid: Pid, a: RecoveryStep)
    requires Initial(s) && Reaches(s, events, t)
    requires RecoveryEnabled(t, pid, a) && RewritesFiles(a)
    ensures Has(t, PhaseOf(t, pid).id, Abandoned)
    ensures forall q :: q != pid ==> !HoldsJournal(PhaseOf(t, q))
  {
    ReachableInv(s, events, t);
    assert OwnOk(t, pid);
    forall q | q != pid ensures !HoldsJournal(PhaseOf(t, q)) {
      assert OwnOk(t, q);
    }
  }

  /**
   * When a rollback or a recovery clears the journal, every file the transaction
   * named has the contents it had when the transaction began, and no file on disk,
   * named or not, is one the transaction wrote.
   */
  lemma RollbackIsComplete(s: State, events: seq<Event>, t: State, pid: Pid, a: Action, p: Path)
    requires Initial(s) && Reaches(s, events, t)
    requires Enabled(t, pid, a) && Completes(t, pid, a)
    ensures var id := PhaseOf(t, pid).id;
            var t' := Next(t, pid, a);
            && Has(t', id, RolledBack) && t'.journal.None? && id in t'.begun
            && (p in t'.begun[id].named ==> Contents(t', p) == At(t'.begun[id].files, p))
            && !LeftBy(t', id, p)
  {
    ReachableInv(s, events, t);
    assert OwnOk(t, pid);
    CompletionSettles(t, pid, a);
    var id := PhaseOf(t, pid).id;
    var t' := Next(t, pid, a);
    assert SettledOk(t', id);
    assert !LeftBy(t', id, p) && AsBefore(t', id, p);
    StampsInThePast(t, pid, a, p);
  }

  /** Clearing the journal is not a write, so every write came before it. */
  lemma StampsInThePast(t: State, pid: Pid, a: Action, p: Path)
    requires Inv(t) && Enabled(t, pid, a) && Completes(t, pid, a)
    ensures var t' := Next(t, pid, a);
            PhaseOf(t, pid).id in t'.settled && (p in t'.disk.written ==> t'.disk.written[p].at <= t'.settled[PhaseOf(t, pid).id])
  {
    assert AuthorKnown(t, p);
  }

  /**
   * An access that began after a transaction was abandoned is inside its file lock
   * only once that transaction is rolled back: no file on disk is one the transaction
   * wrote, and each file it named has the contents from before the transaction, unless
   * somebody has written it since the rollback was complete.
   */
  lemma AccessSeesRollback(s: State, events: seq<Event>, t: State, pid: Pid, id: TransactionId, p: Path)
    requires Initial(s) && Reaches(s, events, t)
    requires PhaseOf(t, pid).Accessing? && id in PhaseOf(t, pid).owed
    ensures Has(t, id, RolledBack) && id in t.begun && id in t.settled
    ensures !LeftBy(t, id, p) && AsBefore(t, id, p)
  {
    ReachableInv(s, events, t);
    assert OwnOk(t, pid);
    assert SettledOk(t, id);
  }

  /** Rolled back and committed are final; abandoned can only become rolled back. */
  lemma StatusSettles(s: State, pid: Pid, a: Action, id: TransactionId)
    requires Inv(s) && Enabled(s, pid, a) && id in s.status
    ensures id in Next(s, pid, a).status
    ensures !s.status[id].Active? ==>
              var after := Next(s, pid, a).status[id];
              after == s.status[id] || (s.status[id].Abandoned? && after.RolledBack?)
  {
    assert OwnOk(s, pid);
    StepFramed(s, pid, a);
  }

  /**
   * A rollback whose nested recovery has already cleared the journal goes on under
   * its locks. What it still changes is exactly the rule files it had listed and
   * finds again, whoever wrote them meanwhile.
   */
  lemma RollbackGoesOn(s: State, events: seq<Event>, t: State, pid: Pid, a: RollbackStep, p: Path)
    requires Initial(s) && Reaches(s, events, t)
    requires PhaseOf(t, pid).Undoing? && t.journal.None? && RollbackEnabled(t, pid, a)
    ensures Contents(RollbackNext(t, pid, a), p) != Contents(t, p) <==> a == DropStranger(p) && p in t.disk.files
    ensures a == DropStranger(p) ==> p !in Paths(PhaseOf(t, pid).entries)
  {
    ReachableInv(s, events, t);
    assert OwnOk(t, pid);
    hide Inv, LocksOk, OwedOk, IsSnapshot, UpToDate, Unnamed, Reaches;
    var phase := PhaseOf(t, pid);
    match a
    case PutBackNext => AgainUpToDate(t, To(t, pid, Restored(phase)), phase.entries, phase.done);
    case DropStranger(q) =>
    case StartRollback =>
    case RecoverOwn =>
    case ClearOwn =>
  }
}
