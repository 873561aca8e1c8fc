/**
 * Why a command ended as it did: a cancelled one was cancelled by a client in time
 * or had expired, a completed one was executed with that result, and a command
 * nobody cancelled in time is executed.
 */
module WorkerReasons {
  import opened Common
  import opened CommandTable
  import opened WorkerProtocol

  // ---------------------------------------------------------------------
  // A command nobody cancelled is executed
  // ---------------------------------------------------------------------

  /** A command with an outcome that never started was cancelled by its event, or the worker has dealt with it. */
  predicate Explained(s: State, id: Id) {
    id in s.table.outcomes && id !in s.started ==>
      || id in s.flags
      || (id in s.stage && s.stage[id] == Answered)
      || (s.worker.Answering? && s.worker.id == id)
  }

  ghost predicate AllExplained(s: State) {
    forall id :: Explained(s, id)
  }

  lemma CancelExplained(s: State, id: Id, other: Id)
    requires Inv(s) && Explained(s, other)
    ensures Explained(ClientNext(s, CancelCommand(id)), other)
  {
    hide Consistent, QueueOk, TicksOk, HandOk, PlaceOk, OutcomeOk, Finalise;
    if Cancellable(s.table, id) {
      CancelFits(s, id);
      FinaliseEffect(s.table, id, Cancelled, CancelledResponse(id, s.table.records[id].command), id);
    }
  }

  lemma RecordExplained(s: State, a: WorkerStep, other: Id)
    requires Inv(s) && WorkerEnabled(s, a) && (a.RecordCancelled? || a.RecordCompleted?) && Explained(s, other)
    ensures Explained(WorkerNext(s, a), other)
  {
    hide Consistent, QueueOk, TicksOk, HandOk, PlaceOk, OutcomeOk, Finalise, FinalFor;
    var t := WorkerNext(s, a);
    RecordFits(s, a);
    FinaliseEffect(s.table, t.worker.id, if a.RecordCancelled? then Cancelled else Completed, t.worker.response, t.worker.id);
  }

  lemma MoveExplained(s: State, a: WorkerStep, other: Id)
    requires Inv(s) && WorkerEnabled(s, a) && Explained(s, other) && !a.RecordCancelled? && !a.RecordCompleted?
    ensures Explained(WorkerNext(s, a), other)
  {
    hide Consistent, TicksOk, OutcomeOk, Finalise;
    if a.Get? {
      assert QueuedAt(s, 0);
    }
  }

  lemma StepExplained(s: State, a: Step)
    requires Inv(s) && Enabled(s, a) && AllExplained(s)
    ensures AllExplained(Next(s, a))
  {
    forall other ensures Explained(Next(s, a), other) {
      assert Explained(s, other);
      hide Inv, AllExplained, WorkerNext, WorkerEnabled;
      match a
      case Client(CancelCommand(id)) => CancelExplained(s, id, other);
      case Client(Register(_, _)) => RegisterExplained(s, a.client, other);
      case Client(Enqueue(_)) => EnqueueExplained(s, a.client, other);
      case Client(Put(_)) =>
      case Timer(_) =>
      case Work(w) =>
        if w.RecordCancelled? || w.RecordCompleted? {
          RecordExplained(s, w, other);
        } else {
          MoveExplained(s, w, other);
        }
    }
  }

  lemma RegisterExplained(s: State, a: ClientStep, other: Id)
    requires Inv(s) && a.Register? && ClientEnabled(s, a) && Explained(s, other)
    ensures Explained(ClientNext(s, a), other)
  {
    assert Finished(s.table, other);
    hide QueueOk, TicksOk, HandOk, PlaceOk, OutcomeOk;
  }

  lemma EnqueueExplained(s: State, a: ClientStep, other: Id)
    requires a.Enqueue? && ClientEnabled(s, a) && Explained(s, other)
    ensures Explained(ClientNext(s, a), other)
  {
  }

  lemma {:induction false} RunExplained(s: State, run: seq<Step>, t: State)
    requires Inv(s) && AllExplained(s) && Reaches(s, run, t)
    ensures AllExplained(t)
    decreases |run|
  {
    if run != [] {
      StepKeeps(s, run[0]);
      StepExplained(s, run[0]);
      hide Inv, AllExplained, Next, Enabled;
      RunExplained(Next(s, run[0]), run[1..], t);
    }
  }

  lemma ReachableExplained(run: seq<Step>, s: State)
    requires Reaches(INITIAL, run, s)
    ensures AllExplained(s)
  {
    InitialInv();
    RunExplained(INITIAL, run, s);
  }

  /** The command in hand whose event is not set is unfinished, so it can start. */
  lemma Startable(run: seq<Step>, s: State, id: Id, command: string)
    requires Reaches(INITIAL, run, s) && id !in s.flags
    requires s.worker == Busy(Mutation(id, command)) || s.worker == Checked(id, command)
    ensures id !in s.table.outcomes && id in s.table.records && s.table.records[id].response.None?
  {
    ReachableExplained(run, s);
    InitialInv();
    RunKeeps(INITIAL, run, s);
    assert Explained(s, id) && PlaceOk(s, id) && OutcomeOk(s, id) && Recorded(s.table, id);
    SplitAt(s.table, id);
  }

  /**
   * The worker's own way with a command in hand that nobody cancelled and that has not
   * expired: it is started, executed, recorded and answered with its result.
   */
  lemma FreshCommandRuns(run: seq<Step>, s: State, id: Id, command: string, result: string)
    requires Reaches(INITIAL, run, s) && s.worker == Busy(Mutation(id, command)) && id !in s.flags
    ensures var a := Next(s, Work(Check(false)));
            && a.worker.Checked?
            && var b := Next(a, Work(Start));
               && id in b.started && b.worker.Executing?
               && var c := Next(b, Work(Execute(result)));
                  && c.worker.Executed?
                  && var d := Next(c, Work(RecordCompleted));
                     && d.worker == Answering(id, command, CompletedResponse(id, command, result))
                     && id in d.table.outcomes && d.table.outcomes[id] == CompletedResponse(id, command, result)
  {
    Startable(run, s, id, command);
    hide Reaches, Inv, Evict;
  }

  /** One that has expired, or whose event is set, is not started. */
  lemma StaleCommandStops(s: State, id: Id, command: string, expired: bool)
    requires s.worker == Busy(Mutation(id, command)) && (expired || id in s.flags)
    ensures var a := Next(s, Work(Check(expired)));
            a.worker == CancelSeen(id, command) && a.started == s.started
  {
  }

  /** A queued command is cancelled at once, and its event set. */
  lemma QueuedIsCancelled(run: seq<Step>, s: State, id: Id)
    requires Reaches(INITIAL, run, s) && id in s.table.accepted && id !in s.started && id !in s.table.outcomes
    ensures Cancel(s.table, id).1 == CancelledResponse(id, s.table.accepted[id])
    ensures var t := Next(s, Client(CancelCommand(id)));
            id in t.flags && id in t.table.outcomes && t.table.outcomes[id] == CancelledResponse(id, s.table.accepted[id])
  {
    InitialInv();
    RunKeeps(INITIAL, run, s);
    assert OutcomeOk(s, id) && Recorded(s.table, id);
    SplitAt(s.table, id);
    hide Reaches, Evict;
  }

  // ---------------------------------------------------------------------
  // Why it ended so
  // ---------------------------------------------------------------------

  lemma {:induction false} LastStep(s: State, run: seq<Step>, t: State) returns (u: State)
    requires run != [] && Reaches(s, run, t)
    ensures Reaches(s, run[..|run| - 1], u) && Enabled(u, run[|run| - 1]) && t == Next(u, run[|run| - 1])
    decreases |run|
  {
    if |run| == 1 {
      u := s;
      assert run[..0] == [];
      assert run[1..] == [];
    } else {
      u := LastStep(Next(s, run[0]), run[1..], t);
      assert run[..|run| - 1][1..] == run[1..][..|run| - 2];
    }
  }

  /** Step `k` of the run cancels the command: a client did while it was queued, or the worker found it expired. */
  ghost predicate CancelsAt(run: seq<Step>, k: nat, id: Id)
    requires k < |run|
  {
    exists u :: && Reaches(INITIAL, run[..k], u)
                && ((run[k] == Client(CancelCommand(id)) && Cancellable(u.table, id)) ||
                    (run[k] == Work(Check(true)) && u.worker.Busy? && u.worker.item.Mutation? && u.worker.item.id == id))
  }

  /** Step `k` of the run executes the command with this result. */
  ghost predicate ExecutesAt(run: seq<Step>, k: nat, id: Id, result: string)
    requires k < |run|
  {
    exists u :: Reaches(INITIAL, run[..k], u) && run[k] == Work(Execute(result)) && u.worker.Executing? && u.worker.id == id
  }

  ghost predicate WasCancelled(run: seq<Step>, id: Id) {
    exists k :: 0 <= k < |run| && CancelsAt(run, k, id)
  }

  ghost predicate WasExecuted(run: seq<Step>, id: Id, result: string) {
    exists k :: 0 <= k < |run| && ExecutesAt(run, k, id, result)
  }

  ghost predicate Reasoned(run: seq<Step>, s: State, id: Id) {
    && (id in s.flags ==> WasCancelled(run, id))
    && (s.worker.CancelSeen? && s.worker.id == id ==> WasCancelled(run, id))
    && (s.worker.Executed? && s.worker.id == id ==> WasExecuted(run, id, s.worker.result))
    && (id in s.table.outcomes && s.table.outcomes[id].CancelledResponse? ==> WasCancelled(run, id))
    && (id in s.table.outcomes && s.table.outcomes[id].CompletedResponse? ==> WasExecuted(run, id, s.table.outcomes[id].result))
  }

  lemma ReasonsStay(run: seq<Step>, a: Step, id: Id, result: string)
    ensures WasCancelled(run, id) ==> WasCancelled(run + [a], id)
    ensures WasExecuted(run, id, result) ==> WasExecuted(run + [a], id, result)
  {
    hide Reaches;
    assert forall k :: 0 <= k < |run| ==> (run + [a])[..k] == run[..k] && (run + [a])[k] == run[k];
    if k :| 0 <= k < |run| && CancelsAt(run, k, id) {
      assert CancelsAt(run + [a], k, id);
    }
    if k :| 0 <= k < |run| && ExecutesAt(run, k, id, result) {
      assert ExecutesAt(run + [a], k, id, result);
    }
  }

  lemma ReasonNow(run: seq<Step>, u: State, a: Step, id: Id, result: string)
    requires Reaches(INITIAL, run, u)
    ensures a == Client(CancelCommand(id)) && Cancellable(u.table, id) ==> WasCancelled(run + [a], id)
    ensures a == Work(Check(true)) && u.worker.Busy? && u.worker.item.Mutation? && u.worker.item.id == id ==> WasCancelled(run + [a], id)
    ensures a == Work(Execute(result)) && u.worker.Executing? && u.worker.id == id ==> WasExecuted(run + [a], id, result)
  {
    hide Reaches;
    var all := run + [a];
    assert all[..|run|] == run && all[|run|] == a;
    if a == Work(Execute(result)) && u.worker.Executing? && u.worker.id == id {
      assert ExecutesAt(all, |run|, id, result);
    }
    if (a == Client(CancelCommand(id)) && Cancellable(u.table, id)) ||
       (a == Work(Check(true)) && u.worker.Busy? && u.worker.item.Mutation? && u.worker.item.id == id) {
      assert CancelsAt(all, |run|, id);
    }
  }

  lemma ResultStays(run: seq<Step>, a: Step, s: State, id: Id)
    ensures Reasoned(run, s, id) ==> Reasoned(run + [a], s, id)
  {
    hide WasCancelled, WasExecuted;
    ReasonsStay(run, a, id, "");
    if s.worker.Executed? {
      ReasonsStay(run, a, id, s.worker.result);
    }
    if id in s.table.outcomes && s.table.outcomes[id].CompletedResponse? {
      ReasonsStay(run, a, id, s.table.outcomes[id].result);
    }
  }

  lemma CancelReasoned(run: seq<Step>, u: State, c: Id, id: Id)
    requires Reaches(INITIAL, run, u) && Inv(u) && Reasoned(run + [Client(CancelCommand(c))], u, id)
    ensures Reasoned(run + [Client(CancelCommand(c))], Next(u, Client(CancelCommand(c))), id)
  {
    hide WasCancelled, WasExecuted, Reaches, Consistent, QueueOk, TicksOk, HandOk, PlaceOk, OutcomeOk, Finalise;
    ReasonNow(run, u, Client(CancelCommand(c)), c, "");
    if Cancellable(u.table, c) {
      CancelFits(u, c);
      FinaliseEffect(u.table, c, Cancelled, CancelledResponse(c, u.table.records[c].command), c);
    }
  }

  lemma RecordReasoned(run: seq<Step>, u: State, w: WorkerStep, id: Id)
    requires Inv(u) && WorkerEnabled(u, w) && (w.RecordCancelled? || w.RecordCompleted?) && Reasoned(run, u, id)
    ensures Reasoned(run, WorkerNext(u, w), id)
  {
    hide WasCancelled, WasExecuted, Consistent, QueueOk, TicksOk, HandOk, PlaceOk, OutcomeOk, Finalise, FinalFor;
    var t := WorkerNext(u, w);
    RecordFits(u, w);
    FinaliseEffect(u.table, t.worker.id, if w.RecordCancelled? then Cancelled else Completed, t.worker.response, t.worker.id);
  }

  lemma CheckReasoned(run: seq<Step>, u: State, expired: bool, id: Id)
    requires WorkerEnabled(u, Check(expired)) && Reasoned(run, u, id)
    requires expired && u.worker.item.id == id ==> WasCancelled(run, id)
    ensures Reasoned(run, WorkerNext(u, Check(expired)), id)
  {
    hide WasCancelled, WasExecuted;
  }

  lemma ExecuteReasoned(run: seq<Step>, u: State, result: string, id: Id)
    requires WorkerEnabled(u, Execute(result)) && Reasoned(run, u, id)
    requires u.worker.id == id ==> WasExecuted(run, id, result)
    ensures Reasoned(run, WorkerNext(u, Execute(result)), id)
  {
    hide WasCancelled, WasExecuted;
  }

  lemma OthersReasoned(run: seq<Step>, u: State, w: WorkerStep, id: Id)
    requires WorkerEnabled(u, w) && Reasoned(run, u, id)
    requires w.Get? || w.SetBusy? || w.Start? || w.Answer? || w.Serve? || w.Finish?
    ensures Reasoned(run, WorkerNext(u, w), id)
  {
    hide WasCancelled, WasExecuted;
  }

  lemma WorkReasoned(run: seq<Step>, u: State, w: WorkerStep, id: Id)
    requires Reaches(INITIAL, run, u) && Inv(u) && WorkerEnabled(u, w) && Reasoned(run + [Work(w)], u, id)
    ensures Reasoned(run + [Work(w)], WorkerNext(u, w), id)
  {
    hide WasCancelled, WasExecuted, Reaches, Inv, Reasoned, WorkerNext;
    match w
    case RecordCancelled => RecordReasoned(run + [Work(w)], u, w, id);
    case RecordCompleted => RecordReasoned(run + [Work(w)], u, w, id);
    case Check(expired) =>
      ReasonNow(run, u, Work(w), id, "");
      CheckReasoned(run + [Work(w)], u, expired, id);
    case Execute(result) =>
      ReasonNow(run, u, Work(w), id, result);
      ExecuteReasoned(run + [Work(w)], u, result, id);
    case Get => OthersReasoned(run + [Work(w)], u, w, id);
    case SetBusy => OthersReasoned(run + [Work(w)], u, w, id);
    case Start => OthersReasoned(run + [Work(w)], u, w, id);
    case Answer => OthersReasoned(run + [Work(w)], u, w, id);
    case Serve(_) => OthersReasoned(run + [Work(w)], u, w, id);
    case Finish => OthersReasoned(run + [Work(w)], u, w, id);
  }

  lemma {:induction false} ReachableReasoned(run: seq<Step>, s: State, id: Id)
    requires Reaches(INITIAL, run, s)
    ensures Reasoned(run, s, id)
    decreases |run|
  {
    hide Inv, WasCancelled, WasExecuted, Enabled, Next;
    if run != [] {
      var init, a := run[..|run| - 1], run[|run| - 1];
      var u := LastStep(INITIAL, run, s);
      assert run == init + [a];
      ReachableReasoned(init, u, id);
      InitialInv();
      RunKeeps(INITIAL, init, u);
      hide Reasoned, Reaches;
      ResultStays(init, a, u, id);
      NextReasoned(init, u, a, id);
    }
  }

  lemma NextReasoned(init: seq<Step>, u: State, a: Step, id: Id)
    requires Reaches(INITIAL, init, u) && Inv(u) && Enabled(u, a) && Reasoned(init + [a], u, id)
    ensures Reasoned(init + [a], Next(u, a), id)
  {
    hide WasCancelled, WasExecuted, Reaches, Inv, WorkerNext, WorkerEnabled;
    match a
    case Client(CancelCommand(c)) => CancelReasoned(init, u, c, id);
    case Client(Register(_, _)) =>
    case Client(Enqueue(_)) =>
    case Client(Put(_)) =>
    case Timer(_) =>
    case Work(w) => WorkReasoned(init, u, w, id);
  }

  /**
   * In every run a command whose outcome is "cancelled" was cancelled by a client while
   * it was queued, or the worker found its deadline expired when it took it up.
   */
  lemma CancelledForAReason(run: seq<Step>, s: State, id: Id)
    requires Reaches(INITIAL, run, s) && id in s.table.outcomes && s.table.outcomes[id].CancelledResponse?
    ensures exists k :: 0 <= k < |run| && CancelsAt(run, k, id)
  {
    hide Reaches;
    ReachableReasoned(run, s, id);
  }

  /** In every run a command whose outcome is "completed" was executed with the result it reports. */
  lemma CompletedWithItsResult(run: seq<Step>, s: State, id: Id)
    requires Reaches(INITIAL, run, s) && id in s.table.outcomes && s.table.outcomes[id].CompletedResponse?
    ensures exists k :: 0 <= k < |run| && ExecutesAt(run, k, id, s.table.outcomes[id].result)
  {
    hide Reaches;
    ReachableReasoned(run, s, id);
  }

  // ---------------------------------------------------------------------
  // What a client is told
  // ---------------------------------------------------------------------

  /** Among the 512 commands finalised last. */
  predicate Remembered(t: Table, id: Id) {
    id in t.finalised[|t.finalised| - Min(512, |t.finalised|)..]
  }

  /** What became of a command: unknown or forgotten, its one outcome, running or waiting. */
  function Told(s: State, id: Id): Response {
    if id !in s.table.accepted then NotFound(id)
    else if id !in s.table.outcomes then InProgress(id, s.table.accepted[id], if id in s.started then Running else Queued)
    else if Remembered(s.table, id) then s.table.outcomes[id]
    else NotFound(id)
  }

  /** A query is told what became of the command; so is a cancel, unless it finds the command waiting and cancels it. */
  lemma RepliesMean(run: seq<Step>, s: State, id: Id)
    requires Reaches(INITIAL, run, s)
    ensures Outcome(s.table, id) == Told(s, id)
    ensures Cancel(s.table, id).1 == if id in s.table.accepted && id !in s.table.outcomes && id !in s.started
                                     then CancelledResponse(id, s.table.accepted[id]) else Told(s, id)
  {
    InitialInv();
    RunKeeps(INITIAL, run, s);
    Retention(s.table);
    assert Recorded(s.table, id) && OutcomeOk(s, id);
    assert id in s.table.records <==> id in s.table.records.Keys;
    assert id in s.table.finals <==> Remembered(s.table, id);
    assert id in s.table.finals ==> id in s.table.finalised;
    assert id in s.table.finalised <==> id in s.table.outcomes;
    hide Reaches, Finalise, HandOk, QueueOk, TicksOk, PlaceOk;
  }
}
