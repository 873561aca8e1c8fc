/**
 * The runtime worker object. Each lock region or queue operation is a method
 * that takes one protocol step; the worker's own methods run through their
 * regions and let other threads act in between.
 */
module RuntimeWorkerThread {
  import opened Common
  import opened CommandTable
  import opened WorkerProtocol
  import opened WorkerReasons

  const MUTATING_COMMANDS := {"connect", "disconnect", "rotate", "node_group_auto_test"}

  /** What the outside supplies to the handling of one item. */
  datatype Turn = Turn(expired: bool, result: string, dies: bool, meanwhile: seq<seq<Step>>)

  function Between(turn: Turn, k: nat): seq<Step> {
    if k < |turn.meanwhile| then turn.meanwhile[k] else []
  }

  class RuntimeWorker {
    var commandRecords: map<Id, Record>
    var finalCommandIds: seq<Id>
    var queue: seq<Item>
    var runtimeBusy: bool
    var tickPending: bool
    var cancellationRequested: set<Id>
    var responseQueues: map<Id, seq<Response>>

    // What the other threads hold: the requests they made, how far each has
    // come, and the autonomous lock.
    var accepted: map<Id, string>
    var stage: map<Id, Stage>
    var submitting: bool

    // History and the worker thread's program counter.
    ghost var finalised: seq<Id>
    ghost var outcomes: map<Id, Response>
    ghost var started: set<Id>
    ghost var worker: Phase
    ghost var log: seq<Step>

    ghost function Commands(): Table
      reads this
    {
      Table(commandRecords, finalCommandIds, accepted, finalised, outcomes)
    }

    ghost function Current(): State
      reads this
    {
      State(Commands(), cancellationRequested, queue, worker, runtimeBusy, tickPending, submitting, responseQueues, stage, started)
    }

    /** The object is in a state that some interleaving reaches. */
    ghost predicate Valid()
      reads this
    {
      Reaches(INITIAL, log, Current())
    }

    twostate predicate Took(a: Step)
      reads this
    {
      Enabled(old(Current()), a) && Current() == Next(old(Current()), a) && log == old(log) + [a]
    }

    twostate lemma TookKeeps(a: Step)
      requires old(Valid()) && Took(a)
      ensures Valid()
    {
      ReachesSnoc(INITIAL, old(log), old(Current()), a);
    }

    constructor ()
      ensures Valid() && log == [] && worker.Idle?
    {
      commandRecords, finalCommandIds, queue := map[], [], [];
      runtimeBusy, tickPending, submitting := false, false, false;
      cancellationRequested, responseQueues := {}, map[];
      accepted, finalised, outcomes := map[], [], map[];
      stage, started, worker, log := map[], {}, Idle, [];
    }

    // -------------------------------------------------------------------
    // The command table, under the command lock
    // -------------------------------------------------------------------

    method RetainFinalCommand(id: Id)
      modifies `commandRecords, `finalCommandIds
      ensures (commandRecords, finalCommandIds) == Evict(old(commandRecords), old(finalCommandIds) + [id])
    {
      finalCommandIds := finalCommandIds + [id];
      while |finalCommandIds| > RETAINED
        invariant Evict(commandRecords, finalCommandIds) == Evict(old(commandRecords), old(finalCommandIds) + [id])
      {
        var expired := finalCommandIds[0];
        finalCommandIds := finalCommandIds[1..];
        if expired in commandRecords && commandRecords[expired].response.Some? {
          commandRecords := commandRecords - {expired};
        }
      }
    }

    method RecordFinalResponse(id: Id, status: Status, response: Response)
      modifies `commandRecords, `finalCommandIds, `finalised, `outcomes
      ensures Commands() == Finalise(old(Commands()), id, status, response)
    {
      if id in commandRecords && commandRecords[id].response.None? {
        commandRecords := commandRecords[id := Record(commandRecords[id].command, status, Some(response))];
        RetainFinalCommand(id);
        finalised, outcomes := finalised + [id], outcomes[id := response];
      }
    }

    method CommandOutcome(id: Id) returns (r: Response)
      requires Valid()
      ensures r == Outcome(Commands(), id) == Told(Current(), id)
      ensures id in started ==> !r.CancelledResponse?
    {
      RepliesMean(log, Current(), id);
      if id !in commandRecords {
        r := NotFound(id);
      } else if commandRecords[id].response.Some? {
        r := commandRecords[id].response.value;
      } else {
        r := InProgress(id, commandRecords[id].command, commandRecords[id].status);
      }
      if id in started {
        RunningNeverCancelled(log, Current(), id);
      }
    }

    method CancelLocked(id: Id) returns (r: Response)
      modifies `commandRecords, `finalCommandIds, `finalised, `outcomes, `cancellationRequested
      ensures (Commands(), r) == Cancel(old(Commands()), id)
      ensures cancellationRequested == old(cancellationRequested) + if old(Cancellable(Commands(), id)) then {id} else {}
    {
      hide Finalise, Evict;
      if id !in commandRecords {
        r := NotFound(id);
      } else if commandRecords[id].response.Some? {
        r := commandRecords[id].response.value;
      } else if commandRecords[id].status == Queued {
        cancellationRequested := cancellationRequested + {id};
        r := CancelledResponse(id, commandRecords[id].command);
        RecordFinalResponse(id, Cancelled, r);
      } else {
        r := InProgress(id, commandRecords[id].command, Running);
      }
    }

    method RequestCancellation(id: Id) returns (r: Response)
      requires Valid()
      modifies this
      ensures Valid() && Took(Client(CancelCommand(id))) && r == Cancel(old(Commands()), id).1
      ensures r.CancelledResponse? ==> id !in started
      ensures id in accepted && id !in old(started) && id !in old(outcomes) ==>
                r == CancelledResponse(id, accepted[id]) && id in cancellationRequested
    {
      hide Reaches, Cancel;
      if id in accepted && id !in started && id !in outcomes {
        QueuedIsCancelled(log, Current(), id);
      }
      r := CancelLocked(id);
      log := log + [Client(CancelCommand(id))];
      TookKeeps(Client(CancelCommand(id)));
      if r.CancelledResponse? {
        ReachesNothing(Current());
        AcknowledgedNeverRuns(old(log), old(Current()), id, [], Current());
      }
    }

    /**
     * The reply to an IPC request whose response did not arrive in time; None is
     * the plain timeout error. A mutating command is told what became of it.
     */
    method AnswerTimedOut(id: Id, command: string) returns (r: Option<Response>)
      requires Valid() && (command in MUTATING_COMMANDS ==> id in accepted)
      modifies this
      ensures Valid()
      ensures command !in MUTATING_COMMANDS ==> r.None? && Current() == old(Current())
      ensures command in MUTATING_COMMANDS ==> r.Some? && Took(Client(CancelCommand(id)))
      ensures r.Some? ==> match r.value
                          case CancelledResponse(_, _) => id !in started
                          case InProgress(_, _, _) => id in started && id !in outcomes
                          case CompletedResponse(_, _, _) => id in started && id in outcomes
                          case NotFound(_) => id in Dropped(old(Commands()))
    {
      hide Reaches, Dropped;
      if command !in MUTATING_COMMANDS {
        return None;
      }
      var response := RequestCancellation(id);
      ReachesNothing(Current());
      TimedOutAnswer(old(log), old(Current()), id, [], Current());
      r := Some(response);
    }

    /** The lock region of a submission. A duplicate of a retained command is refused. */
    method RegisterCommand(id: Id, command: string) returns (ok: bool)
      requires Valid() && ClientEnabled(Current(), Register(id, command))
      modifies this
      ensures Valid() && Took(Client(Register(id, command)))
      ensures ok <==> id !in old(commandRecords)
    {
      hide Reaches;
      ok := id !in commandRecords;
      if ok {
        commandRecords := commandRecords[id := Record(command, Queued, None)];
        accepted, stage := accepted[id := command], stage[id := Accepted];
      }
      log := log + [Client(Register(id, command))];
      TookKeeps(Client(Register(id, command)));
    }

    method EnqueueCommand(id: Id, command: string)
      requires Valid() && ClientEnabled(Current(), Enqueue(id)) && accepted[id] == command
      modifies this
      ensures Valid() && Took(Client(Enqueue(id))) && queue == old(queue) + [Mutation(id, command)]
    {
      hide Reaches;
      queue := queue + [Mutation(id, command)];
      stage := stage[id := Enqueued];
      log := log + [Client(Enqueue(id))];
      TookKeeps(Client(Enqueue(id)));
    }

    method PutItem(item: Item)
      requires Valid() && ClientEnabled(Current(), Put(item))
      modifies this
      ensures Valid() && Took(Client(Put(item))) && queue == old(queue) + [item]
    {
      hide Reaches;
      queue := queue + [item];
      log := log + [Client(Put(item))];
      TookKeeps(Client(Put(item)));
    }

    // -------------------------------------------------------------------
    // Ticks, under the autonomous lock
    // -------------------------------------------------------------------

    method BeginTick() returns (entered: bool)
      requires Valid() && !submitting
      modifies this
      ensures Valid() && Took(Timer(TickEnter)) && entered == submitting
      ensures entered <==> !old(runtimeBusy) && !old(tickPending) && old(queue) == []
      ensures tickPending == (old(tickPending) || entered) && queue == old(queue)
    {
      hide Reaches;
      entered := !(runtimeBusy || tickPending || queue != []);
      if entered {
        tickPending, submitting := true, true;
      }
      log := log + [Timer(TickEnter)];
      TookKeeps(Timer(TickEnter));
    }

    method EndTick()
      requires Valid() && submitting
      modifies this
      ensures Valid() && Took(Timer(TickPut)) && queue == old(queue) + [Tick] && !submitting
    {
      hide Reaches;
      queue := queue + [Tick];
      submitting := false;
      log := log + [Timer(TickPut)];
      TookKeeps(Timer(TickPut));
    }

    /** Steps of other threads; one that is not possible at its turn does not happen. */
    method Interfere(others: seq<Step>)
      requires Valid()
      modifies this
      ensures Valid() && worker == old(worker) && Extends(old(Current()), Current())
      ensures started == old(started)
      ensures forall id :: id in cancellationRequested ==> id in old(cancellationRequested) || Client(CancelCommand(id)) in others
    {
      hide Reaches, Next, Extends, Inv;
      ExtendsSelf(Current());
      for i := 0 to |others|
        invariant Valid() && worker == old(worker) && Extends(old(Current()), Current()) && started == old(started)
        invariant forall id :: id in cancellationRequested ==> id in old(cancellationRequested) || Client(CancelCommand(id)) in others[..i]
      {
        assert others[..i + 1] == others[..i] + [others[i]];
        ghost var before := Current();
        Other(others[i]);
        ExtendsTrans(old(Current()), before, Current());
      }
    }

    /** One step of another thread. */
    method Other(a: Step)
      requires Valid()
      modifies this
      ensures Valid() && worker == old(worker) && Extends(old(Current()), Current())
      ensures started == old(started)
      ensures forall id :: id in cancellationRequested ==> id in old(cancellationRequested) || a == Client(CancelCommand(id))
    {
      hide Reaches, Extends, Inv;
      ValidInv(log, Current());
      match a
      case Client(c) => OtherClient(c);
      case Timer(TickEnter) =>
        ExtendsSelf(Current());
        if !submitting {
          StepExtends(Current(), a);
          var _ := BeginTick();
        }
      case Timer(TickPut) =>
        ExtendsSelf(Current());
        if submitting {
          StepExtends(Current(), a);
          EndTick();
        }
      case Work(_) =>
        ExtendsSelf(Current());
    }

    predicate Possible(c: ClientStep)
      reads this
      ensures Possible(c) <==> ClientEnabled(Current(), c)
    {
      match c
      case Register(id, _) => id in commandRecords || id !in accepted
      case Enqueue(id) => id in stage && stage[id] == Accepted && id in accepted
      case CancelCommand(_) => true
      case Put(item) => item.Query? || item.ScheduledRotation? || item.Stop?
    }

    method OtherClient(c: ClientStep)
      requires Valid()
      modifies this
      ensures Valid() && worker == old(worker) && Extends(old(Current()), Current())
      ensures started == old(started)
      ensures forall id :: id in cancellationRequested ==> id in old(cancellationRequested) || c == CancelCommand(id)
    {
      hide Reaches, Extends, Inv, Accept, Cancel;
      ValidInv(log, Current());
      ExtendsSelf(Current());
      if !Possible(c) {
        return;
      }
      StepExtends(Current(), Client(c));
      match c
      case Register(id, command) => var _ := RegisterCommand(id, command);
      case Enqueue(id) => EnqueueCommand(id, accepted[id]);
      case CancelCommand(id) => var _ := RequestCancellation(id);
      case Put(item) => PutItem(item);
    }

    // -------------------------------------------------------------------
    // The worker thread
    // -------------------------------------------------------------------

    method TakeItem() returns (item: Item)
      requires Valid() && WorkerEnabled(Current(), Get)
      modifies this
      ensures Valid() && Took(Work(Get)) && old(queue) == [item] + queue
      ensures worker == if item.Stop? then Stopped else Taken(item)
    {
      hide Reaches;
      item := queue[0];
      queue := queue[1..];
      worker := if item.Stop? then Stopped else Taken(item);
      if item.Mutation? {
        stage := stage[item.id := Handling];
      }
      log := log + [Work(Get)];
      TookKeeps(Work(Get));
    }

    method BecomeBusy(item: Item)
      requires Valid() && worker == Taken(item) && !submitting
      modifies this
      ensures Valid() && Took(Work(SetBusy)) && worker == Busy(item) && runtimeBusy
    {
      hide Reaches;
      runtimeBusy, worker := true, Busy(item);
      log := log + [Work(SetBusy)];
      TookKeeps(Work(SetBusy));
    }

    method CheckCancellation(id: Id, command: string, expired: bool) returns (cancelled: bool)
      requires Valid() && worker == Busy(Mutation(id, command))
      modifies this
      ensures Valid() && Took(Work(Check(expired)))
      ensures cancelled <==> id in old(cancellationRequested) || expired
      ensures started == old(started) && cancellationRequested == old(cancellationRequested)
      ensures worker == if cancelled then CancelSeen(id, command) else Checked(id, command)
    {
      hide Reaches;
      cancelled := id in cancellationRequested || expired;
      worker := if cancelled then CancelSeen(id, command) else Checked(id, command);
      log := log + [Work(Check(expired))];
      TookKeeps(Work(Check(expired)));
    }

    method RecordCancelledCommand(id: Id, command: string) returns (r: Response)
      requires Valid() && worker == CancelSeen(id, command)
      modifies this
      ensures Valid() && Took(Work(RecordCancelled)) && worker == Answering(id, command, r)
      ensures r == CancelledResponse(id, command) && started == old(started)
    {
      hide Reaches, Finalise, Evict;
      r := CancelledResponse(id, command);
      RecordFinalResponse(id, Cancelled, r);
      worker := Answering(id, command, r);
      log := log + [Work(RecordCancelled)];
      TookKeeps(Work(RecordCancelled));
    }

    method StartCommand(id: Id, command: string) returns (ok: bool)
      requires Valid() && worker == Checked(id, command)
      modifies this
      ensures Valid() && Took(Work(Start))
      ensures ok <==> id in old(commandRecords) && old(commandRecords)[id].response.None?
      ensures started == old(started) + if ok then {id} else {}
      ensures worker == if ok then Executing(id, command) else Answering(id, command, CancelledResponse(id, command))
    {
      hide Reaches;
      ok := id in commandRecords && commandRecords[id].response.None?;
      if ok {
        commandRecords := commandRecords[id := commandRecords[id].(status := Running)];
        started, worker := started + {id}, Executing(id, command);
      } else {
        worker := Answering(id, command, CancelledResponse(id, command));
      }
      assert Current() == TryStart(old(Current()), id, command);
      log := log + [Work(Start)];
      TookKeeps(Work(Start));
    }

    method RecordCompletedCommand(id: Id, command: string, result: string) returns (r: Response)
      requires Valid() && worker == Executed(id, command, result)
      modifies this
      ensures Valid() && Took(Work(RecordCompleted)) && worker == Answering(id, command, r)
      ensures r == CompletedResponse(id, command, result) && started == old(started)
    {
      hide Reaches, Finalise, Evict;
      r := CompletedResponse(id, command, result);
      RecordFinalResponse(id, Completed, r);
      worker := Answering(id, command, r);
      log := log + [Work(RecordCompleted)];
      TookKeeps(Work(RecordCompleted));
    }

    method Deliver(id: Id, command: string, response: Response)
      modifies `responseQueues, `stage, `worker
      ensures Current() == Respond(old(Current()), id, command, response)
    {
      var sent := if id in responseQueues then responseQueues[id] else [];
      responseQueues := responseQueues[id := sent + [response]];
      stage, worker := stage[id := Answered], Ending(Mutation(id, command), false);
    }

    method PutResponse(id: Id, command: string, response: Response)
      requires Valid() && worker == Answering(id, command, response)
      modifies this
      ensures Valid() && Took(Work(Answer)) && worker == Ending(Mutation(id, command), false)
      ensures started == old(started) && outcomes == old(outcomes)
      ensures Current() == Respond(old(Current()), id, command, response)
    {
      hide Reaches;
      Deliver(id, command, response);
      assert worker == Respond(old(Current()), id, command, response).worker;
      hide Respond;
      log := log + [Work(Answer)];
      TookKeeps(Work(Answer));
    }

    /** The runtime operation itself: its result is supplied. */
    method HandleRequest(id: Id, command: string, result: string)
      requires Valid() && worker == Executing(id, command)
      modifies this
      ensures Valid() && Took(Work(Execute(result))) && worker == Executed(id, command, result)
      ensures started == old(started)
    {
      hide Reaches;
      worker := Executed(id, command, result);
      log := log + [Work(Execute(result))];
      TookKeeps(Work(Execute(result)));
    }

    /** Runs a command that is still wanted, unless its cancellation got in first. */
    method RunChecked(id: Id, command: string, turn: Turn) returns (r: Response)
      requires Valid() && worker == Checked(id, command) && id !in started
      modifies this
      ensures Valid() && worker == Answering(id, command, r)
      ensures r == if id in started then CompletedResponse(id, command, turn.result) else CancelledResponse(id, command)
      ensures id !in old(cancellationRequested) ==> id in started
    {
      hide Reaches, Took, Extends, AllExplained;
      if id !in cancellationRequested {
        Startable(log, Current(), id, command);
      }
      var ok := StartCommand(id, command);
      Interfere(Between(turn, 1));
      if !ok {
        return CancelledResponse(id, command);
      }
      HandleRequest(id, command, turn.result);
      Interfere(Between(turn, 2));
      r := RecordCompletedCommand(id, command, turn.result);
    }

    /**
     * One mutating request from the queue, with other threads acting in between: it is
     * executed and its one response carries the result, or it never started and the
     * one response is "cancelled". It starts if nobody cancels it before it does and it
     * has not expired, and it does not start if it was cancelled before or has expired.
     */
    method ExecuteRequest(id: Id, command: string, turn: Turn)
      requires Valid() && worker == Busy(Mutation(id, command))
      modifies this
      ensures Valid() && worker == Ending(Mutation(id, command), false)
      ensures id in outcomes && id in responseQueues && responseQueues[id] == [outcomes[id]]
      ensures outcomes[id] == if id in started then CompletedResponse(id, command, turn.result) else CancelledResponse(id, command)
      ensures turn.expired || id in old(cancellationRequested) ==> id !in started
      ensures !turn.expired && id !in old(cancellationRequested) && Client(CancelCommand(id)) !in Between(turn, 0) ==> id in started
    {
      hide Reaches, Took, Extends, Respond, Inv;
      ValidInv(log, Current());
      NotYetStarted(Current(), id, command);
      var cancelled := CheckCancellation(id, command, turn.expired);
      Interfere(Between(turn, 0));
      var response;
      if cancelled {
        response := RecordCancelledCommand(id, command);
      } else {
        response := RunChecked(id, command, turn);
      }
      Interfere(Between(turn, 3));
      AnsweredOnce(log, Current(), id, command);
      PutResponse(id, command, response);
    }

    method FinishItem(item: Item, dies: bool)
      requires Valid() && worker == Ending(item, dies) && !submitting
      modifies this
      ensures Valid() && Took(Work(Finish)) && worker == if dies then Stopped else Idle
      ensures !runtimeBusy && tickPending == (old(tickPending) && !item.Tick?)
    {
      hide Reaches;
      runtimeBusy, tickPending := false, tickPending && !item.Tick?;
      worker := if dies then Stopped else Idle;
      log := log + [Work(Finish)];
      TookKeeps(Work(Finish));
    }

    /** A tick, a scheduled rotation or a query; a failing event broadcast may kill the thread. */
    method ServeItem(item: Item, dies: bool)
      requires Valid() && worker == Busy(item) && !item.Mutation?
      modifies this
      ensures Valid() && Took(Work(Serve(dies))) && worker == Ending(item, dies)
    {
      hide Reaches;
      worker := Ending(item, dies);
      log := log + [Work(Serve(dies))];
      TookKeeps(Work(Serve(dies)));
    }

    /** The autonomous lock is free once its holder has put its tick. */
    method AwaitAutonomousLock()
      requires Valid()
      modifies this
      ensures Valid() && !submitting && worker == old(worker) && Extends(old(Current()), Current())
      ensures started == old(started)
    {
      hide Reaches, Extends, Inv;
      ValidInv(log, Current());
      ExtendsSelf(Current());
      if submitting {
        StepExtends(Current(), Timer(TickPut));
        EndTick();
      }
    }

    /**
     * One turn of the worker loop on a non-empty queue. A mutating request that
     * was dequeued has exactly one response afterwards.
     */
    method RunOne(turn: Turn) returns (stopped: bool)
      requires Valid() && worker.Idle? && queue != []
      modifies this
      ensures Valid() && worker == if stopped then Stopped else Idle
      ensures var item := old(queue)[0];
              item.Mutation? ==> item.id in outcomes && item.id in responseQueues && responseQueues[item.id] == [outcomes[item.id]]
    {
      hide Reaches, Extends, Took;
      var item := TakeItem();
      if item.Stop? {
        return true;
      }
      Interfere(Between(turn, 4));
      AwaitAutonomousLock();
      BecomeBusy(item);
      Interfere(Between(turn, 5));
      if item.Mutation? {
        ExecuteRequest(item.id, item.command, turn);
        ghost var s := Current();
        CloseTurn(item, false, turn);
        ExtendsAt(s, Current(), item.id);
        stopped := false;
      } else {
        ServeItem(item, turn.dies);
        CloseTurn(item, turn.dies, turn);
        stopped := turn.dies;
      }
    }

    method CloseTurn(item: Item, dies: bool, turn: Turn)
      requires Valid() && worker == Ending(item, dies)
      modifies this
      ensures Valid() && worker == (if dies then Stopped else Idle) && Extends(old(Current()), Current())
    {
      hide Reaches, Extends, Inv;
      Interfere(Between(turn, 6));
      ghost var s := Current();
      AwaitAutonomousLock();
      ghost var t := Current();
      ExtendsTrans(old(Current()), s, t);
      ValidInv(log, Current());
      StepExtends(Current(), Work(Finish));
      FinishItem(item, dies);
      ExtendsTrans(old(Current()), t, Current());
    }

    /** The worker loop over any number of turns; other threads act while the queue is empty. */
    method Run(turns: seq<Turn>)
      requires Valid() && worker.Idle?
      modifies this
      ensures Valid() && (worker.Idle? || worker.Stopped?)
      ensures forall id :: id in stage && stage[id] in {Handling, Answered} ==>
                id in responseQueues && id in outcomes && responseQueues[id] == [outcomes[id]]
      ensures tickPending <==> submitting || LiveTicks(Current()) == 1
    {
      hide Reaches, Extends;
      var stopped := false;
      for i := 0 to |turns|
        invariant Valid() && if stopped then worker.Stopped? else worker.Idle?
      {
        Interfere(Between(turns[i], 7));
        if !stopped && queue != [] {
          stopped := RunOne(turns[i]);
        }
      }
      TickFlagExact(log, Current());
      forall id | id in stage && stage[id] in {Handling, Answered}
        ensures id in responseQueues && id in outcomes && responseQueues[id] == [outcomes[id]]
      {
        OneResponseEach(log, Current(), id);
      }
    }
  }

  lemma {:induction false} ReachesSnoc(s: State, run: seq<Step>, t: State, a: Step)
    requires Reaches(s, run, t) && Enabled(t, a)
    ensures Reaches(s, run + [a], Next(t, a))
    decreases |run|
  {
    hide Enabled, Next;
    if run == [] {
      assert [a][1..] == [];
    } else {
      ReachesSnoc(Next(s, run[0]), run[1..], t, a);
      assert (run + [a])[1..] == run[1..] + [a];
    }
  }

  lemma ValidInv(run: seq<Step>, s: State)
    requires Reaches(INITIAL, run, s)
    ensures Inv(s)
  {
    InitialInv();
    RunKeeps(INITIAL, run, s);
  }

  lemma ExtendsSelf(s: State)
    ensures Extends(s, s)
  {
  }

  lemma ExtendsTrans(s: State, t: State, u: State)
    requires Extends(s, t) && Extends(t, u)
    ensures Extends(s, u)
  {
  }

  lemma ReachesNothing(s: State)
    ensures Reaches(s, [], s)
  {
  }

  /** The response about to be put is the command's only one, and says what happened. */
  lemma NotYetStarted(s: State, id: Id, command: string)
    requires Inv(s) && s.worker == Busy(Mutation(id, command))
    ensures id !in s.started
  {
  }

  lemma AnsweredOnce(run: seq<Step>, s: State, id: Id, command: string)
    requires Reaches(INITIAL, run, s) && s.worker.Answering? && s.worker.id == id && s.worker.command == command
    ensures var t := Respond(s, id, command, s.worker.response);
            && id in t.table.outcomes && id in t.answers && t.answers[id] == [t.table.outcomes[id]]
            && t.table.outcomes[id] == s.worker.response && t.started == s.started
  {
    ValidInv(run, s);
    assert OutcomeOk(s, id) && PlaceOk(s, id) && Finished(s.table, id);
    hide Reaches;
  }

  lemma ExtendsAt(s: State, t: State, id: Id)
    requires Extends(s, t) && id in s.table.outcomes && id in s.answers
    ensures id in t.table.outcomes && t.table.outcomes[id] == s.table.outcomes[id]
    ensures id in t.answers && t.answers[id] == s.answers[id]
  {
  }
}
