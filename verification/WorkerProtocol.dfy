/**
 * Clients, the tick timer and the single worker thread of the runtime worker,
 * interleaved at lock regions and queue operations.
 */
module WorkerProtocol {
  import opened Common
  import opened CommandTable

  datatype Item = Mutation(id: Id, command: string) | Query(command: string) | Tick | ScheduledRotation | Stop

  /** Where a mutating command is on its way from acceptance to its response. */
  datatype Stage = Accepted | Enqueued | Handling | Answered

  /** The worker thread's program counter. */
  datatype Phase =
    | Idle
    | Taken(item: Item)
    | Busy(item: Item)
    | CancelSeen(id: Id, command: string)
    | Checked(id: Id, command: string)
    | Executing(id: Id, command: string)
    | Executed(id: Id, command: string, result: string)
    | Answering(id: Id, command: string, response: Response)
    | Ending(item: Item, dies: bool)
    | Stopped

  /**
   * `flags` holds the ids whose cancellation event is set, `answers` what was put
   * on each command's response queue, `submitting` that the timer holds the
   * autonomous lock. `stage` and `started` are history.
   */
  datatype State = State(
    table: Table,
    flags: set<Id>,
    queue: seq<Item>,
    worker: Phase,
    busy: bool,
    tickPending: bool,
    submitting: bool,
    answers: map<Id, seq<Response>>,
    stage: map<Id, Stage>,
    started: set<Id>)

  const INITIAL := State(EMPTY, {}, [], Idle, false, false, false, map[], map[], {})

  // ---------------------------------------------------------------------
  // Steps
  // ---------------------------------------------------------------------

  datatype ClientStep =
    | Register(id: Id, command: string)
    | Enqueue(id: Id)
    | CancelCommand(id: Id)
    | Put(item: Item)

  datatype TimerStep = TickEnter | TickPut

  datatype WorkerStep =
    | Get
    | SetBusy
    | Check(expired: bool)
    | RecordCancelled
    | Start
    | Execute(result: string)
    | RecordCompleted
    | Answer
    | Serve(dies: bool)
    | Finish

  datatype Step = Client(client: ClientStep) | Timer(timer: TimerStep) | Work(work: WorkerStep)

  /** Command ids are never reused, except that a reuse while the record is retained is refused. */
  predicate ClientEnabled(s: State, a: ClientStep) {
    match a
    case Register(id, _) => id in s.table.records || id !in s.table.accepted
    case Enqueue(id) => id in s.stage && s.stage[id] == Accepted && id in s.table.accepted
    case CancelCommand(_) => true
    case Put(item) => item.Query? || item.ScheduledRotation? || item.Stop?
  }

  function ClientNext(s: State, a: ClientStep): State
    requires ClientEnabled(s, a)
  {
    match a
    case Register(id, command) =>
      s.(table := Accept(s.table, id, command), stage := if id in s.table.records then s.stage else s.stage[id := Accepted])
    case Enqueue(id) => s.(queue := s.queue + [Mutation(id, s.table.accepted[id])], stage := s.stage[id := Enqueued])
    case CancelCommand(id) =>
      var queued := id in s.table.records && s.table.records[id].response.None? && s.table.records[id].status == Queued;
      s.(table := Cancel(s.table, id).0, flags := if queued then s.flags + {id} else s.flags)
    case Put(item) => s.(queue := s.queue + [item])
  }

  predicate TimerEnabled(s: State, a: TimerStep) {
    match a
    case TickEnter => !s.submitting
    case TickPut => s.submitting
  }

  function TimerNext(s: State, a: TimerStep): State
    requires TimerEnabled(s, a)
  {
    match a
    case TickEnter => if s.busy || s.tickPending || s.queue != [] then s else s.(tickPending := true, submitting := true)
    case TickPut => s.(queue := s.queue + [Tick], submitting := false)
  }

  predicate WorkerEnabled(s: State, a: WorkerStep) {
    match a
    case Get => s.worker.Idle? && s.queue != []
    case SetBusy => s.worker.Taken? && !s.submitting
    case Check(_) => s.worker.Busy? && s.worker.item.Mutation?
    case RecordCancelled => s.worker.CancelSeen?
    case Start => s.worker.Checked?
    case Execute(_) => s.worker.Executing?
    case RecordCompleted => s.worker.Executed?
    case Answer => s.worker.Answering?
    case Serve(_) => s.worker.Busy? && !s.worker.item.Mutation?
    case Finish => s.worker.Ending? && !s.submitting
  }

  function TakeNext(s: State): State
    requires s.queue != []
  {
    var item := s.queue[0];
    s.(queue := s.queue[1..],
       worker := if item.Stop? then Stopped else Taken(item),
       stage := if item.Mutation? then s.stage[item.id := Handling] else s.stage)
  }

  function TryStart(s: State, id: Id, command: string): State {
    if id !in s.table.records || s.table.records[id].response.Some? then
      s.(worker := Answering(id, command, CancelledResponse(id, command)))
    else s.(table := MarkRunning(s.table, id), started := s.started + {id}, worker := Executing(id, command))
  }

  function Respond(s: State, id: Id, command: string, response: Response): State {
    s.(answers := s.answers[id := (if id in s.answers then s.answers[id] else []) + [response]],
       stage := s.stage[id := Answered],
       worker := Ending(Mutation(id, command), false))
  }

  function WorkerNext(s: State, a: WorkerStep): State
    requires WorkerEnabled(s, a)
  {
    match a
    case Get => TakeNext(s)
    case SetBusy => s.(busy := true, worker := Busy(s.worker.item))
    case Check(expired) =>
      var Mutation(id, command) := s.worker.item;
      s.(worker := if id in s.flags || expired then CancelSeen(id, command) else Checked(id, command))
    case RecordCancelled =>
      var CancelSeen(id, command) := s.worker;
      var response := CancelledResponse(id, command);
      s.(table := Finalise(s.table, id, Cancelled, response), worker := Answering(id, command, response))
    case Start => TryStart(s, s.worker.id, s.worker.command)
    case Execute(result) => s.(worker := Executed(s.worker.id, s.worker.command, result))
    case RecordCompleted =>
      var Executed(id, command, result) := s.worker;
      var response := CompletedResponse(id, command, result);
      s.(table := Finalise(s.table, id, Completed, response), worker := Answering(id, command, response))
    case Answer => Respond(s, s.worker.id, s.worker.command, s.worker.response)
    case Serve(dies) => s.(worker := Ending(s.worker.item, dies))
    case Finish =>
      var Ending(item, dies) := s.worker;
      s.(busy := false, tickPending := s.tickPending && !item.Tick?, worker := if dies then Stopped else Idle)
  }

  predicate Enabled(s: State, a: Step) {
    match a
    case Client(c) => ClientEnabled(s, c)
    case Timer(t) => TimerEnabled(s, t)
    case Work(w) => WorkerEnabled(s, w)
  }

  function Next(s: State, a: Step): State
    requires Enabled(s, a)
  {
    match a
    case Client(c) => ClientNext(s, c)
    case Timer(t) => TimerNext(s, t)
    case Work(w) => WorkerNext(s, w)
  }

  /** `run` can be taken step by step from `s` and ends in `t`. */
  ghost predicate Reaches(s: State, run: seq<Step>, t: State)
    decreases |run|
  {
    if run == [] then s == t
    else Enabled(s, run[0]) && Reaches(Next(s, run[0]), run[1..], t)
  }

  // ---------------------------------------------------------------------
  // Invariant
  // ---------------------------------------------------------------------

  /** The mutating command in the worker's hands, if any. */
  function Hand(w: Phase): Option<Item> {
    match w
    case Taken(item) => if item.Mutation? then Some(item) else None
    case Busy(item) => if item.Mutation? then Some(item) else None
    case CancelSeen(id, command) => Some(Mutation(id, command))
    case Checked(id, command) => Some(Mutation(id, command))
    case Executing(id, command) => Some(Mutation(id, command))
    case Executed(id, command, _) => Some(Mutation(id, command))
    case Answering(id, command, _) => Some(Mutation(id, command))
    case _ => None
  }

  predicate Performing(w: Phase, id: Id) {
    (w.Executing? || w.Executed?) && w.id == id
  }

  /** The command in hand is being handled, and how far its handling has come. */
  predicate HandOk(s: State) {
    Hand(s.worker).Some? ==>
      var Mutation(id, command) := Hand(s.worker).value;
      && id in s.stage && s.stage[id] == Handling
      && id in s.table.accepted && s.table.accepted[id] == command
      && (s.worker.Executing? || s.worker.Executed? ==> id in s.started && id !in s.table.outcomes)
      && (s.worker.Answering? ==> id in s.table.outcomes && s.table.outcomes[id] == s.worker.response)
      && (!s.worker.Executing? && !s.worker.Executed? && !s.worker.Answering? ==> id !in s.started)
  }

  predicate QueuedAt(s: State, i: nat)
    requires i < |s.queue|
  {
    s.queue[i].Mutation? ==>
      && s.queue[i].id in s.stage && s.stage[s.queue[i].id] == Enqueued
      && s.queue[i].id in s.table.accepted && s.table.accepted[s.queue[i].id] == s.queue[i].command
  }

  predicate QueueOk(s: State) {
    && (forall i :: 0 <= i < |s.queue| ==> QueuedAt(s, i))
    && (forall i, j :: 0 <= i < j < |s.queue| && s.queue[i].Mutation? && s.queue[j].Mutation? ==> s.queue[i].id != s.queue[j].id)
  }

  /** Execution and outcome of one command agree. */
  predicate OutcomeOk(s: State, id: Id) {
    && (id in s.started ==> id in s.stage && (s.stage[id] == Handling || s.stage[id] == Answered))
    && (id in s.table.outcomes ==> (id in s.started <==> s.table.outcomes[id].CompletedResponse?))
    && (id in s.flags ==> id in s.table.outcomes && s.table.outcomes[id].CancelledResponse?)
    && (id in s.table.records && s.table.records[id].response.None? ==> (s.table.records[id].status == Running <==> id in s.started))
    && (id in s.started && id !in s.table.outcomes ==> Performing(s.worker, id))
  }

  /** The place of one command, and its responses. */
  predicate PlaceOk(s: State, id: Id) {
    && (id in s.stage <==> id in s.table.accepted)
    && (id in s.stage && s.stage[id] == Handling ==> Hand(s.worker) == Some(Mutation(id, s.table.accepted[id])))
    && (id in s.stage && s.stage[id] == Enqueued ==> Mutation(id, s.table.accepted[id]) in s.queue)
    && (id in s.answers <==> id in s.stage && s.stage[id] == Answered)
    && (id in s.answers ==> id in s.table.outcomes && s.answers[id] == [s.table.outcomes[id]])
  }

  function Ticks(queue: seq<Item>): nat {
    if queue == [] then 0 else Ticks(queue[..|queue| - 1]) + if queue[|queue| - 1].Tick? then 1 else 0
  }

  predicate HoldsTick(w: Phase) {
    (w.Taken? || w.Busy? || w.Ending?) && w.item.Tick?
  }

  /** The ticks queued or executing. */
  function LiveTicks(s: State): nat {
    Ticks(s.queue) + if HoldsTick(s.worker) then 1 else 0
  }

  predicate TicksOk(s: State) {
    && LiveTicks(s) + (if s.submitting then 1 else 0) == (if s.tickPending then 1 else 0)
    && (s.busy <==> !s.worker.Idle? && !s.worker.Taken? && !s.worker.Stopped?)
  }

  ghost predicate Inv(s: State) {
    && Consistent(s.table)
    && HandOk(s)
    && QueueOk(s)
    && TicksOk(s)
    && (forall id :: OutcomeOk(s, id))
    && (forall id :: PlaceOk(s, id))
  }

  lemma InitialInv()
    ensures Inv(INITIAL)
  {
  }

  lemma {:induction false} TicksTail(queue: seq<Item>)
    requires queue != []
    ensures Ticks(queue) == (if queue[0].Tick? then 1 else 0) + Ticks(queue[1..])
  {
    if |queue| > 1 {
      var init := queue[..|queue| - 1];
      TicksTail(init);
      assert queue[1..][..|queue| - 2] == init[1..];
    } else {
      assert queue[..0] == [] && queue[1..] == [];
    }
  }

  lemma TicksSnoc(queue: seq<Item>, item: Item)
    ensures Ticks(queue + [item]) == Ticks(queue) + if item.Tick? then 1 else 0
  {
    assert (queue + [item])[..|queue|] == queue;
  }

  // ---------------------------------------------------------------------
  // Every step keeps the invariant
  // ---------------------------------------------------------------------

  lemma RegisterKeeps(s: State, id: Id, command: string)
    requires Inv(s) && ClientEnabled(s, Register(id, command))
    ensures Inv(ClientNext(s, Register(id, command)))
  {
    var t := ClientNext(s, Register(id, command));
    if id !in s.table.records {
      AcceptKeeps(s.table, id, command);
      assert OutcomeOk(s, id) && PlaceOk(s, id) && Finished(s.table, id);
      forall i | 0 <= i < |s.queue| ensures QueuedAt(t, i) {
        assert QueuedAt(s, i);
      }
      forall other ensures OutcomeOk(t, other) && PlaceOk(t, other) {
        assert OutcomeOk(s, other) && PlaceOk(s, other);
      }
    }
  }

  /** A queue with one more item that is no mutating command. */
  lemma QueueSnoc(s: State, t: State, item: Item)
    requires QueueOk(s) && t.queue == s.queue + [item] && !item.Mutation? && t.stage == s.stage && t.table.accepted == s.table.accepted
    ensures QueueOk(t)
  {
    forall i | 0 <= i < |t.queue| ensures QueuedAt(t, i) {
      if i < |s.queue| {
        assert QueuedAt(s, i);
      }
    }
  }

  /** Nothing about a command changes when the queue only grows. */
  lemma GrownQueue(s: State, t: State, id: Id)
    requires OutcomeOk(s, id) && PlaceOk(s, id) && s.queue <= t.queue
    requires t.stage == s.stage && t.table == s.table && t.started == s.started && t.flags == s.flags
    requires t.worker == s.worker && t.answers == s.answers
    ensures OutcomeOk(t, id) && PlaceOk(t, id)
  {
    hide Hand, Performing;
    assert forall item :: item in s.queue ==> item in t.queue;
  }

  lemma EnqueueAt(s: State, id: Id, other: Id)
    requires ClientEnabled(s, Enqueue(id)) && OutcomeOk(s, id) && PlaceOk(s, id) && OutcomeOk(s, other) && PlaceOk(s, other)
    ensures var t := ClientNext(s, Enqueue(id)); OutcomeOk(t, other) && PlaceOk(t, other)
  {
    hide Hand, Performing;
    var t := ClientNext(s, Enqueue(id));
    assert t.queue[|s.queue|] in t.queue;
    assert forall item :: item in s.queue ==> item in t.queue;
  }

  lemma EnqueueQueue(s: State, id: Id)
    requires QueueOk(s) && ClientEnabled(s, Enqueue(id))
    ensures QueueOk(ClientNext(s, Enqueue(id)))
  {
    var t := ClientNext(s, Enqueue(id));
    forall i | 0 <= i < |t.queue| ensures QueuedAt(t, i) && (i < |s.queue| && t.queue[i].Mutation? ==> t.queue[i].id != id) {
      if i < |s.queue| {
        assert QueuedAt(s, i);
      }
    }
  }

  lemma EnqueueKeeps(s: State, id: Id)
    requires Inv(s) && ClientEnabled(s, Enqueue(id))
    ensures Inv(ClientNext(s, Enqueue(id)))
  {
    var t := ClientNext(s, Enqueue(id));
    TicksSnoc(s.queue, Mutation(id, s.table.accepted[id]));
    EnqueueQueue(s, id);
    hide Consistent, Ticks, QueueOk, Hand, Performing;
    assert OutcomeOk(s, id) && PlaceOk(s, id);
    assert HandOk(t);
    hide HandOk;
    forall other ensures OutcomeOk(t, other) && PlaceOk(t, other) {
      assert OutcomeOk(s, other) && PlaceOk(s, other);
      EnqueueAt(s, id, other);
    }
  }

  lemma PutKeeps(s: State, item: Item)
    requires Inv(s) && ClientEnabled(s, Put(item))
    ensures Inv(ClientNext(s, Put(item)))
  {
    var t := ClientNext(s, Put(item));
    TicksSnoc(s.queue, item);
    QueueSnoc(s, t, item);
    hide Consistent, Ticks, QueueOk, Hand, OutcomeOk, PlaceOk;
    forall other ensures OutcomeOk(t, other) && PlaceOk(t, other) {
      assert OutcomeOk(s, other) && PlaceOk(s, other);
      GrownQueue(s, t, other);
    }
  }

  /** What recording an outcome leaves alone. */
  lemma FinaliseEffect(t: Table, id: Id, status: Status, response: Response, other: Id)
    requires Consistent(t) && FinalFor(t, id, status, response)
    ensures var u := Finalise(t, id, status, response);
            && u.accepted == t.accepted
            && u.outcomes == (if id in t.outcomes then t.outcomes else t.outcomes[id := response])
            && (other != id && other in u.records ==> other in t.records && u.records[other] == t.records[other])
            && (id in u.records ==> u.records[id].response.Some?)
  {
    assert Recorded(t, id) && Finished(t, id);
    if id in t.records && t.records[id].response.None? {
      Appended(t, id, status, response);
    } else if id !in t.outcomes {
      SplitAt(t, id);
      assert false;
    }
    hide Evict, Dropped, Recent;
  }

  /** A step that touches neither the queue nor the commands in it. */
  lemma QueueKept(s: State, t: State)
    requires QueueOk(s) && t.queue == s.queue && t.table.accepted == s.table.accepted
    requires forall id :: id in s.stage && s.stage[id] == Enqueued ==> id in t.stage && t.stage[id] == Enqueued
    ensures QueueOk(t)
  {
    forall i | 0 <= i < |t.queue| ensures QueuedAt(t, i) {
      assert QueuedAt(s, i);
    }
  }

  predicate Cancellable(t: Table, id: Id) {
    id in t.records && t.records[id].response.None? && t.records[id].status == Queued
  }

  lemma CancelAt(s: State, id: Id, other: Id)
    requires Inv(s) && Cancellable(s.table, id)
    ensures var t := ClientNext(s, CancelCommand(id)); OutcomeOk(t, other) && PlaceOk(t, other)
  {
    var response := CancelledResponse(id, s.table.records[id].command);
    assert Recorded(s.table, id) && OutcomeOk(s, id) && OutcomeOk(s, other) && PlaceOk(s, other);
    FinaliseEffect(s.table, id, Cancelled, response, other);
    hide Consistent, Finalise, QueueOk, TicksOk, HandOk, Recorded, Finished, Hand;
  }

  lemma CancelKeeps(s: State, id: Id)
    requires Inv(s)
    ensures Inv(ClientNext(s, CancelCommand(id)))
  {
    var t := ClientNext(s, CancelCommand(id));
    if Cancellable(s.table, id) {
      var response := CancelledResponse(id, s.table.records[id].command);
      assert Recorded(s.table, id) && OutcomeOk(s, id);
      FinaliseKeeps(s.table, id, Cancelled, response);
      FinaliseEffect(s.table, id, Cancelled, response, id);
      assert t.table == Finalise(s.table, id, Cancelled, response);
      hide Consistent, Finalise, QueueOk, PlaceOk, Recorded;
      QueueKept(s, t);
      forall other ensures OutcomeOk(t, other) && PlaceOk(t, other) {
        CancelAt(s, id, other);
      }
    } else {
      assert t == s;
    }
  }

  lemma TimerQueue(s: State, a: TimerStep)
    requires QueueOk(s) && TimerEnabled(s, a)
    ensures QueueOk(TimerNext(s, a))
  {
    var t := TimerNext(s, a);
    if t.queue == s.queue {
      QueueKept(s, t);
    } else {
      QueueSnoc(s, t, Tick);
    }
  }

  lemma TimerTicks(s: State, a: TimerStep)
    requires TicksOk(s) && HandOk(s) && TimerEnabled(s, a)
    ensures TicksOk(TimerNext(s, a)) && HandOk(TimerNext(s, a))
  {
    TicksSnoc(s.queue, Tick);
    hide Ticks, Hand;
  }

  lemma TimerKeeps(s: State, a: TimerStep)
    requires Inv(s) && TimerEnabled(s, a)
    ensures Inv(TimerNext(s, a))
  {
    hide Consistent, TicksOk, HandOk, QueueOk, OutcomeOk, PlaceOk;
    var t := TimerNext(s, a);
    TimerTicks(s, a);
    TimerQueue(s, a);
    forall other ensures OutcomeOk(t, other) && PlaceOk(t, other) {
      assert OutcomeOk(s, other) && PlaceOk(s, other);
      GrownQueue(s, t, other);
    }
  }

  lemma GetKeeps(s: State)
    requires Inv(s) && WorkerEnabled(s, Get)
    ensures Inv(WorkerNext(s, Get))
  {
    hide Consistent, Ticks;
    var t := WorkerNext(s, Get);
    TicksTail(s.queue);
    assert QueuedAt(s, 0);
    forall i | 0 <= i < |t.queue| ensures QueuedAt(t, i) {
      assert t.queue[i] == s.queue[i + 1];
      assert QueuedAt(s, i + 1);
    }
    if s.queue[0].Mutation? {
      assert OutcomeOk(s, s.queue[0].id) && PlaceOk(s, s.queue[0].id);
    }
    forall other ensures OutcomeOk(t, other) && PlaceOk(t, other) {
      assert OutcomeOk(s, other) && PlaceOk(s, other);
    }
  }

  /** Steps that move only the program counter, the busy flag and the tick flag. */
  predicate Moves(a: WorkerStep) {
    a.SetBusy? || a.Check? || a.Execute? || a.Serve? || a.Finish?
  }

  lemma MoveAt(s: State, a: WorkerStep, other: Id)
    requires Inv(s) && WorkerEnabled(s, a) && Moves(a)
    ensures var t := WorkerNext(s, a); OutcomeOk(t, other) && PlaceOk(t, other)
  {
    hide Consistent, QueueOk, TicksOk;
    assert OutcomeOk(s, other) && PlaceOk(s, other);
  }

  lemma MoveKeeps(s: State, a: WorkerStep)
    requires Inv(s) && WorkerEnabled(s, a) && Moves(a)
    ensures Inv(WorkerNext(s, a))
  {
    hide Consistent, Finalise, FinalFor, Ticks, QueueOk, OutcomeOk, PlaceOk;
    var t := WorkerNext(s, a);
    QueueKept(s, t);
    forall other ensures OutcomeOk(t, other) && PlaceOk(t, other) {
      MoveAt(s, a, other);
    }
  }

  /** A checked command is still unfinished, or was cancelled meanwhile. */
  lemma CheckedState(s: State)
    requires Inv(s) && s.worker.Checked?
    ensures var id := s.worker.id;
            if id in s.table.records && s.table.records[id].response.None? then id !in s.table.outcomes
            else id in s.table.outcomes && s.table.outcomes[id] == CancelledResponse(id, s.worker.command)
  {
    var id := s.worker.id;
    assert OutcomeOk(s, id) && Recorded(s.table, id) && Finished(s.table, id);
    SplitAt(s.table, id);
  }

  lemma StartAt(s: State, other: Id)
    requires Inv(s) && WorkerEnabled(s, Start)
    ensures var t := WorkerNext(s, Start); OutcomeOk(t, other) && PlaceOk(t, other)
  {
    hide Consistent, QueueOk, TicksOk;
    CheckedState(s);
    assert OutcomeOk(s, other) && PlaceOk(s, other);
  }

  lemma StartKeeps(s: State)
    requires Inv(s) && WorkerEnabled(s, Start)
    ensures Inv(WorkerNext(s, Start))
  {
    hide Consistent, Finalise, FinalFor, Ticks, QueueOk, OutcomeOk, PlaceOk;
    var t := WorkerNext(s, Start);
    var id := s.worker.id;
    CheckedState(s);
    if id in s.table.records && s.table.records[id].response.None? {
      MarkRunningKeeps(s.table, id);
    }
    QueueKept(s, t);
    forall other ensures OutcomeOk(t, other) && PlaceOk(t, other) {
      StartAt(s, other);
    }
  }

  /** The outcome about to be recorded fits the command in hand. */
  lemma RecordFits(s: State, a: WorkerStep)
    requires Inv(s) && WorkerEnabled(s, a) && (a.RecordCancelled? || a.RecordCompleted?)
    ensures var t := WorkerNext(s, a);
            var status := if a.RecordCancelled? then Cancelled else Completed;
            && FinalFor(s.table, t.worker.id, status, t.worker.response)
            && t.table == Finalise(s.table, t.worker.id, status, t.worker.response)
            && (t.worker.id in s.table.outcomes ==> s.table.outcomes[t.worker.id] == t.worker.response)
            && (t.worker.id in s.started <==> a.RecordCompleted?)
  {
    var id := s.worker.id;
    assert OutcomeOk(s, id) && Finished(s.table, id);
    hide Finalise, QueueOk, TicksOk, PlaceOk;
  }

  lemma RecordAt(s: State, a: WorkerStep, other: Id)
    requires Inv(s) && WorkerEnabled(s, a) && (a.RecordCancelled? || a.RecordCompleted?)
    ensures var t := WorkerNext(s, a); OutcomeOk(t, other) && PlaceOk(t, other)
  {
    hide Consistent, Finalise, QueueOk, TicksOk, FinalFor;
    var t := WorkerNext(s, a);
    var status := if a.RecordCancelled? then Cancelled else Completed;
    RecordFits(s, a);
    FinaliseEffect(s.table, t.worker.id, status, t.worker.response, other);
    assert OutcomeOk(s, other) && PlaceOk(s, other);
  }

  lemma RecordKeeps(s: State, a: WorkerStep)
    requires Inv(s) && WorkerEnabled(s, a) && (a.RecordCancelled? || a.RecordCompleted?)
    ensures Inv(WorkerNext(s, a))
  {
    hide Consistent, Finalise, FinalFor, Ticks, QueueOk, OutcomeOk, PlaceOk;
    var t := WorkerNext(s, a);
    var status := if a.RecordCancelled? then Cancelled else Completed;
    RecordFits(s, a);
    FinaliseKeeps(s.table, t.worker.id, status, t.worker.response);
    FinaliseEffect(s.table, t.worker.id, status, t.worker.response, t.worker.id);
    QueueKept(s, t);
    forall other ensures OutcomeOk(t, other) && PlaceOk(t, other) {
      RecordAt(s, a, other);
    }
  }

  lemma AnswerAt(s: State, other: Id)
    requires Inv(s) && WorkerEnabled(s, Answer)
    ensures var t := WorkerNext(s, Answer); OutcomeOk(t, other) && PlaceOk(t, other)
  {
    hide Consistent, QueueOk, TicksOk;
    assert OutcomeOk(s, s.worker.id) && PlaceOk(s, s.worker.id);
    assert OutcomeOk(s, other) && PlaceOk(s, other);
  }

  lemma AnswerKeeps(s: State)
    requires Inv(s) && WorkerEnabled(s, Answer)
    ensures Inv(WorkerNext(s, Answer))
  {
    hide Consistent, Finalise, FinalFor, Ticks, QueueOk, OutcomeOk, PlaceOk;
    var t := WorkerNext(s, Answer);
    QueueKept(s, t);
    forall other ensures OutcomeOk(t, other) && PlaceOk(t, other) {
      AnswerAt(s, other);
    }
  }

  lemma StepKeeps(s: State, a: Step)
    requires Inv(s) && Enabled(s, a)
    ensures Inv(Next(s, a))
  {
    hide Inv, ClientNext, TimerNext, WorkerNext;
    match a
    case Client(c) =>
      match c {
        case Register(id, command) => RegisterKeeps(s, id, command);
        case Enqueue(id) => EnqueueKeeps(s, id);
        case CancelCommand(id) => CancelKeeps(s, id);
        case Put(item) => PutKeeps(s, item);
      }
    case Timer(t) => TimerKeeps(s, t);
    case Work(w) =>
      match w {
        case Get => GetKeeps(s);
        case Start => StartKeeps(s);
        case RecordCancelled => RecordKeeps(s, w);
        case RecordCompleted => RecordKeeps(s, w);
        case Answer => AnswerKeeps(s);
        case _ => MoveKeeps(s, w);
      }
  }

  // ---------------------------------------------------------------------
  // Whole runs
  // ---------------------------------------------------------------------

  /** Outcomes, starts and responses are only ever added. */
  ghost predicate Extends(s: State, t: State) {
    && (forall id :: id in s.table.outcomes ==> id in t.table.outcomes && t.table.outcomes[id] == s.table.outcomes[id])
    && (forall id :: id in s.table.accepted ==> id in t.table.accepted)
    && s.started <= t.started
    && (forall id :: id in s.answers ==> id in t.answers && t.answers[id] == s.answers[id])
  }

  lemma ClientExtends(s: State, a: ClientStep)
    requires Inv(s) && ClientEnabled(s, a)
    ensures Extends(s, ClientNext(s, a))
  {
    hide Consistent, QueueOk, TicksOk, HandOk, PlaceOk, OutcomeOk, Finalise;
    match a
    case CancelCommand(id) => CancelExtends(s, id);
    case Register(_, _) =>
    case Enqueue(_) =>
    case Put(_) =>
  }

  lemma CancelExtends(s: State, id: Id)
    requires Inv(s)
    ensures Extends(s, ClientNext(s, CancelCommand(id)))
  {
    hide Consistent, QueueOk, TicksOk, HandOk, PlaceOk, Finalise;
    if Cancellable(s.table, id) {
      var response := CancelledResponse(id, s.table.records[id].command);
      CancelFits(s, id);
      FinaliseEffect(s.table, id, Cancelled, response, id);
    }
  }

  lemma CancelFits(s: State, id: Id)
    requires Inv(s) && Cancellable(s.table, id)
    ensures FinalFor(s.table, id, Cancelled, CancelledResponse(id, s.table.records[id].command)) && id !in s.table.outcomes
  {
    assert Recorded(s.table, id) && OutcomeOk(s, id);
  }

  lemma WorkerExtends(s: State, a: WorkerStep)
    requires Inv(s) && WorkerEnabled(s, a)
    ensures Extends(s, WorkerNext(s, a))
  {
    hide Consistent, Finalise, FinalFor, QueueOk, TicksOk, OutcomeOk;
    if a.RecordCancelled? || a.RecordCompleted? {
      var t := WorkerNext(s, a);
      RecordFits(s, a);
      FinaliseEffect(s.table, t.worker.id, if a.RecordCancelled? then Cancelled else Completed, t.worker.response, t.worker.id);
    } else if a.Answer? {
      assert PlaceOk(s, s.worker.id);
    }
  }

  lemma StepExtends(s: State, a: Step)
    requires Inv(s) && Enabled(s, a)
    ensures Extends(s, Next(s, a))
  {
    match a
    case Client(c) => ClientExtends(s, c);
    case Timer(t) =>
    case Work(w) => WorkerExtends(s, w);
  }

  lemma {:induction false} RunKeeps(s: State, run: seq<Step>, t: State)
    requires Inv(s) && Reaches(s, run, t)
    ensures Inv(t) && Extends(s, t)
    decreases |run|
  {
    if run != [] {
      StepKeeps(s, run[0]);
      StepExtends(s, run[0]);
      hide Inv, Next, Enabled;
      RunKeeps(Next(s, run[0]), run[1..], t);
    }
  }

  /** A cancellation that was acknowledged is final: the command has not run and never will. */
  lemma AcknowledgedNeverRuns(run: seq<Step>, s: State, id: Id, more: seq<Step>, t: State)
    requires Reaches(INITIAL, run, s) && Cancel(s.table, id).1.CancelledResponse?
    requires Reaches(Next(s, Client(CancelCommand(id))), more, t)
    ensures id !in s.started && id !in t.started
  {
    InitialInv();
    RunKeeps(INITIAL, run, s);
    var u := Next(s, Client(CancelCommand(id)));
    StepKeeps(s, Client(CancelCommand(id)));
    RunKeeps(u, more, t);
    assert OutcomeOk(s, id) && OutcomeOk(t, id) && Recorded(s.table, id);
    assert id in u.table.outcomes && u.table.outcomes[id].CancelledResponse?;
  }

  /** A command that was answered "cancelled" by the worker never runs either. */
  lemma CancelledAnswerNeverRuns(run: seq<Step>, s: State, id: Id, more: seq<Step>, t: State)
    requires Reaches(INITIAL, run, s) && Reaches(s, more, t)
    requires id in s.answers && exists r :: r in s.answers[id] && r.CancelledResponse?
    ensures id !in t.started
  {
    InitialInv();
    RunKeeps(INITIAL, run, s);
    RunKeeps(s, more, t);
    assert PlaceOk(s, id) && OutcomeOk(t, id);
  }

  /** A command that has started is never reported cancelled, by query or by cancel. */
  lemma RunningNeverCancelled(run: seq<Step>, s: State, id: Id)
    requires Reaches(INITIAL, run, s) && id in s.started
    ensures !Outcome(s.table, id).CancelledResponse? && !Cancel(s.table, id).1.CancelledResponse?
    ensures Next(s, Client(CancelCommand(id))) == s
  {
    InitialInv();
    RunKeeps(INITIAL, run, s);
    assert OutcomeOk(s, id) && Recorded(s.table, id);
  }

  /** A recorded final outcome never changes while it is retained. */
  lemma OutcomeNeverChanges(run: seq<Step>, s: State, more: seq<Step>, t: State, id: Id)
    requires Reaches(INITIAL, run, s) && Reaches(s, more, t)
    requires id in s.table.records && s.table.records[id].response.Some? && id in t.table.records
    ensures t.table.records[id].response == s.table.records[id].response
    ensures Outcome(t.table, id) == Outcome(s.table, id)
  {
    InitialInv();
    RunKeeps(INITIAL, run, s);
    RunKeeps(s, more, t);
    OutcomeStable(s.table, t.table, id);
  }

  /** In every reachable state the table holds the unfinished commands and the recent final ones. */
  lemma RetainedOutcomes(run: seq<Step>, s: State)
    requires Reaches(INITIAL, run, s)
    ensures s.table.finals == s.table.finalised[|s.table.finalised| - Min(512, |s.table.finalised|)..]
    ensures Distinct(s.table.finals)
    ensures s.table.records.Keys == Elements(s.table.finals) + Unfinished(s.table)
  {
    InitialInv();
    RunKeeps(INITIAL, run, s);
    Retention(s.table);
  }

  /**
   * Whenever the worker is between items or has stopped, each mutating command it has dequeued
   * has exactly one response, and that is what a query answers until eviction.
   */
  lemma OneResponseEach(run: seq<Step>, s: State, id: Id)
    requires Reaches(INITIAL, run, s) && (s.worker.Idle? || s.worker.Stopped?)
    requires id in s.stage && (s.stage[id] == Handling || s.stage[id] == Answered)
    ensures id in s.answers && id in s.table.outcomes && s.answers[id] == [s.table.outcomes[id]]
    ensures Outcome(s.table, id) == if id in Dropped(s.table) then NotFound(id) else s.answers[id][0]
  {
    InitialInv();
    RunKeeps(INITIAL, run, s);
    assert PlaceOk(s, id) && Recorded(s.table, id);
  }

  /** What a request that timed out may be told. */
  lemma TimedOutAnswer(run: seq<Step>, s: State, id: Id, more: seq<Step>, t: State)
    requires Reaches(INITIAL, run, s) && id in s.table.accepted
    requires Reaches(Next(s, Client(CancelCommand(id))), more, t)
    ensures match Cancel(s.table, id).1
            case CancelledResponse(_, command) => command == s.table.accepted[id] && id !in t.started
            case InProgress(_, _, _) => id in s.started && id !in s.table.outcomes
            case CompletedResponse(_, _, _) => id in s.started && id in s.table.outcomes
            case NotFound(_) => id in Dropped(s.table)
  {
    InitialInv();
    RunKeeps(INITIAL, run, s);
    assert OutcomeOk(s, id) && Recorded(s.table, id) && Finished(s.table, id);
    if Cancel(s.table, id).1.CancelledResponse? {
      AcknowledgedNeverRuns(run, s, id, more, t);
    }
  }

  /** The tick flag says exactly whether one tick is queued or executing; there are never two. */
  lemma TickFlagExact(run: seq<Step>, s: State)
    requires Reaches(INITIAL, run, s)
    ensures LiveTicks(s) <= 1
    ensures !s.submitting ==> (s.tickPending <==> LiveTicks(s) == 1)
    ensures s.submitting ==> s.tickPending && LiveTicks(s) == 0
  {
    InitialInv();
    RunKeeps(INITIAL, run, s);
  }
}
