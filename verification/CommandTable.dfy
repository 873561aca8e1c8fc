/**
 * The runtime worker's table of mutating commands. Unfinished commands are
 * always in it; of the finished ones only the most recent are retained.
 */
module CommandTable {
  import opened Common

  type Id = string

  const RETAINED := 512

  datatype Status = Queued | Running | Cancelled | Completed

  datatype Response =
    | CancelledResponse(id: Id, command: string)
    | CompletedResponse(id: Id, command: string, result: string)
    | InProgress(id: Id, command: string, status: Status)
    | NotFound(id: Id)

  datatype Record = Record(command: string, status: Status, response: Option<Response>)

  /**
   * `records` and `finals` are the worker's own fields. The rest is history:
   * every command accepted, and every command finalised, in order, with its outcome.
   */
  datatype Table = Table(
    records: map<Id, Record>,
    finals: seq<Id>,
    accepted: map<Id, string>,
    finalised: seq<Id>,
    outcomes: map<Id, Response>)

  const EMPTY := Table(map[], [], map[], [], map[])

  /** Drop the oldest final commands until at most RETAINED are left. */
  function Evict(records: map<Id, Record>, finals: seq<Id>): (map<Id, Record>, seq<Id>)
    decreases |finals|
  {
    if |finals| <= RETAINED then (records, finals)
    else
      var expired := finals[0];
      Evict(if expired in records && records[expired].response.Some? then records - {expired} else records, finals[1..])
  }

  function Accept(t: Table, id: Id, command: string): Table {
    if id in t.records then t
    else t.(records := t.records[id := Record(command, Queued, None)], accepted := t.accepted[id := command])
  }

  function MarkRunning(t: Table, id: Id): Table
    requires id in t.records
  {
    t.(records := t.records[id := t.records[id].(status := Running)])
  }

  /** A first final response is recorded; a later one never replaces it. */
  function Finalise(t: Table, id: Id, status: Status, response: Response): Table {
    if id !in t.records || t.records[id].response.Some? then t
    else
      var (records, finals) := Evict(t.records[id := Record(t.records[id].command, status, Some(response))], t.finals + [id]);
      Table(records, finals, t.accepted, t.finalised + [id], t.outcomes[id := response])
  }

  function Outcome(t: Table, id: Id): Response {
    if id !in t.records then NotFound(id)
    else if t.records[id].response.Some? then t.records[id].response.value
    else InProgress(id, t.records[id].command, t.records[id].status)
  }

  function Cancel(t: Table, id: Id): (Table, Response) {
    if id !in t.records then (t, NotFound(id))
    else
      var record := t.records[id];
      if record.response.Some? then (t, record.response.value)
      else if record.status == Queued then
        var response := CancelledResponse(id, record.command);
        (Finalise(t, id, Cancelled, response), response)
      else (t, InProgress(id, record.command, Running))
  }

  // ---------------------------------------------------------------------
  // What the table always satisfies
  // ---------------------------------------------------------------------

  /** The finalised commands that are no longer retained. */
  function Dropped(t: Table): seq<Id> {
    t.finalised[..if |t.finalised| <= RETAINED then 0 else |t.finalised| - RETAINED]
  }

  /** The most recent finalised commands, at most RETAINED of them. */
  function Recent(t: Table): seq<Id> {
    t.finalised[if |t.finalised| <= RETAINED then 0 else |t.finalised| - RETAINED..]
  }

  predicate Recorded(t: Table, id: Id) {
    id in t.records ==>
      && id in t.accepted
      && t.records[id].command == t.accepted[id]
      && (t.records[id].response.None? ==> id !in t.outcomes && t.records[id].status in {Queued, Running})
      && (t.records[id].response.Some? ==>
            && id in t.outcomes
            && t.outcomes[id] == t.records[id].response.value
            && t.records[id].status == if t.outcomes[id].CancelledResponse? then Cancelled else Completed)
  }

  predicate Finished(t: Table, id: Id) {
    id in t.outcomes ==>
      && id in t.accepted
      && (t.outcomes[id] == CancelledResponse(id, t.accepted[id]) ||
          (t.outcomes[id].CompletedResponse? && t.outcomes[id].id == id && t.outcomes[id].command == t.accepted[id]))
  }

  ghost predicate Consistent(t: Table) {
    && Distinct(t.finalised)
    && t.finals == Recent(t)
    && (forall id :: id in t.finalised <==> id in t.outcomes)
    && (forall id :: id in t.records <==> id in t.accepted && id !in Dropped(t))
    && (forall id :: Recorded(t, id))
    && (forall id :: Finished(t, id))
  }

  /** Commands accepted and not yet finalised. */
  function Unfinished(t: Table): set<Id> {
    set id | id in t.accepted && id !in t.outcomes
  }

  /**
   * The retained outcomes are the most recent finalised commands, in order and
   * without duplicates; the records are exactly those and the unfinished ones.
   */
  lemma Retention(t: Table)
    requires Consistent(t)
    ensures t.finals == t.finalised[|t.finalised| - Min(512, |t.finalised|)..]
    ensures Distinct(t.finals)
    ensures t.records.Keys == Elements(t.finals) + Unfinished(t)
    ensures forall id :: id in t.finals ==> Outcome(t, id) == t.outcomes[id]
    ensures forall id :: id in Unfinished(t) ==> Outcome(t, id).InProgress?
  {
    forall id ensures id in t.records <==> id in t.finals || id in Unfinished(t) {
      SplitAt(t, id);
      assert Recorded(t, id) && Finished(t, id);
    }
    forall id | id in t.records
      ensures id in t.finals ==> Outcome(t, id) == t.outcomes[id]
      ensures id in Unfinished(t) ==> Outcome(t, id).InProgress?
    {
      assert Recorded(t, id);
      SplitAt(t, id);
    }
  }

  /** A finalised command is either dropped or recent, not both. */
  lemma SplitAt(t: Table, id: Id)
    requires Distinct(t.finalised)
    ensures id in t.finalised <==> id in Dropped(t) || id in Recent(t)
    ensures !(id in Dropped(t) && id in Recent(t))
  {
    assert t.finalised == Dropped(t) + Recent(t);
  }

  lemma AcceptKeeps(t: Table, id: Id, command: string)
    requires Consistent(t) && (id in t.records || id !in t.accepted)
    ensures Consistent(Accept(t, id, command))
  {
    var u := Accept(t, id, command);
    assert Finished(t, id);
    forall other ensures Recorded(u, other) && Finished(u, other) {
      assert Recorded(t, other) && Finished(t, other);
    }
    assert Dropped(u) == Dropped(t) && Recent(u) == Recent(t);
  }

  lemma MarkRunningKeeps(t: Table, id: Id)
    requires Consistent(t) && id in t.records && t.records[id].response.None?
    ensures Consistent(MarkRunning(t, id))
  {
    var u := MarkRunning(t, id);
    forall other ensures Recorded(u, other) && Finished(u, other) {
      assert Recorded(t, other) && Finished(t, other);
    }
    assert Dropped(u) == Dropped(t) && Recent(u) == Recent(t);
  }

  ghost predicate FinalFor(t: Table, id: Id, status: Status, response: Response) {
    && id in t.accepted
    && ((status == Cancelled && response == CancelledResponse(id, t.accepted[id])) ||
        (status == Completed && response.CompletedResponse? && response.id == id && response.command == t.accepted[id]))
  }

  /** One more final command evicts at most one, the oldest. */
  lemma EvictOne(records: map<Id, Record>, finals: seq<Id>)
    requires |finals| == RETAINED + 1
    requires finals[0] in records && records[finals[0]].response.Some?
    ensures Evict(records, finals) == (records - {finals[0]}, finals[1..])
  {
  }

  /** What recording one more outcome does to the two fields and the history. */
  lemma Appended(t: Table, id: Id, status: Status, response: Response)
    requires Consistent(t) && id in t.records && t.records[id].response.None?
    ensures var u := Finalise(t, id, status, response);
            && u.accepted == t.accepted && u.finalised == t.finalised + [id] && u.outcomes == t.outcomes[id := response]
            && u.finals == Recent(u)
            && (forall other :: other in u.records <==> other in t.records && other !in Dropped(u))
            && (forall other :: other in u.records && other in t.records ==>
                  u.records[other] == if other == id then Record(t.records[id].command, status, Some(response)) else t.records[other])
  {
    assert Recorded(t, id);
    var u := Finalise(t, id, status, response);
    var records := t.records[id := Record(t.records[id].command, status, Some(response))];
    if |t.finalised| >= RETAINED {
      var oldest := t.finals[0];
      assert oldest == t.finalised[|t.finalised| - RETAINED];
      assert oldest in t.finalised;
      SplitAt(t, oldest);
      assert oldest != id;
      assert Recorded(t, oldest) && Finished(t, oldest);
      assert (t.finals + [id])[0] == oldest;
      EvictOne(records, t.finals + [id]);
      assert Dropped(u) == Dropped(t) + [oldest];
    } else {
      assert Dropped(u) == Dropped(t) == [];
    }
  }

  lemma DroppedGrows(t: Table, u: Table, id: Id)
    requires u.finalised == t.finalised + [id]
    ensures forall other :: other in Dropped(t) ==> other in Dropped(u)
    ensures id !in t.finalised ==> id !in Dropped(u)
  {
    assert Dropped(t) <= Dropped(u);
    assert forall k :: 0 <= k < |Dropped(u)| ==> Dropped(u)[k] == t.finalised[k];
  }

  lemma FinaliseKeepsId(t: Table, id: Id, status: Status, response: Response, other: Id)
    requires Consistent(t) && FinalFor(t, id, status, response)
    requires id in t.records && t.records[id].response.None?
    ensures var u := Finalise(t, id, status, response);
            && Recorded(u, other) && Finished(u, other)
            && (other in u.records <==> other in u.accepted && other !in Dropped(u))
            && (other in u.finalised <==> other in u.outcomes)
  {
    var u := Finalise(t, id, status, response);
    Appended(t, id, status, response);
    DroppedGrows(t, u, id);
    assert Recorded(t, id) && Recorded(t, other) && Finished(t, other);
    hide Finalise, Evict, Dropped, Recent, Distinct;
  }

  lemma FinaliseKeeps(t: Table, id: Id, status: Status, response: Response)
    requires Consistent(t) && FinalFor(t, id, status, response)
    ensures Consistent(Finalise(t, id, status, response))
  {
    if id in t.records && t.records[id].response.None? {
      var u := Finalise(t, id, status, response);
      assert Recorded(t, id);
      Appended(t, id, status, response);
      hide Finalise, Evict, Dropped, Recent, Recorded, Finished;
      forall other
        ensures Recorded(u, other) && Finished(u, other)
        ensures other in u.records <==> other in u.accepted && other !in Dropped(u)
        ensures other in u.finalised <==> other in u.outcomes
      {
        FinaliseKeepsId(t, id, status, response, other);
      }
    } else {
      assert Finalise(t, id, status, response) == t;
    }
  }

  /** A recorded final outcome does not change while it is retained. */
  lemma OutcomeStable(t: Table, u: Table, id: Id)
    requires Consistent(t) && Consistent(u)
    requires forall other :: other in t.outcomes ==> other in u.outcomes && u.outcomes[other] == t.outcomes[other]
    requires id in t.records && t.records[id].response.Some? && id in u.records
    ensures u.records[id].response == t.records[id].response && u.records[id].status == t.records[id].status
    ensures Outcome(u, id) == Outcome(t, id)
  {
    assert Recorded(t, id) && Recorded(u, id);
  }
}
