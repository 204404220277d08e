/** What a turn says, told by the history of its lane: what arrived, and how it ended. */
module TurnHistory {
  import opened Prelude
  import opened TurnInbox

  // ---- what arrived ----

  /** The turn came in at this step, as it is. */
  ghost predicate ArrivedAt(steps: seq<Step>, k: int, id: string, t: Turn) {
    && 0 <= k < |steps| && steps[k].Arrive? && steps[k].newId == id
    && t.kind == steps[k].arrival.kind && t.source == steps[k].arrival.source && t.content == steps[k].arrival.content
    && t.from == steps[k].arrival.from && t.inboundReplyTo == steps[k].arrival.inboundReplyTo && t.createdAt == steps[k].now
  }

  lemma NewTurnStarts(lane: Lane, step: Step, id: string)
    requires id in Apply(lane, step).turns && id !in lane.turns
    ensures step.Arrive? && step.newId == id && !HasSource(lane.turns, step.arrival.source)
    ensures IsFresh(Apply(lane, step).turns[id], step.arrival, step.now)
  {
  }

  /** In every run: a turn has kind, source, text, sender and reply reference of the message
      that arrived for it, and the time of that arrival. */
  lemma {:induction false} TurnIsWhatArrived(steps: seq<Step>, id: string) returns (k: nat)
    requires id in Run(steps).turns
    ensures ArrivedAt(steps, k, id, Run(steps).turns[id])
  {
    var before, step := steps[..|steps| - 1], steps[|steps| - 1];
    if id in Run(before).turns {
      k := TurnIsWhatArrived(before, id);
      LaterKept(Run(before), step);
    } else {
      NewTurnStarts(Run(before), step, id);
      k := |before|;
    }
  }

  // ---- how it ended ----

  /** The step ends the turn: the worker does, with this turn in hand, or another writer. */
  predicate Ends(lane: Lane, step: Step, id: string) {
    || ((step.WorkerCompletes? || step.WorkerFails?) && lane.current == Some(id))
    || ((step.CompleteTurn? || step.FailTurn?) && step.id == id)
  }

  /** The turn is as that step left it. */
  predicate EndedBy(t: Turn, step: Step) {
    match step
    case WorkerCompletes(response, conversation, _) =>
      t.state == COMPLETED && t.response == Some(response) && t.conversation == Some(conversation) && t.errorCode.None?
    case CompleteTurn(_, response, _) => t.state == COMPLETED && t.response == Some(response) && t.errorCode.None?
    case WorkerFails(code, _) => t.state == FAILED && t.errorCode == Some(code) && t.response.None?
    case FailTurn(_, code, _) => t.state == FAILED && t.errorCode == Some(code) && t.response.None?
    case _ => false
  }

  ghost predicate EndsAt(steps: seq<Step>, k: int, id: string) { 0 <= k < |steps| && Ends(Run(steps[..k]), steps[k], id) }

  ghost predicate LastEnd(steps: seq<Step>, k: int, id: string) {
    EndsAt(steps, k, id) && forall j :: k < j < |steps| ==> !EndsAt(steps, j, id)
  }

  lemma EndingStep(lane: Lane, step: Step, id: string)
    requires id in Apply(lane, step).turns
    ensures Ends(lane, step, id) ==> EndedBy(Apply(lane, step).turns[id], step)
    ensures !Ends(lane, step, id) && (Apply(lane, step).turns[id].state == COMPLETED || Apply(lane, step).turns[id].state == FAILED) ==>
      id in lane.turns && Apply(lane, step).turns[id] == lane.turns[id]
  {
  }

  lemma EndsBefore(steps: seq<Step>, k: nat, id: string)
    requires k < |steps| - 1
    ensures EndsAt(steps, k, id) <==> EndsAt(steps[..|steps| - 1], k, id)
  {
    assert steps[..|steps| - 1][..k] == steps[..k];
  }

  /** In every run: a completed turn has the response, and a failed one the error code, of
      the last step that ended it. */
  lemma {:induction false} EndIsTheLastOne(steps: seq<Step>, id: string) returns (k: nat)
    requires id in Run(steps).turns && (Run(steps).turns[id].state == COMPLETED || Run(steps).turns[id].state == FAILED)
    ensures LastEnd(steps, k, id) && EndedBy(Run(steps).turns[id], steps[k])
  {
    var before, step := steps[..|steps| - 1], steps[|steps| - 1];
    EndingStep(Run(before), step, id);
    if Ends(Run(before), step, id) {
      k := |before|;
    } else {
      k := EndIsTheLastOne(before, id);
      forall j: nat | j < |before| ensures EndsAt(steps, j, id) <==> EndsAt(before, j, id) { EndsBefore(steps, j, id); }
    }
  }
}
