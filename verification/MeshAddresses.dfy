/** Where automatic replies go: back to whoever sent the message they refer to, with the text
    the lane answered, whatever the model wrote about addresses. */
module MeshAddresses {
  import opened Prelude
  import opened TurnInbox
  import opened MeshReplies

  /** The turn is that message, word for word. */
  predicate IsTurnOf(t: Turn, m: Send) {
    t.from == m.from && t.content == m.content && t.inboundReplyTo == m.replyTo
  }

  ghost predicate TurnsOf(turns: Turns, messages: map<string, Send>) {
    forall id :: id in turns && turns[id].kind.Mesh? ==>
      turns[id].source in messages && IsTurnOf(turns[id], messages[turns[id].source])
  }

  /** The lane answered one of its turns with this text at that step. */
  ghost predicate AnsweredAt(steps: seq<MeshStep>, k: int, send: Send) {
    && 0 <= k < |steps| && steps[k].Answer? && steps[k].lane == send.from && steps[k].text == send.content
    && send.clientId == "runtime-" + steps[k].turn
  }

  ghost predicate WasAnswered(steps: seq<MeshStep>, send: Send) { exists k :: AnsweredAt(steps, k, send) }

  /** The reply refers to a message and goes to its sender. */
  ghost predicate GoesBack(messages: map<string, Send>, send: Send) {
    send.replyTo.Some? && send.replyTo.value in messages && send.to == messages[send.replyTo.value].from
  }

  ghost predicate RepliesOk(steps: seq<MeshStep>, messages: map<string, Send>, send: Send) {
    send.automatic ==> GoesBack(messages, send) && WasAnswered(steps, send)
  }

  ghost predicate Addressed(steps: seq<MeshStep>, mesh: Mesh) {
    && (forall lane :: lane in mesh.lanes ==> TurnsOf(mesh.lanes[lane].turns, mesh.hub.messages))
    && (forall send :: send in mesh.flight ==> RepliesOk(steps, mesh.hub.messages, send))
    && (forall id :: id in mesh.hub.messages ==> RepliesOk(steps, mesh.hub.messages, mesh.hub.messages[id]))
  }

  lemma AnsweredLater(before: seq<MeshStep>, step: MeshStep)
    ensures forall send :: WasAnswered(before, send) ==> WasAnswered(before + [step], send)
  {
    forall send | WasAnswered(before, send) ensures WasAnswered(before + [step], send) {
      var k :| AnsweredAt(before, k, send);
      assert AnsweredAt(before + [step], k, send);
    }
  }

  lemma ApplyTurnsOf(lane: Lane, step: Step, messages: map<string, Send>)
    requires TurnsOf(lane.turns, messages)
    requires step.Arrive? && step.arrival.kind.Mesh? ==>
      step.arrival.source in messages && step.arrival == Incoming(step.arrival.source, messages[step.arrival.source])
    ensures TurnsOf(Apply(lane, step).turns, messages)
  {
    var next := Apply(lane, step);
    LaterKept(lane, step);
    forall id | id in next.turns && id !in lane.turns ensures step.Arrive? && next.turns[id] == NewTurn(step.arrival, step.now) { }
  }

  lemma LaneAddressed(steps: seq<MeshStep>, mesh: Mesh, lane: string, step: Step, roots: set<(string, string)>)
    requires Addressed(steps, mesh) && lane in mesh.lanes
    requires step.Arrive? && step.arrival.kind.Mesh? ==>
      step.arrival.source in mesh.hub.messages && step.arrival == Incoming(step.arrival.source, mesh.hub.messages[step.arrival.source])
    ensures Addressed(steps, InLane(mesh, lane, step).(roots := roots))
  {
    ApplyTurnsOf(mesh.lanes[lane], step, mesh.hub.messages);
  }

  lemma AnswerAddressed(steps: seq<MeshStep>, mesh: Mesh, lane: string, turn: string, text: string)
    requires Addressed(steps, mesh) && MayAnswer(mesh, lane, turn) && Answer(lane, turn, text) in steps
    ensures Addressed(steps, Next(mesh, Answer(lane, turn, text)))
  {
    var send := AnswerTo(lane, turn, mesh.lanes[lane].turns[turn], text);
    var k :| 0 <= k < |steps| && steps[k] == Answer(lane, turn, text);
    assert TurnsOf(mesh.lanes[lane].turns, mesh.hub.messages);
    assert AnsweredAt(steps, k, send);
  }

  lemma AcceptAddressed(steps: seq<MeshStep>, mesh: Mesh, send: Send, newId: string)
    requires Addressed(steps, mesh) && send in mesh.flight
    ensures Addressed(steps, mesh.(hub := Accept(mesh.hub, send, newId)))
  {
    var next := Accept(mesh.hub, send, newId).messages;
    forall lane | lane in mesh.lanes ensures TurnsOf(mesh.lanes[lane].turns, next) {
      assert TurnsOf(mesh.lanes[lane].turns, mesh.hub.messages);
    }
    forall other | RepliesOk(steps, mesh.hub.messages, other) ensures RepliesOk(steps, next, other) { }
  }

  lemma StepAddressed(steps: seq<MeshStep>, mesh: Mesh, step: MeshStep)
    requires Addressed(steps, mesh) && step in steps
    ensures Addressed(steps, Next(mesh, step))
  {
    if Next(mesh, step) != mesh {
      match step
      case Inside(lane, s) => LaneAddressed(steps, mesh, lane, s, mesh.roots);
      case Deliver(lane, id, newId, now) =>
        LaneAddressed(steps, mesh, lane, Arrive(Incoming(id, mesh.hub.messages[id]), newId, now), Next(mesh, step).roots);
      case Answer(lane, turn, text) => AnswerAddressed(steps, mesh, lane, turn, text);
      case Post(_) =>
      case Receive(send, newId) => AcceptAddressed(steps, mesh, send, newId);
    }
  }

  lemma {:induction false} AlwaysAddressed(start: Mesh, steps: seq<MeshStep>)
    requires Initial(start)
    ensures Addressed(steps, RunMesh(start, steps))
  {
    if steps != [] {
      var before, step := steps[..|steps| - 1], steps[|steps| - 1];
      var mesh := RunMesh(start, before);
      AlwaysAddressed(start, before);
      AnsweredLater(before, step);
      assert steps == before + [step];
      assert Addressed(steps, mesh);
      StepAddressed(steps, mesh, step);
    }
  }

  /** In every run: an automatic reply at the Hub refers to a message that is there, goes to
      the sender of that message, and carries the text its lane answered. */
  lemma RepliesGoBack(start: Mesh, steps: seq<MeshStep>, id: string) returns (k: nat)
    requires Initial(start) && id in AutomaticReplies(RunMesh(start, steps).hub)
    ensures var messages := RunMesh(start, steps).hub.messages; var reply := messages[id];
      && reply.replyTo.Some? && reply.replyTo.value in messages && reply.to == messages[reply.replyTo.value].from
      && k < |steps| && steps[k].Answer? && steps[k].lane == reply.from && steps[k].text == reply.content
  {
    AlwaysAddressed(start, steps);
    var messages := RunMesh(start, steps).hub.messages;
    assert RepliesOk(steps, messages, messages[id]);
    k :| AnsweredAt(steps, k, messages[id]);
  }

  /** In every run: a turn that came from the mesh is a message of the Hub, from its sender,
      with its text and its reply reference. */
  lemma TurnsAreMessages(start: Mesh, steps: seq<MeshStep>, lane: string, turn: string)
    requires Initial(start) && lane in RunMesh(start, steps).lanes
    requires turn in RunMesh(start, steps).lanes[lane].turns && RunMesh(start, steps).lanes[lane].turns[turn].kind.Mesh?
    ensures var mesh := RunMesh(start, steps); var t := mesh.lanes[lane].turns[turn];
      && t.source in mesh.hub.messages && t.from == mesh.hub.messages[t.source].from
      && t.content == mesh.hub.messages[t.source].content && t.inboundReplyTo == mesh.hub.messages[t.source].replyTo
  {
    AlwaysAddressed(start, steps);
    assert TurnsOf(RunMesh(start, steps).lanes[lane].turns, RunMesh(start, steps).hub.messages);
  }
}
