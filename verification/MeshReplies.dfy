/** Many lanes answering each other through one Hub: why automatic replies cannot loop.
    Requests may be lost, delayed or repeated, messages redelivered, lanes restarted. */
module MeshReplies {
  import opened Prelude
  import opened TurnInbox

  /** A `mesh.send`; `automatic` marks those sent for a turn rather than by a person. */
  datatype Send = Send(from: string, to: string, content: string, replyTo: Option<string>, clientId: string, automatic: bool)

  /** Messages by id, and the one accepted for each sender's client message id. */
  datatype Hub = Hub(messages: map<string, Send>, byClient: map<(string, string), string>)

  /** `flight`: sends on their way, each to arrive any number of times. `roots`: which
      lane was given which message without a reply reference. */
  datatype Mesh = Mesh(hub: Hub, lanes: map<string, Lane>, flight: set<Send>, roots: set<(string, string)>)

  datatype MeshStep =
    | Inside(lane: string, step: Step)
    | Deliver(lane: string, message: string, newId: string, now: int)
    | Answer(lane: string, turn: string, text: string)
    | Post(send: Send)
    | Receive(send: Send, newId: string)

  function ClientIdOf(turn: string): string { "runtime-" + turn }

  function Incoming(id: string, m: Send): Arrival { FromMesh(MeshMessage(id, m.from, m.content, m.replyTo)) }

  ghost predicate WasHanded(lane: Lane, turn: string) {
    exists i :: 0 <= i < |lane.log| && lane.log[i].Handed? && lane.log[i].id == turn
  }

  /** A lane answers a turn it was handed, at any later time and any number of times; the
      address comes from the turn, whatever the model wrote. */
  ghost predicate MayAnswer(mesh: Mesh, lane: string, turn: string) {
    && lane in mesh.lanes && turn in mesh.lanes[lane].turns
    && mesh.lanes[lane].turns[turn].kind.Mesh? && WasHanded(mesh.lanes[lane], turn)
  }

  function AnswerTo(lane: string, turn: string, t: Turn, text: string): Send {
    Send(lane, t.from, text, Some(t.source), ClientIdOf(turn), true)
  }

  function Accept(hub: Hub, send: Send, newId: string): Hub {
    if (send.from, send.clientId) in hub.byClient || newId in hub.messages then hub
    else Hub(hub.messages[newId := send], hub.byClient[(send.from, send.clientId) := newId])
  }

  function InLane(mesh: Mesh, lane: string, step: Step): Mesh
    requires lane in mesh.lanes
  {
    mesh.(lanes := mesh.lanes[lane := Apply(mesh.lanes[lane], step)])
  }

  ghost function Next(mesh: Mesh, step: MeshStep): Mesh {
    match step
    case Inside(lane, s) =>
      if lane !in mesh.lanes || (s.Arrive? && s.arrival.kind.Mesh?) then mesh else InLane(mesh, lane, s)
    case Deliver(lane, id, newId, now) =>
      if lane !in mesh.lanes || id !in mesh.hub.messages then mesh
      else
        var m := mesh.hub.messages[id];
        InLane(mesh, lane, Arrive(Incoming(id, m), newId, now)).(
          roots := if m.replyTo.None? then mesh.roots + {(lane, id)} else mesh.roots)
    case Answer(lane, turn, text) =>
      if !MayAnswer(mesh, lane, turn) then mesh
      else mesh.(flight := mesh.flight + {AnswerTo(lane, turn, mesh.lanes[lane].turns[turn], text)})
    case Post(send) => if send.automatic then mesh else mesh.(flight := mesh.flight + {send})
    case Receive(send, newId) =>
      if send !in mesh.flight then mesh else mesh.(hub := Accept(mesh.hub, send, newId))
  }

  ghost predicate Initial(mesh: Mesh) {
    && mesh.hub == Hub(map[], map[]) && mesh.flight == {} && mesh.roots == {}
    && forall lane :: lane in mesh.lanes ==> mesh.lanes[lane] == Fresh
  }

  ghost function RunMesh(start: Mesh, steps: seq<MeshStep>): Mesh {
    if steps == [] then start else Next(RunMesh(start, steps[..|steps| - 1]), steps[|steps| - 1])
  }

  // ---- inside one lane ----

  /** Only answerable turns are ever handed out. */
  ghost predicate HandedAnswerable(lane: Lane) {
    forall i :: 0 <= i < |lane.log| && lane.log[i].Handed? ==>
      lane.log[i].id in lane.turns && Answerable(lane.turns[lane.log[i].id])
  }

  /** Every mesh turn without a reply reference comes from a root this lane was given. */
  ghost predicate FromRoots(name: string, lane: Lane, roots: set<(string, string)>) {
    forall id :: id in lane.turns && lane.turns[id].kind.Mesh? && Answerable(lane.turns[id]) ==> (name, lane.turns[id].source) in roots
  }

  ghost predicate LaneGood(name: string, lane: Lane, roots: set<(string, string)>) {
    OneTurnPerSource(lane.turns) && ObservedStayOut(lane.turns) && HandedAnswerable(lane) && FromRoots(name, lane, roots)
  }

  ghost predicate SameTurn(a: Turn, b: Turn) {
    a.kind == b.kind && a.source == b.source && a.inboundReplyTo == b.inboundReplyTo && a.from == b.from
  }

  ghost predicate TurnsStay(a: Turns, b: Turns) {
    forall id :: id in a ==> id in b && SameTurn(a[id], b[id])
  }

  lemma ApplyStays(lane: Lane, step: Step)
    ensures TurnsStay(lane.turns, Apply(lane, step).turns)
  {
  }

  lemma ApplyHands(lane: Lane, step: Step)
    requires ObservedStayOut(lane.turns) && HandedAnswerable(lane)
    ensures HandedAnswerable(Apply(lane, step))
  {
    ApplyStays(lane, step);
    var next := Apply(lane, step);
    forall i | 0 <= i < |next.log| && next.log[i].Handed?
      ensures next.log[i].id in next.turns && Answerable(next.turns[next.log[i].id])
    {
      if i < |lane.log| { assert next.log[i] == lane.log[i]; }
    }
  }

  lemma ApplyRoots(name: string, lane: Lane, step: Step, roots: set<(string, string)>)
    requires FromRoots(name, lane, roots)
    requires step.Arrive? && step.arrival.kind.Mesh? && step.arrival.inboundReplyTo.None? ==> (name, step.arrival.source) in roots
    ensures FromRoots(name, Apply(lane, step), roots)
  {
    var next := Apply(lane, step);
    forall id | id in next.turns ensures (id in lane.turns && SameTurn(lane.turns[id], next.turns[id]))
      || (step.Arrive? && next.turns[id] == NewTurn(step.arrival, step.now))
    {
    }
  }

  lemma LaneStaysGood(name: string, lane: Lane, step: Step, roots: set<(string, string)>)
    requires LaneGood(name, lane, roots)
    requires step.Arrive? && step.arrival.kind.Mesh? && step.arrival.inboundReplyTo.None? ==> (name, step.arrival.source) in roots
    ensures LaneGood(name, Apply(lane, step), roots)
  {
    SourcesKept(lane, step);
    ObservedKept(lane, step);
    ApplyHands(lane, step);
    ApplyRoots(name, lane, step, roots);
  }

  // ---- across the mesh ----

  /** An automatic send answers a turn of its lane that came from a root. */
  ghost predicate Answers(mesh: Mesh, send: Send, turn: string) {
    && send.clientId == ClientIdOf(turn) && send.from in mesh.lanes && turn in mesh.lanes[send.from].turns
    && var t := mesh.lanes[send.from].turns[turn];
       t.kind.Mesh? && Answerable(t) && send.replyTo == Some(t.source)
  }

  ghost predicate Backed(mesh: Mesh, send: Send) { exists turn :: Answers(mesh, send, turn) }

  ghost predicate LanesGood(mesh: Mesh) {
    forall lane :: lane in mesh.lanes ==> LaneGood(lane, mesh.lanes[lane], mesh.roots)
  }

  ghost predicate SendsBacked(mesh: Mesh) {
    && (forall send :: send in mesh.flight && send.automatic ==> Backed(mesh, send))
    && (forall id :: id in mesh.hub.messages && mesh.hub.messages[id].automatic ==> Backed(mesh, mesh.hub.messages[id]))
  }

  ghost predicate HubKeyed(hub: Hub) {
    forall id :: id in hub.messages ==>
      var key := (hub.messages[id].from, hub.messages[id].clientId);
      key in hub.byClient && hub.byClient[key] == id
  }

  ghost predicate RootsAreRoots(mesh: Mesh) {
    forall pair :: pair in mesh.roots ==> pair.1 in mesh.hub.messages && mesh.hub.messages[pair.1].replyTo.None?
  }

  ghost predicate Sound(mesh: Mesh) { LanesGood(mesh) && SendsBacked(mesh) && HubKeyed(mesh.hub) && RootsAreRoots(mesh) }

  lemma BackedStays(mesh: Mesh, next: Mesh)
    requires mesh.lanes.Keys <= next.lanes.Keys
    requires forall lane :: lane in mesh.lanes ==> TurnsStay(mesh.lanes[lane].turns, next.lanes[lane].turns)
    ensures forall send :: Backed(mesh, send) ==> Backed(next, send)
  {
    forall send | Backed(mesh, send) ensures Backed(next, send) {
      var turn :| Answers(mesh, send, turn);
      assert Answers(next, send, turn);
    }
  }

  lemma InsideIsSound(mesh: Mesh, lane: string, step: Step, roots: set<(string, string)>)
    requires Sound(mesh) && lane in mesh.lanes && mesh.roots <= roots
    requires step.Arrive? && step.arrival.kind.Mesh? && step.arrival.inboundReplyTo.None? ==> (lane, step.arrival.source) in roots
    requires forall pair :: pair in roots ==> pair.1 in mesh.hub.messages && mesh.hub.messages[pair.1].replyTo.None?
    ensures Sound(InLane(mesh, lane, step).(roots := roots))
  {
    var next := InLane(mesh, lane, step).(roots := roots);
    LaneStaysGood(lane, mesh.lanes[lane], step, roots);
    ApplyStays(mesh.lanes[lane], step);
    forall other | other in mesh.lanes ensures LaneGood(other, next.lanes[other], roots) {
      if other != lane { assert LaneGood(other, mesh.lanes[other], mesh.roots); }
    }
    BackedStays(mesh, next);
  }

  lemma AnswerIsBacked(mesh: Mesh, lane: string, turn: string, text: string)
    requires LanesGood(mesh) && MayAnswer(mesh, lane, turn)
    ensures Backed(mesh, AnswerTo(lane, turn, mesh.lanes[lane].turns[turn], text))
  {
    assert LaneGood(lane, mesh.lanes[lane], mesh.roots);
    assert Answers(mesh, AnswerTo(lane, turn, mesh.lanes[lane].turns[turn], text), turn);
  }

  lemma StepIsSound(mesh: Mesh, step: MeshStep)
    requires Sound(mesh)
    ensures Sound(Next(mesh, step))
  {
    var next := Next(mesh, step);
    if next != mesh {
      match step
      case Inside(lane, s) => InsideIsSound(mesh, lane, s, mesh.roots);
      case Deliver(lane, id, newId, now) =>
        InsideIsSound(mesh, lane, Arrive(Incoming(id, mesh.hub.messages[id]), newId, now), next.roots);
      case Answer(lane, turn, text) =>
        AnswerIsBacked(mesh, lane, turn, text);
        BackedStays(mesh, next);
      case Post(send) => BackedStays(mesh, next);
      case Receive(send, newId) => BackedStays(mesh, next);
    }
  }

  lemma {:induction false} AlwaysSound(start: Mesh, steps: seq<MeshStep>)
    requires Initial(start)
    ensures Sound(RunMesh(start, steps))
  {
    if steps != [] {
      AlwaysSound(start, steps[..|steps| - 1]);
      StepIsSound(RunMesh(start, steps[..|steps| - 1]), steps[|steps| - 1]);
    }
  }

  // ---- no reply loop ----

  ghost function AutomaticReplies(hub: Hub): set<string> { set id | id in hub.messages && hub.messages[id].automatic }

  /** What an automatic reply answers: its lane, and the message it refers to. */
  ghost function Occasion(hub: Hub, id: string): (string, string)
    requires id in hub.messages
  {
    (hub.messages[id].from, if hub.messages[id].replyTo.Some? then hub.messages[id].replyTo.value else "")
  }

  lemma OneReplyEach(mesh: Mesh, a: string, b: string)
    requires Sound(mesh) && a in AutomaticReplies(mesh.hub) && b in AutomaticReplies(mesh.hub)
    requires Occasion(mesh.hub, a) == Occasion(mesh.hub, b)
    ensures a == b
  {
    var x, y := mesh.hub.messages[a], mesh.hub.messages[b];
    var s, t :| Answers(mesh, x, s) && Answers(mesh, y, t);
    assert LaneGood(x.from, mesh.lanes[x.from], mesh.roots);
    assert s == t;
  }

  lemma OccasionIsRoot(mesh: Mesh, a: string)
    requires Sound(mesh) && a in AutomaticReplies(mesh.hub)
    ensures mesh.hub.messages[a].replyTo.Some? && Occasion(mesh.hub, a) in mesh.roots
  {
    var x := mesh.hub.messages[a];
    var t :| Answers(mesh, x, t);
    assert LaneGood(x.from, mesh.lanes[x.from], mesh.roots);
  }

  lemma {:induction false} ImageSize(hub: Hub, ids: set<string>, roots: set<(string, string)>)
    requires forall id :: id in ids ==> id in hub.messages && Occasion(hub, id) in roots
    requires forall a, b :: a in ids && b in ids && Occasion(hub, a) == Occasion(hub, b) ==> a == b
    ensures |ids| <= |roots|
    decreases ids
  {
    if ids != {} {
      var id :| id in ids;
      ImageSize(hub, ids - {id}, roots - {Occasion(hub, id)});
    }
  }

  /** In every run, whatever is lost, repeated or restarted: an automatic reply always
      refers to a message, that message is itself no reply, each lane answers it at most
      once, and so there are never more automatic replies than deliveries of messages
      that are not replies. */
  lemma NoReplyLoop(start: Mesh, steps: seq<MeshStep>)
    requires Initial(start)
    ensures var mesh := RunMesh(start, steps); var autos := AutomaticReplies(mesh.hub);
      && (forall a :: a in autos ==> mesh.hub.messages[a].replyTo.Some? && Occasion(mesh.hub, a) in mesh.roots)
      && (forall a, b :: a in autos && b in autos && Occasion(mesh.hub, a) == Occasion(mesh.hub, b) ==> a == b)
      && RootsAreRoots(mesh) && |autos| <= |mesh.roots|
  {
    AlwaysSound(start, steps);
    var mesh := RunMesh(start, steps);
    var autos := AutomaticReplies(mesh.hub);
    forall a | a in autos ensures mesh.hub.messages[a].replyTo.Some? && Occasion(mesh.hub, a) in mesh.roots {
      OccasionIsRoot(mesh, a);
    }
    forall a, b | a in autos && b in autos && Occasion(mesh.hub, a) == Occasion(mesh.hub, b) ensures a == b {
      OneReplyEach(mesh, a, b);
    }
    ImageSize(mesh.hub, autos, mesh.roots);
  }

  /** Nothing automatic is ever sent in answer to something automatic. */
  lemma NoAnswerToAnAnswer(start: Mesh, steps: seq<MeshStep>, a: string, b: string)
    requires Initial(start)
    requires var hub := RunMesh(start, steps).hub; a in AutomaticReplies(hub) && b in AutomaticReplies(hub)
    ensures RunMesh(start, steps).hub.messages[b].replyTo != Some(a)
  {
    NoReplyLoop(start, steps);
    var mesh := RunMesh(start, steps);
    assert Occasion(mesh.hub, b) in mesh.roots;
    assert mesh.hub.messages[a].replyTo.Some?;
  }
}
