/** The inbox of turns a lane's runtime works through: who gets a turn, how often, in what
    order, and what a restart gives back. */
module TurnInbox {
  import opened Prelude

  datatype Kind = Channel | Mesh

  datatype TurnState = PENDING | OBSERVED | RUNNING | COMPLETED | FAILED | CANCELLED

  /** `inboundReplyTo` is the reply reference of the mesh message the turn came from. */
  datatype Turn = Turn(
    kind: Kind, source: string, content: string, from: string, inboundReplyTo: Option<string>,
    state: TurnState, response: Option<string>, conversation: Option<string>, errorCode: Option<string>,
    createdAt: int, updatedAt: int)

  type Turns = map<string, Turn>

  // ---- what arrives ----

  datatype MeshMessage = MeshMessage(id: string, from: string, content: string, replyTo: Option<string>)

  datatype ChannelEvent = ChannelEvent(eventId: string, driver: Option<string>, providerMessageId: Option<string>, text: string)

  datatype Arrival = Arrival(kind: Kind, source: string, content: string, from: string, inboundReplyTo: Option<string>)

  function FromMesh(m: MeshMessage): Arrival { Arrival(Mesh, m.id, m.content, m.from, m.replyTo) }

  function FromChannel(e: ChannelEvent): Arrival {
    var source := if e.providerMessageId.Some?
                  then (if e.driver.Some? then e.driver.value else "channel") + ":" + e.providerMessageId.value
                  else e.eventId;
    Arrival(Channel, source, e.text, "", None)
  }

  /** Only an answer to an answer is merely observed. */
  predicate Answerable(t: Turn) { t.kind.Channel? || t.inboundReplyTo.None? }

  function NewTurn(a: Arrival, now: int): Turn {
    var first := if a.kind.Channel? || a.inboundReplyTo.None? then PENDING else OBSERVED;
    Turn(a.kind, a.source, a.content, a.from, a.inboundReplyTo, first, None, None, None, now, now)
  }

  /** A turn as it comes in: what arrived, not answered yet. */
  predicate IsFresh(t: Turn, a: Arrival, now: int) {
    && t.kind == a.kind && t.source == a.source && t.content == a.content && t.from == a.from
    && t.inboundReplyTo == a.inboundReplyTo && t.createdAt == now && t.response.None? && t.errorCode.None?
    && t.state == if a.kind.Mesh? && a.inboundReplyTo.Some? then OBSERVED else PENDING
  }

  // ---- the statements ----

  predicate HasSource(turns: Turns, source: string) { exists id :: id in turns && turns[id].source == source }

  function Enqueue(turns: Turns, a: Arrival, id: string, now: int): Turns {
    if HasSource(turns, a.source) then turns else turns[id := NewTurn(a, now)]
  }

  /** The row `SELECT … WHERE state = 'PENDING' ORDER BY created_at LIMIT 1` may return. */
  predicate OldestPending(turns: Turns, id: string) {
    && id in turns && turns[id].state == PENDING
    && forall other :: other in turns && turns[other].state == PENDING ==> turns[id].createdAt <= turns[other].createdAt
  }

  function SetState(turns: Turns, id: string, state: TurnState, response: Option<string>, conversation: Option<string>,
                    errorCode: Option<string>, now: int): Turns
  {
    if id in turns then
      turns[id := turns[id].(state := state, response := response, conversation := conversation,
                             errorCode := errorCode, updatedAt := now)]
    else turns
  }

  function MarkRunning(turns: Turns, id: string, now: int): Turns { SetState(turns, id, RUNNING, None, None, None, now) }

  function Complete(turns: Turns, id: string, response: string, conversation: Option<string>, now: int): Turns {
    SetState(turns, id, COMPLETED, Some(response), conversation, None, now)
  }

  function Fail(turns: Turns, id: string, code: string, now: int): Turns { SetState(turns, id, FAILED, None, None, Some(code), now) }

  function Claim(turns: Turns, id: string, now: int): Turns
    requires id in turns
  {
    turns[id := turns[id].(state := RUNNING, updatedAt := now)]
  }

  function BackToPending(t: Turn, now: int): Turn {
    if t.state == RUNNING then t.(state := PENDING, updatedAt := now) else t
  }

  function Restart(turns: Turns, now: int): Turns { map id | id in turns :: BackToPending(turns[id], now) }

  // ---- conversations ----

  datatype Conversation = Conversation(id: string, workspace: string, runtimeKind: string, model: Option<string>,
                                       successfulTurns: nat, createdAt: int, lastUsedAt: int)

  /** `saveConversation`: an upsert that counts. */
  function SaveConversation(all: map<string, Conversation>, key: string, id: string, workspace: string, runtimeKind: string,
                            model: Option<string>, now: int): map<string, Conversation>
  {
    if key in all then
      all[key := all[key].(id := id, workspace := workspace, runtimeKind := runtimeKind, model := model,
                           successfulTurns := all[key].successfulTurns + 1, lastUsedAt := now)]
    else all[key := Conversation(id, workspace, runtimeKind, model, 1, now, now)]
  }

  /** What `#runTurn` resumes: the stored conversation of this context, if the lane still
      runs the same runtime and model in the same workspace. */
  function Resumed(all: map<string, Conversation>, key: string, workspace: string, runtimeKind: string, model: Option<string>): Option<string> {
    if key in all && all[key].workspace == workspace && all[key].runtimeKind == runtimeKind && all[key].model == model
    then Some(all[key].id) else None
  }

  // ---- the inbox object ----

  class RuntimeInbox {
    var turns: Turns
    var conversations: map<string, Conversation>

    /** `initialize` on the stored tables. */
    constructor (stored: Turns, conversations: map<string, Conversation>, now: int)
      ensures turns == Restart(stored, now) && this.conversations == conversations
    {
      turns := Restart(stored, now);
      this.conversations := conversations;
    }

    method EnqueueTurn(a: Arrival, newId: string, now: int) returns (id: string)
      requires newId !in turns
      modifies this`turns
      ensures turns == Enqueue(old(turns), a, newId, now)
      ensures id in turns && turns[id].source == a.source
      ensures HasSource(old(turns), a.source) ==> id in old(turns) && turns == old(turns)
      ensures !HasSource(old(turns), a.source) ==> id == newId && IsFresh(turns[id], a, now)
    {
      var existing := FindSource(a.source);
      if existing.Some? { return existing.value; }
      turns := turns[newId := NewTurn(a, now)];
      id := newId;
    }

    method FindSource(source: string) returns (found: Option<string>)
      ensures found.Some? ==> found.value in turns && turns[found.value].source == source
      ensures found.None? ==> !HasSource(turns, source)
    {
      var rest := turns.Keys;
      while rest != {}
        invariant forall id :: id in turns && id !in rest ==> turns[id].source != source
        decreases rest
      {
        var id :| id in rest;
        if id in turns && turns[id].source == source { return Some(id); }
        rest := rest - {id};
      }
      found := None;
    }

    method Next() returns (found: Option<string>)
      ensures found.Some? ==> OldestPending(turns, found.value)
      ensures found.None? ==> forall id :: id in turns ==> turns[id].state != PENDING
    {
      found := None;
      var rest := turns.Keys;
      while rest != {}
        invariant rest <= turns.Keys
        invariant found.Some? ==> found.value in turns && turns[found.value].state == PENDING
        invariant forall id :: id in turns && id !in rest && turns[id].state == PENDING ==>
          found.Some? && turns[found.value].createdAt <= turns[id].createdAt
        decreases rest
      {
        var id :| id in rest;
        if turns[id].state == PENDING && (found.None? || turns[id].createdAt < turns[found.value].createdAt) {
          found := Some(id);
        }
        rest := rest - {id};
      }
    }

    method ClaimNext(now: int) returns (found: Option<string>)
      modifies this`turns
      ensures found.Some? ==> OldestPending(old(turns), found.value) && turns == Claim(old(turns), found.value, now)
      ensures found.None? ==> turns == old(turns) && forall id :: id in turns ==> turns[id].state != PENDING
    {
      found := Next();
      if found.Some? {
        turns := turns[found.value := turns[found.value].(state := RUNNING, updatedAt := now)];
      }
    }

    method Save(key: string, id: string, workspace: string, runtimeKind: string, model: Option<string>, now: int)
      modifies this`conversations
      ensures conversations == SaveConversation(old(conversations), key, id, workspace, runtimeKind, model, now)
    {
      if key in conversations {
        var kept := conversations[key];
        conversations := conversations[key := Conversation(id, workspace, runtimeKind, model, kept.successfulTurns + 1, kept.createdAt, now)];
      } else {
        conversations := conversations[key := Conversation(id, workspace, runtimeKind, model, 1, now, now)];
      }
    }

    method Reset(key: string) returns (existed: bool)
      modifies this`conversations
      ensures conversations == old(conversations) - {key} && existed == (key in old(conversations))
    {
      existed := key in conversations;
      conversations := conversations - {key};
    }

    method Set(id: string, state: TurnState, response: Option<string>, conversation: Option<string>,
               errorCode: Option<string>, now: int)
      modifies this`turns
      ensures turns == SetState(old(turns), id, state, response, conversation, errorCode, now)
    {
      if id in turns {
        turns := turns[id := turns[id].(state := state, response := response, conversation := conversation,
                                        errorCode := errorCode, updatedAt := now)];
      }
    }
  }

  // ---- a lane's runs ----

  /** What happened to turns, for the statements about order and repetition. */
  datatype Entry = Handed(id: string, createdAt: int) | Restarted

  /** `claude`: turns are claimed by a Claude session and there is no worker. `current` is
      the turn the lane's worker is in. */
  datatype Lane = Lane(claude: bool, turns: Turns, current: Option<string>, log: seq<Entry>)

  /** `NextTurn` is the worker's loop, `ClaimTurn` a request of a Claude session, whose
      lane has no worker. `CompleteTurn` and `FailTurn` are all other writers: control
      requests and the delivery code, which may name any turn at any time. */
  datatype Step =
    | Arrive(arrival: Arrival, newId: string, now: int)
    | NextTurn(id: string, now: int)
    | ClaimTurn(id: string, now: int)
    | WorkerCompletes(response: string, conversation: string, now: int)
    | WorkerFails(code: string, now: int)
    | CompleteTurn(id: string, response: string, now: int)
    | FailTurn(id: string, code: string, now: int)
    | RestartLane(now: int, claude: bool)

  /** Every run opens the inbox first, so the kind of an empty lane does not matter. */
  const Fresh := Lane(false, map[], None, [])

  /** One step; a step that cannot happen changes nothing. */
  function Apply(lane: Lane, step: Step): Lane {
    match step
    case Arrive(a, newId, now) =>
      if newId in lane.turns then lane else lane.(turns := Enqueue(lane.turns, a, newId, now))
    case NextTurn(id, now) =>
      if lane.claude || lane.current.Some? || !OldestPending(lane.turns, id) then lane
      else Lane(false, MarkRunning(lane.turns, id, now), Some(id), lane.log + [Handed(id, lane.turns[id].createdAt)])
    case ClaimTurn(id, now) =>
      if !lane.claude || !OldestPending(lane.turns, id) then lane
      else lane.(turns := Claim(lane.turns, id, now), log := lane.log + [Handed(id, lane.turns[id].createdAt)])
    case WorkerCompletes(response, conversation, now) =>
      if lane.current.None? then lane
      else lane.(turns := Complete(lane.turns, lane.current.value, response, Some(conversation), now), current := None)
    case WorkerFails(code, now) =>
      if lane.current.None? then lane
      else lane.(turns := Fail(lane.turns, lane.current.value, code, now), current := None)
    case CompleteTurn(id, response, now) => lane.(turns := Complete(lane.turns, id, response, None, now))
    case FailTurn(id, code, now) => lane.(turns := Fail(lane.turns, id, code, now))
    case RestartLane(now, claude) => Lane(claude, Restart(lane.turns, now), None, lane.log + [Restarted])
  }

  function Run(steps: seq<Step>): Lane {
    if steps == [] then Fresh else Apply(Run(steps[..|steps| - 1]), steps[|steps| - 1])
  }

  // ---- what every step keeps ----

  ghost predicate OneTurnPerSource(turns: Turns) {
    forall a, b :: a in turns && b in turns && turns[a].source == turns[b].source ==> a == b
  }

  /** Turns that only observe are never worked on. */
  ghost predicate ObservedStayOut(turns: Turns) {
    forall id :: id in turns && !Answerable(turns[id]) ==> turns[id].state != PENDING && turns[id].state != RUNNING
  }

  /** No restart since entry `i`. */
  ghost predicate Recent(log: seq<Entry>, i: int) {
    0 <= i < |log| && log[i].Handed? && forall k :: i < k < |log| ==> log[k] != Restarted
  }

  ghost predicate HandedIsGone(lane: Lane) {
    forall i :: Recent(lane.log, i) ==> lane.log[i].id in lane.turns && lane.turns[lane.log[i].id].state != PENDING
  }

  ghost predicate BetweenRestarts(log: seq<Entry>, i: int, j: int) {
    0 <= i < j < |log| && log[i].Handed? && log[j].Handed? && forall k :: i < k < j ==> log[k] != Restarted
  }

  ghost predicate HandedOnce(log: seq<Entry>) {
    forall i, j :: BetweenRestarts(log, i, j) ==> log[i].id != log[j].id
  }

  ghost predicate WorkerHasIt(lane: Lane) {
    forall id :: id in lane.turns && lane.turns[id].state == RUNNING ==> lane.current == Some(id)
  }

  ghost predicate AtMostOneRunning(turns: Turns) {
    forall a, b :: a in turns && b in turns && turns[a].state == RUNNING && turns[b].state == RUNNING ==> a == b
  }

  ghost predicate Inv(lane: Lane) {
    && OneTurnPerSource(lane.turns) && ObservedStayOut(lane.turns)
    && HandedIsGone(lane) && HandedOnce(lane.log)
    && (!lane.claude ==> WorkerHasIt(lane))
  }

  lemma LogGrows(log: seq<Entry>, e: Entry)
    ensures forall i :: Recent(log + [e], i) <==> (e.Handed? && (i == |log| || Recent(log, i)))
    ensures forall i, j :: BetweenRestarts(log + [e], i, j) <==>
      BetweenRestarts(log, i, j) || (e.Handed? && j == |log| && Recent(log, i))
  {
    var longer := log + [e];
    forall i ensures Recent(longer, i) <==> (e.Handed? && (i == |log| || Recent(log, i))) {
      if Recent(longer, i) && i < |log| { assert longer[|log|] == e; }
      assert forall k :: 0 <= k < |log| ==> longer[k] == log[k];
    }
    forall i, j ensures BetweenRestarts(longer, i, j) <==>
      BetweenRestarts(log, i, j) || (e.Handed? && j == |log| && Recent(log, i))
    {
      assert forall k :: 0 <= k < |log| ==> longer[k] == log[k];
    }
  }

  lemma HandKeeps(lane: Lane, next: Lane, id: string)
    requires HandedIsGone(lane) && HandedOnce(lane.log) && OldestPending(lane.turns, id)
    requires next.log == lane.log + [Handed(id, lane.turns[id].createdAt)] && id in next.turns && next.turns[id].state == RUNNING
    requires forall other :: other in lane.turns && other != id ==> other in next.turns && next.turns[other] == lane.turns[other]
    ensures HandedIsGone(next) && HandedOnce(next.log)
  {
    LogGrows(lane.log, Handed(id, lane.turns[id].createdAt));
  }

  lemma SourcesKept(lane: Lane, step: Step)
    requires OneTurnPerSource(lane.turns)
    ensures OneTurnPerSource(Apply(lane, step).turns)
  {
    if step.Arrive? {
      EnqueueKeepsSources(lane.turns, step.arrival, step.newId, step.now);
    } else {
      LaterKept(lane, step);
      NoNewTurns(lane, step);
      SameSources(lane.turns, Apply(lane, step).turns);
    }
  }

  lemma NoNewTurns(lane: Lane, step: Step)
    requires !step.Arrive?
    ensures Apply(lane, step).turns.Keys == lane.turns.Keys
  {
  }

  lemma EnqueueKeepsSources(turns: Turns, a: Arrival, id: string, now: int)
    requires OneTurnPerSource(turns)
    ensures OneTurnPerSource(Enqueue(turns, a, id, now)) || id in turns
  {
    if !HasSource(turns, a.source) {
      forall other | other in turns ensures turns[other].source != a.source { }
    }
  }

  lemma SameSources(turns: Turns, next: Turns)
    requires OneTurnPerSource(turns)
    requires forall id :: id in next ==> id in turns && next[id].source == turns[id].source
    ensures OneTurnPerSource(next)
  {
  }

  lemma ObservedKept(lane: Lane, step: Step)
    requires ObservedStayOut(lane.turns)
    ensures ObservedStayOut(Apply(lane, step).turns)
  {
  }

  lemma WorkerKept(lane: Lane, step: Step)
    requires !lane.claude ==> WorkerHasIt(lane)
    ensures !Apply(lane, step).claude ==> WorkerHasIt(Apply(lane, step))
  {
  }

  lemma LogInvKept(lane: Lane, step: Step)
    requires HandedIsGone(lane) && HandedOnce(lane.log)
    ensures HandedIsGone(Apply(lane, step)) && HandedOnce(Apply(lane, step).log)
  {
    var next := Apply(lane, step);
    match step
    case NextTurn(id, now) => if next != lane { HandKeeps(lane, next, id); }
    case ClaimTurn(id, now) => if next != lane { HandKeeps(lane, next, id); }
    case RestartLane(_, _) => LogGrows(lane.log, Restarted);
    case _ => StillGone(lane, next);
  }

  /** Steps that hand nothing out make no turn pending but a new one. */
  lemma StillGone(lane: Lane, next: Lane)
    requires HandedIsGone(lane) && next.log == lane.log
    requires forall id :: id in lane.turns ==> id in next.turns && (next.turns[id].state == PENDING ==> lane.turns[id].state == PENDING)
    ensures HandedIsGone(next)
  {
  }

  lemma {:induction false} InvAlways(steps: seq<Step>)
    ensures Inv(Run(steps))
  {
    if steps != [] {
      var n := |steps| - 1;
      InvAlways(steps[..n]);
      SourcesKept(Run(steps[..n]), steps[n]);
      ObservedKept(Run(steps[..n]), steps[n]);
      WorkerKept(Run(steps[..n]), steps[n]);
      LogInvKept(Run(steps[..n]), steps[n]);
    }
  }

  /** In every run: one turn per source message; between restarts no turn is handed out
      twice; observed turns are never pending or running; a worker-driven lane has at most
      one turn running. */
  lemma InboxIsSafe(steps: seq<Step>)
    ensures var lane := Run(steps);
      && OneTurnPerSource(lane.turns) && HandedOnce(lane.log) && ObservedStayOut(lane.turns)
      && (!lane.claude ==> AtMostOneRunning(lane.turns))
  {
    InvAlways(steps);
  }

  // ---- order of claims ----

  ghost predicate ClockGoesOn(steps: seq<Step>) {
    forall i, j :: 0 <= i < j < |steps| && steps[i].Arrive? && steps[j].Arrive? ==> steps[i].now <= steps[j].now
  }

  ghost predicate BornBy(turns: Turns, now: int) { forall id :: id in turns ==> turns[id].createdAt <= now }

  ghost predicate HandedBeforePending(lane: Lane) {
    forall i, id :: Recent(lane.log, i) && id in lane.turns && lane.turns[id].state == PENDING ==>
      lane.log[i].createdAt <= lane.turns[id].createdAt
  }

  ghost predicate InArrivalOrder(log: seq<Entry>) {
    forall i, j :: BetweenRestarts(log, i, j) ==> log[i].createdAt <= log[j].createdAt
  }

  ghost predicate HandedBornBy(log: seq<Entry>, now: int) {
    forall i :: 0 <= i < |log| && log[i].Handed? ==> log[i].createdAt <= now
  }

  ghost predicate Ordered(lane: Lane, now: int) {
    BornBy(lane.turns, now) && HandedBornBy(lane.log, now) && HandedBeforePending(lane) && InArrivalOrder(lane.log)
  }

  lemma OrderedKept(lane: Lane, step: Step, now: int)
    requires Ordered(lane, now) && (step.Arrive? ==> step.now == now)
    ensures Ordered(Apply(lane, step), now)
  {
    var next := Apply(lane, step);
    match step
    case NextTurn(id, _) => if next != lane { HandInOrder(lane, next, id); }
    case ClaimTurn(id, _) => if next != lane { HandInOrder(lane, next, id); }
    case RestartLane(_, _) => LogGrows(lane.log, Restarted);
    case _ =>
      QuietStep(lane, step, now);
      StillInOrder(lane, next, now);
  }

  /** A step that hands nothing out moves no turn back to pending. */
  lemma QuietStep(lane: Lane, step: Step, now: int)
    requires !step.NextTurn? && !step.ClaimTurn? && !step.RestartLane? && (step.Arrive? ==> step.now == now)
    ensures Apply(lane, step).log == lane.log
    ensures forall id :: id in Apply(lane, step).turns ==> if id in lane.turns then
        Apply(lane, step).turns[id].createdAt == lane.turns[id].createdAt
        && (Apply(lane, step).turns[id].state == PENDING ==> lane.turns[id].state == PENDING)
      else Apply(lane, step).turns[id].createdAt == now
  {
  }

  lemma StillInOrder(lane: Lane, next: Lane, now: int)
    requires Ordered(lane, now) && next.log == lane.log
    requires forall id :: id in next.turns ==> if id in lane.turns then
        next.turns[id].createdAt == lane.turns[id].createdAt && (next.turns[id].state == PENDING ==> lane.turns[id].state == PENDING)
      else next.turns[id].createdAt == now
    ensures Ordered(next, now)
  {
  }

  lemma HandInOrder(lane: Lane, next: Lane, id: string)
    requires HandedBeforePending(lane) && InArrivalOrder(lane.log) && OldestPending(lane.turns, id)
    requires next.log == lane.log + [Handed(id, lane.turns[id].createdAt)] && id in next.turns && next.turns[id].state == RUNNING
    requires forall other :: other in next.turns && other != id ==> other in lane.turns && next.turns[other] == lane.turns[other]
    ensures HandedBeforePending(next) && InArrivalOrder(next.log)
  {
    LogGrows(lane.log, Handed(id, lane.turns[id].createdAt));
  }

  /** The clock a run has reached, at least `now`. */
  ghost predicate ArrivedBy(steps: seq<Step>, now: int) {
    forall i :: 0 <= i < |steps| && steps[i].Arrive? ==> steps[i].now <= now
  }

  lemma {:induction false} OrderedAlways(steps: seq<Step>, now: int)
    requires ClockGoesOn(steps) && ArrivedBy(steps, now)
    ensures Ordered(Run(steps), now)
  {
    if steps != [] {
      var n := |steps| - 1;
      var last := if steps[n].Arrive? then steps[n].now else now;
      assert ArrivedBy(steps[..n], last);
      OrderedAlways(steps[..n], last);
      OrderedKept(Run(steps[..n]), steps[n], last);
      assert Ordered(Run(steps), last);
    }
  }

  /** With a clock that never goes back, turns are handed out between restarts in the
      order they arrived. */
  lemma ClaimsFollowArrivals(steps: seq<Step>, now: int)
    requires ClockGoesOn(steps) && ArrivedBy(steps, now)
    ensures InArrivalOrder(Run(steps).log)
  {
    OrderedAlways(steps, now);
  }

  // ---- rows over time ----

  predicate Over(t: Turn) { t.state != PENDING && t.state != RUNNING }

  /** What came in stays, with its source and time of arrival, and what is over is over:
      it is never handed out again, not even after a restart. */
  ghost predicate Later(a: Turns, b: Turns) {
    forall id :: id in a ==>
      && id in b
      && b[id] == a[id].(state := b[id].state, response := b[id].response, conversation := b[id].conversation,
                         errorCode := b[id].errorCode, updatedAt := b[id].updatedAt)
      && (Over(a[id]) ==> Over(b[id]))
  }

  lemma LaterSet(turns: Turns, id: string, state: TurnState, response: Option<string>, conversation: Option<string>,
                 code: Option<string>, now: int)
    requires (state == PENDING || state == RUNNING) && id in turns ==> !Over(turns[id])
    ensures Later(turns, SetState(turns, id, state, response, conversation, code, now))
  {
  }

  lemma LaterEnqueued(turns: Turns, a: Arrival, newId: string, now: int)
    ensures newId in turns || Later(turns, Enqueue(turns, a, newId, now))
  {
  }

  lemma LaterClaimed(turns: Turns, id: string, now: int)
    requires id in turns && !Over(turns[id])
    ensures Later(turns, Claim(turns, id, now))
  {
  }

  lemma LaterRestarted(turns: Turns, now: int)
    ensures Later(turns, Restart(turns, now))
  {
  }

  lemma LaterKept(lane: Lane, step: Step)
    ensures Later(lane.turns, Apply(lane, step).turns)
  {
    match step
    case Arrive(a, newId, now) => LaterEnqueued(lane.turns, a, newId, now);
    case NextTurn(id, now) => if OldestPending(lane.turns, id) { LaterSet(lane.turns, id, RUNNING, None, None, None, now); }
    case ClaimTurn(id, now) => if OldestPending(lane.turns, id) { LaterClaimed(lane.turns, id, now); }
    case WorkerCompletes(response, conversation, now) =>
      if lane.current.Some? { LaterSet(lane.turns, lane.current.value, COMPLETED, Some(response), Some(conversation), None, now); }
    case WorkerFails(code, now) =>
      if lane.current.Some? { LaterSet(lane.turns, lane.current.value, FAILED, None, None, Some(code), now); }
    case CompleteTurn(id, response, now) => LaterSet(lane.turns, id, COMPLETED, Some(response), None, None, now);
    case FailTurn(id, code, now) => LaterSet(lane.turns, id, FAILED, None, None, Some(code), now);
    case RestartLane(now, _) => LaterRestarted(lane.turns, now);
  }

  lemma {:induction false} TurnsAreNeverLost(steps: seq<Step>, n: nat)
    requires n <= |steps|
    ensures Later(Run(steps[..n]).turns, Run(steps).turns)
    decreases |steps|
  {
    if n == |steps| {
      assert steps[..n] == steps;
    } else {
      var before := steps[..|steps| - 1];
      assert before[..n] == steps[..n];
      TurnsAreNeverLost(before, n);
      LaterKept(Run(before), steps[|steps| - 1]);
    }
  }

  lemma RunMore(steps: seq<Step>, step: Step)
    ensures Run(steps + [step]) == Apply(Run(steps), step)
  {
    assert (steps + [step])[..|steps|] == steps;
  }

  /** Handed out since the last restart. */
  ghost predicate HandedLately(log: seq<Entry>, id: string) {
    exists i :: Recent(log, i) && log[i].id == id
  }

  ghost predicate RunningWasHanded(lane: Lane) {
    forall id :: id in lane.turns && lane.turns[id].state == RUNNING ==> HandedLately(lane.log, id)
  }

  lemma RunningKept(lane: Lane, step: Step)
    requires RunningWasHanded(lane)
    ensures RunningWasHanded(Apply(lane, step))
  {
    var next := Apply(lane, step);
    if next.log != lane.log && !step.RestartLane? {
      var e := Handed(step.id, lane.turns[step.id].createdAt);
      LogGrows(lane.log, e);
      assert Recent(next.log, |lane.log|) && next.log[|lane.log|].id == step.id;
      forall id | HandedLately(lane.log, id) ensures HandedLately(next.log, id) {
        var i :| Recent(lane.log, i) && lane.log[i].id == id;
        assert Recent(next.log, i) && next.log[i].id == id;
      }
    }
  }

  lemma {:induction false} RunningAlways(steps: seq<Step>)
    ensures RunningWasHanded(Run(steps))
  {
    if steps != [] {
      RunningAlways(steps[..|steps| - 1]);
      RunningKept(Run(steps[..|steps| - 1]), steps[|steps| - 1]);
    }
  }

  /** In every run, a restart returns to pending exactly the turns that were handed out
      since the last one and are not over; every other turn is as it was, and none runs. */
  lemma RestartReturnsUnfinished(steps: seq<Step>, now: int, claude: bool, id: string)
    requires id in Run(steps).turns
    ensures var before, after := Run(steps), Run(steps + [RestartLane(now, claude)]);
      && id in after.turns && after.turns[id].state != RUNNING
      && (after.turns[id] != before.turns[id] <==> HandedLately(before.log, id) && !Over(before.turns[id]))
      && (after.turns[id] != before.turns[id] ==> after.turns[id] == before.turns[id].(state := PENDING, updatedAt := now))
  {
    RunMore(steps, RestartLane(now, claude));
    RunningAlways(steps);
    InvAlways(steps);
    if HandedLately(Run(steps).log, id) {
      var i :| Recent(Run(steps).log, i) && Run(steps).log[i].id == id;
    }
  }

  // ---- "completed" is not final ----

  /** The two ways out of COMPLETED: a failure reported for the turn, which is not checked
      against its state, and the worker's own failure in a turn someone else completed. */
  predicate Uncompletes(lane: Lane, step: Step, id: string) {
    (step.FailTurn? && step.id == id) || (step.WorkerFails? && lane.current == Some(id))
  }

  predicate IsCompleted(lane: Lane, id: string) { id in lane.turns && lane.turns[id].state == COMPLETED }

  lemma CompletedStep(lane: Lane, step: Step, id: string)
    requires IsCompleted(lane, id)
    ensures IsCompleted(Apply(lane, step), id) <==> !Uncompletes(lane, step, id)
  {
  }

  ghost predicate CompletedAt(steps: seq<Step>, m: int, id: string) { 0 <= m <= |steps| && IsCompleted(Run(steps[..m]), id) }

  ghost predicate UncompletedBy(steps: seq<Step>, k: int, id: string) {
    0 <= k < |steps| && Uncompletes(Run(steps[..k]), steps[k], id)
  }

  lemma CompletedNext(steps: seq<Step>, k: nat, id: string)
    requires k < |steps| && CompletedAt(steps, k, id)
    ensures CompletedAt(steps, k + 1, id) <==> !UncompletedBy(steps, k, id)
  {
    assert steps[..k + 1] == steps[..k] + [steps[k]];
    RunMore(steps[..k], steps[k]);
    CompletedStep(Run(steps[..k]), steps[k], id);
  }

  lemma {:induction false} CompletedOn(steps: seq<Step>, n: nat, m: nat, id: string)
    requires n <= m <= |steps| && CompletedAt(steps, n, id)
    requires forall k :: n <= k < |steps| ==> !UncompletedBy(steps, k, id)
    ensures CompletedAt(steps, m, id)
    decreases m
  {
    if n < m {
      CompletedOn(steps, n, m - 1, id);
      CompletedNext(steps, m - 1, id);
    }
  }

  /** A completed turn stays completed through a run exactly as long as no step of it is
      one of these two. */
  lemma CompletedStaysIff(steps: seq<Step>, n: nat, id: string)
    requires CompletedAt(steps, n, id)
    ensures (forall m :: n <= m <= |steps| ==> CompletedAt(steps, m, id)) <==>
      (forall k :: n <= k < |steps| ==> !UncompletedBy(steps, k, id))
  {
    if forall k :: n <= k < |steps| ==> !UncompletedBy(steps, k, id) {
      forall m | n <= m <= |steps| ensures CompletedAt(steps, m, id) { CompletedOn(steps, n, m, id); }
    } else {
      var k :| n <= k < |steps| && UncompletedBy(steps, k, id);
      if CompletedAt(steps, k, id) { CompletedNext(steps, k, id); }
    }
  }

  /** A run that completes a turn and then fails it. */
  lemma CompletedCanFail(e: ChannelEvent) returns (steps: seq<Step>)
    ensures |steps| == 4 && CompletedAt(steps, 3, "turn") && UncompletedBy(steps, 3, "turn")
    ensures "turn" in Run(steps).turns && Run(steps).turns["turn"].state == FAILED
  {
    var s1 := [] + [Arrive(FromChannel(e), "turn", 0)];
    var s2 := s1 + [NextTurn("turn", 0)];
    var s3 := s2 + [WorkerCompletes("answer", "talk", 0)];
    steps := s3 + [FailTurn("turn", "LATE", 0)];
    RunMore([], Arrive(FromChannel(e), "turn", 0));
    RunMore(s1, NextTurn("turn", 0));
    RunMore(s2, WorkerCompletes("answer", "talk", 0));
    RunMore(s3, FailTurn("turn", "LATE", 0));
    assert !HasSource(map[], FromChannel(e).source);
    assert Run(s1).turns == map["turn" := NewTurn(FromChannel(e), 0)];
    assert Run(s2).current == Some("turn");
    assert steps[..3] == s3;
  }

  // ---- conversations ----

  /** The next turn of a context resumes what the last one saved, unless the lane's
      runtime settings changed in between; other contexts are not touched. */
  lemma SavedIsResumed(all: map<string, Conversation>, key: string, id: string, workspace: string, kind: string, model: Option<string>,
                       now: int, other: string, workspace': string, kind': string, model': Option<string>)
    ensures var saved := SaveConversation(all, key, id, workspace, kind, model, now);
      Resumed(saved, other, workspace', kind', model') ==
        if other != key then Resumed(all, other, workspace', kind', model')
        else if (workspace', kind', model') == (workspace, kind, model) then Some(id) else None
  {
  }
}
