/** How a channel message becomes durable: looked up by its dedup key, recorded in the
    outbox, then queued as a turn, then acknowledged. Deliveries may be repeated and
    overlap; a crash may fall between any two of these. */
module ChannelInbound {
  import opened Prelude
  import opened TurnInbox

  datatype Delivery = Delivery(driver: string, account: string, eventId: string, messageId: string, text: string)

  function DedupKey(d: Delivery): string { d.driver + "\0" + d.account + "\0" + d.eventId }

  function EventOf(d: Delivery, auditId: string): ChannelEvent { ChannelEvent(auditId, Some(d.driver), Some(d.messageId), d.text) }

  /** Where a request is waiting: for the outbox, or between outbox and inbox. */
  datatype Phase = Recording(delivery: Delivery) | Recorded(delivery: Delivery)

  /** The answer to a delivery, with the id of its event. */
  datatype Ack = Ack(delivery: Delivery, auditId: string, duplicate: bool)

  /** The two databases survive a crash, the requests do not. */
  datatype Inbound = Inbound(events: map<string, ChannelEvent>, turns: Turns, requests: map<nat, Phase>, acks: seq<Ack>)

  /** `ok` is false when the outbox refuses, or the inbox does (a busy or full database);
      `clash` when the unique key ends the transaction of the slower of two equal
      deliveries instead of its early check. A refused request is answered with an error,
      and so is one whose new event id is taken. */
  datatype Step =
    | Receive(request: nat, delivery: Delivery)
    | Commit(request: nat, ok: bool, clash: bool, auditId: string)
    | Queue(request: nat, ok: bool, newTurn: string, now: int)
    | Crash

  const Fresh := Inbound(map[], map[], map[], [])

  function Source(e: ChannelEvent): string { FromChannel(e).source }

  predicate IsTaken(events: map<string, ChannelEvent>, auditId: string) {
    exists key :: key in events && events[key].eventId == auditId
  }

  /** The insert fails on either unique column. */
  predicate Rejects(events: map<string, ChannelEvent>, key: string, ok: bool, clash: bool, auditId: string) {
    !ok || (if key in events then clash else IsTaken(events, auditId))
  }

  function Commits(lane: Inbound, request: nat, d: Delivery, ok: bool, clash: bool, auditId: string): Inbound {
    var key := DedupKey(d);
    if Rejects(lane.events, key, ok, clash, auditId) then lane.(requests := lane.requests - {request})
    else
      lane.(events := if key in lane.events then lane.events else lane.events[key := EventOf(d, auditId)],
            requests := lane.requests[request := Recorded(d)])
  }

  function Queues(lane: Inbound, request: nat, d: Delivery, newTurn: string, now: int): Inbound
    requires DedupKey(d) in lane.events
  {
    var event := lane.events[DedupKey(d)];
    lane.(turns := Enqueue(lane.turns, FromChannel(event), newTurn, now),
          acks := lane.acks + [Ack(d, event.eventId, false)], requests := lane.requests - {request})
  }

  function Next(lane: Inbound, step: Step): Inbound {
    match step
    case Receive(request, d) =>
      if request in lane.requests then lane
      else if DedupKey(d) in lane.events then lane.(acks := lane.acks + [Ack(d, lane.events[DedupKey(d)].eventId, true)])
      else lane.(requests := lane.requests[request := Recording(d)])
    case Commit(request, ok, clash, auditId) =>
      if request !in lane.requests || !lane.requests[request].Recording? then lane
      else Commits(lane, request, lane.requests[request].delivery, ok, clash, auditId)
    case Queue(request, ok, newTurn, now) =>
      if request !in lane.requests || !lane.requests[request].Recorded? || newTurn in lane.turns
         || DedupKey(lane.requests[request].delivery) !in lane.events then lane
      else if !ok then lane.(requests := lane.requests - {request})
      else Queues(lane, request, lane.requests[request].delivery, newTurn, now)
    case Crash => lane.(requests := map[])
  }

  function Run(lane: Inbound, steps: seq<Step>): Inbound {
    if steps == [] then lane else Next(Run(lane, steps[..|steps| - 1]), steps[|steps| - 1])
  }

  // ---- the handler ----

  class DurableChannelHandler {
    const inbox: RuntimeInbox
    var events: map<string, ChannelEvent>
    var requests: map<nat, Phase>
    var acks: seq<Ack>

    constructor (inbox: RuntimeInbox)
      ensures this.inbox == inbox && State() == Inbound(map[], inbox.turns, map[], [])
    {
      this.inbox := inbox;
      events, requests, acks := map[], map[], [];
    }

    function State(): Inbound
      reads this, inbox
    {
      Inbound(events, inbox.turns, requests, acks)
    }

    /** Up to the first await: a known key is acknowledged at once. */
    method Handle(request: nat, d: Delivery)
      requires request !in requests
      modifies this
      ensures State() == Next(old(State()), Receive(request, d))
      ensures request !in requests ==> DedupKey(d) in events && acks == old(acks) + [Ack(d, events[DedupKey(d)].eventId, true)]
      ensures request in requests ==> DedupKey(d) !in events && acks == old(acks)
      ensures Sound(old(State())) ==> Sound(State())
    {
      StepKeepsSound(State(), Receive(request, d));
      var key := DedupKey(d);
      if key in events {
        acks := acks + [Ack(d, events[key].eventId, true)];
        return;
      }
      requests := requests[request := Recording(d)];
    }

    /** `record` has committed, found the event, or thrown. */
    method OnRecorded(request: nat, ok: bool, clash: bool, auditId: string)
      requires request in requests && requests[request].Recording?
      modifies this
      ensures State() == Next(old(State()), Commit(request, ok, clash, auditId))
      ensures request in requests ==> DedupKey(old(requests[request].delivery)) in events
      ensures acks == old(acks) && inbox.turns == old(inbox.turns)
      ensures Sound(old(State())) ==> Sound(State())
    {
      StepKeepsSound(State(), Commit(request, ok, clash, auditId));
      var d := requests[request].delivery;
      var key := DedupKey(d);
      if Rejects(events, key, ok, clash, auditId) {
        requests := requests - {request};
        return;
      }
      if key !in events { events := events[key := EventOf(d, auditId)]; }
      requests := requests[request := Recorded(d)];
    }

    /** Only then the turn, and only then the acknowledgement. */
    method QueueThenAcknowledge(request: nat, ok: bool, newTurn: string, now: int)
      requires request in requests && requests[request].Recorded? && newTurn !in inbox.turns
      requires DedupKey(requests[request].delivery) in events
      modifies this, inbox
      ensures State() == Next(old(State()), Queue(request, ok, newTurn, now))
      ensures request !in requests && events == old(events)
      ensures if ok then HasSource(inbox.turns, Source(events[DedupKey(old(requests[request].delivery))])) && |acks| == |old(acks)| + 1
              else inbox.turns == old(inbox.turns) && acks == old(acks)
      ensures Sound(old(State())) ==> Sound(State())
    {
      StepKeepsSound(State(), Queue(request, ok, newTurn, now));
      var d := requests[request].delivery;
      if !ok {
        requests := requests - {request};
        return;
      }
      var event := events[DedupKey(d)];
      var id := inbox.EnqueueTurn(FromChannel(event), newTurn, now);
      acks := acks + [Ack(d, event.eventId, false)];
      requests := requests - {request};
    }
  }

  // ---- what every step keeps ----

  ghost predicate AcksHold(lane: Inbound) {
    forall i :: 0 <= i < |lane.acks| ==>
      var key := DedupKey(lane.acks[i].delivery);
      && key in lane.events && lane.events[key].eventId == lane.acks[i].auditId
      && (!lane.acks[i].duplicate ==> HasSource(lane.turns, Source(lane.events[key])))
  }

  ghost predicate IsRecorded(events: map<string, ChannelEvent>, source: string) {
    exists key :: key in events && Source(events[key]) == source
  }

  ghost predicate TurnsRecorded(lane: Inbound) {
    forall id :: id in lane.turns ==> IsRecorded(lane.events, lane.turns[id].source)
  }

  ghost predicate RequestsOk(lane: Inbound) {
    forall r :: r in lane.requests && lane.requests[r].Recorded? ==> DedupKey(lane.requests[r].delivery) in lane.events
  }

  ghost predicate Sound(lane: Inbound) {
    AcksHold(lane) && TurnsRecorded(lane) && RequestsOk(lane) && OneTurnPerSource(lane.turns)
  }

  /** Both databases only grow. */
  ghost predicate Later(a: Inbound, b: Inbound) {
    && (forall key :: key in a.events ==> key in b.events && b.events[key] == a.events[key])
    && (forall id :: id in a.turns ==> id in b.turns && b.turns[id] == a.turns[id])
  }

  lemma SourcesStay(a: Inbound, b: Inbound)
    requires Later(a, b)
    ensures forall source :: HasSource(a.turns, source) ==> HasSource(b.turns, source)
    ensures forall source :: IsRecorded(a.events, source) ==> IsRecorded(b.events, source)
  {
    forall source | HasSource(a.turns, source) ensures HasSource(b.turns, source) {
      var id :| id in a.turns && a.turns[id].source == source;
      assert id in b.turns;
    }
    forall source | IsRecorded(a.events, source) ensures IsRecorded(b.events, source) {
      var key :| key in a.events && Source(a.events[key]) == source;
      assert key in b.events;
    }
  }

  lemma QueueIsSound(lane: Inbound, request: nat, d: Delivery, newTurn: string, now: int)
    requires Sound(lane) && DedupKey(d) in lane.events && newTurn !in lane.turns
    ensures Sound(Queues(lane, request, d, newTurn, now)) && Later(lane, Queues(lane, request, d, newTurn, now))
  {
    var key, next := DedupKey(d), Queues(lane, request, d, newTurn, now);
    SourcesStay(lane, next);
    EnqueueKeepsSources(lane.turns, FromChannel(lane.events[key]), newTurn, now);
    assert IsRecorded(lane.events, Source(lane.events[key]));
    assert HasSource(next.turns, Source(lane.events[key])) by {
      if !HasSource(lane.turns, Source(lane.events[key])) { assert next.turns[newTurn].source == Source(lane.events[key]); }
    }
  }

  lemma CommitIsSound(lane: Inbound, request: nat, d: Delivery, ok: bool, clash: bool, auditId: string)
    requires Sound(lane)
    ensures Sound(Commits(lane, request, d, ok, clash, auditId)) && Later(lane, Commits(lane, request, d, ok, clash, auditId))
  {
    SourcesStay(lane, Commits(lane, request, d, ok, clash, auditId));
  }

  lemma StepIsSound(lane: Inbound, step: Step)
    requires Sound(lane)
    ensures Sound(Next(lane, step)) && Later(lane, Next(lane, step))
  {
    match step
    case Receive(_, _) =>
    case Crash =>
    case Commit(request, ok, clash, auditId) =>
      if request in lane.requests && lane.requests[request].Recording? {
        CommitIsSound(lane, request, lane.requests[request].delivery, ok, clash, auditId);
      }
    case Queue(request, ok, newTurn, now) =>
      if ok && request in lane.requests && lane.requests[request].Recorded? && newTurn !in lane.turns {
        QueueIsSound(lane, request, lane.requests[request].delivery, newTurn, now);
      }
  }

  lemma StepKeepsSound(lane: Inbound, step: Step)
    ensures Sound(lane) ==> Sound(Next(lane, step))
  {
    if Sound(lane) { StepIsSound(lane, step); }
  }

  lemma {:induction false} AlwaysSound(lane: Inbound, steps: seq<Step>)
    requires Sound(lane)
    ensures Sound(Run(lane, steps)) && Later(lane, Run(lane, steps))
  {
    if steps != [] {
      AlwaysSound(lane, steps[..|steps| - 1]);
      StepIsSound(Run(lane, steps[..|steps| - 1]), steps[|steps| - 1]);
    }
  }

  /** In every run and ever after: what was acknowledged is on record; what was
      acknowledged as new has its turn; no turn exists without a record; one message
      never becomes two turns, however often it is delivered. */
  lemma AcknowledgedIsDurable(steps: seq<Step>, more: seq<Step>)
    ensures var lane, later := Run(Fresh, steps), Run(Run(Fresh, steps), more);
      && AcksHold(lane) && TurnsRecorded(lane) && OneTurnPerSource(lane.turns) && Later(lane, later)
  {
    AlwaysSound(Fresh, steps);
    AlwaysSound(Run(Fresh, steps), more);
  }

  // ---- the gap ----

  /** Some live request has recorded the message and will queue it. */
  ghost predicate Carried(requests: map<nat, Phase>, key: string) {
    exists r :: r in requests && Carries(requests[r], key)
  }

  predicate Carries(p: Phase, key: string) { p.Recorded? && DedupKey(p.delivery) == key }

  /** On record without a turn, and nobody is on it any more. */
  ghost predicate Lost(lane: Inbound, key: string) {
    key in lane.events && !HasSource(lane.turns, Source(lane.events[key])) && !Carried(lane.requests, key)
  }

  /** The step ends the last request that carries the message, short of queueing it. */
  ghost predicate Drops(lane: Inbound, step: Step, key: string) {
    Carried(lane.requests, key) &&
    (step.Crash? ||
     (step.Queue? && !step.ok && step.newTurn !in lane.turns
      && step.request in lane.requests && Carries(lane.requests[step.request], key)
      && !Carried(lane.requests - {step.request}, key)))
  }

  lemma CarriedOn(requests: map<nat, Phase>, r: nat, p: Phase, key: string)
    requires Carried(requests, key) && (r in requests ==> !Carries(requests[r], key))
    ensures Carried(requests - {r}, key) && Carried(requests[r := p], key)
  {
    var q :| q in requests && Carries(requests[q], key);
    assert q in requests - {r} && q in requests[r := p];
  }

  /** Exactly when a recorded message is lost in a step: it has no turn, and the step is
      a crash or a refused queueing that ends the last request that carries it. */
  lemma LosesIff(lane: Inbound, step: Step, key: string)
    requires Sound(lane) && key in lane.events && !Lost(lane, key)
    ensures Lost(Next(lane, step), key) <==> !HasSource(lane.turns, Source(lane.events[key])) && Drops(lane, step, key)
  {
    var next := Next(lane, step);
    StepIsSound(lane, step);
    SourcesStay(lane, next);
    if !HasSource(lane.turns, Source(lane.events[key])) {
      match step
      case Crash =>
      case Receive(r, d) => if r !in lane.requests { CarriedOn(lane.requests, r, Recording(d), key); }
      case Commit(r, _, _, _) =>
        if r in lane.requests && lane.requests[r].Recording? {
          CarriedOn(lane.requests, r, Recorded(lane.requests[r].delivery), key);
        }
      case Queue(r, ok, newTurn, now) => QueueLosesIff(lane, r, ok, newTurn, now, key);
    }
  }

  lemma QueueLosesIff(lane: Inbound, r: nat, ok: bool, newTurn: string, now: int, key: string)
    requires Sound(lane) && key in lane.events && Carried(lane.requests, key)
    requires !HasSource(lane.turns, Source(lane.events[key]))
    ensures Lost(Next(lane, Queue(r, ok, newTurn, now)), key) <==> Drops(lane, Queue(r, ok, newTurn, now), key)
  {
    var next := Next(lane, Queue(r, ok, newTurn, now));
    if r in lane.requests && lane.requests[r].Recorded? && newTurn !in lane.turns && DedupKey(lane.requests[r].delivery) in lane.events {
      if !Carries(lane.requests[r], key) {
        CarriedOn(lane.requests, r, lane.requests[r], key);
      } else if ok {
        assert next.turns[newTurn].source == Source(lane.events[key]);
      } else {
        assert next.turns == lane.turns;
      }
    }
  }

  /** Which mishaps a run may contain. */
  ghost predicate Only(steps: seq<Step>, crashes: bool, refusals: bool) {
    forall i :: 0 <= i < |steps| ==> (steps[i].Crash? ==> crashes) && (steps[i].Queue? && !steps[i].ok ==> refusals)
  }

  lemma {:induction false} NothingLostWithoutMishap(steps: seq<Step>, key: string)
    requires Only(steps, false, false)
    ensures !Lost(Run(Fresh, steps), key)
  {
    if steps != [] {
      var n := |steps| - 1;
      var lane := Run(Fresh, steps[..n]);
      NothingLostWithoutMishap(steps[..n], key);
      AlwaysSound(Fresh, steps[..n]);
      if key in lane.events {
        LosesIff(lane, steps[n], key);
      } else if key in Run(Fresh, steps).events {
        assert Carries(Run(Fresh, steps).requests[steps[n].request], key);
      }
    }
  }

  lemma RunMore(lane: Inbound, steps: seq<Step>, step: Step)
    ensures Run(lane, steps + [step]) == Next(Run(lane, steps), step)
  {
    assert (steps + [step])[..|steps|] == steps;
  }

  /** A message on record, about to be queued. */
  lemma RecordedRun(d: Delivery) returns (steps: seq<Step>)
    ensures steps == [Receive(0, d), Commit(0, true, false, "aud")]
    ensures Run(Fresh, steps) == Inbound(map[DedupKey(d) := EventOf(d, "aud")], map[], map[0 := Recorded(d)], [])
  {
    var received := [] + [Receive(0, d)];
    RunMore(Fresh, [], Receive(0, d));
    assert Run(Fresh, received) == Fresh.(requests := map[0 := Recording(d)]);
    RunMore(Fresh, received, Commit(0, true, false, "aud"));
    steps := received + [Commit(0, true, false, "aud")];
  }

  /** A crash between the two databases loses a message … */
  lemma CrashStrands(d: Delivery) returns (steps: seq<Step>)
    ensures Stranded(Run(Fresh, steps), DedupKey(d)) && Only(steps, true, false)
  {
    steps := RecordedRun(d);
    RunMore(Fresh, steps, Crash);
    steps := steps + [Crash];
  }

  /** … and so does an inbox that refuses the turn. */
  lemma RefusalStrands(d: Delivery) returns (steps: seq<Step>)
    ensures Stranded(Run(Fresh, steps), DedupKey(d)) && Only(steps, false, true)
  {
    steps := RecordedRun(d);
    RunMore(Fresh, steps, Queue(0, false, "turn", 0));
    steps := steps + [Queue(0, false, "turn", 0)];
  }

  ghost predicate NeverLost(crashes: bool, refusals: bool) {
    forall steps, key :: Only(steps, crashes, refusals) ==> !Lost(Run(Fresh, steps), key)
  }

  /** No recorded message is ever lost, in all runs with the given mishaps, exactly when
      neither crashes nor refusals are among them. */
  lemma NeverLostIff(crashes: bool, refusals: bool)
    ensures NeverLost(crashes, refusals) <==> !crashes && !refusals
  {
    if crashes || refusals {
      var d := Delivery("", "", "", "", "");
      var steps;
      if crashes { steps := CrashStrands(d); } else { steps := RefusalStrands(d); }
      assert Only(steps, crashes, refusals) && Lost(Run(Fresh, steps), DedupKey(d));
    } else {
      forall steps, key | Only(steps, false, false) ensures !Lost(Run(Fresh, steps), key) { NothingLostWithoutMishap(steps, key); }
    }
  }

  /** Lost, and no request left at all. */
  ghost predicate Stranded(lane: Inbound, key: string) { Lost(lane, key) && lane.requests == map[] }

  ghost predicate OnlyRepeats(steps: seq<Step>, key: string) {
    forall i :: 0 <= i < |steps| && steps[i].Receive? ==> DedupKey(steps[i].delivery) == key
  }

  /** From then on every further delivery of it is acknowledged as a duplicate, and none
      makes the turn. */
  lemma {:induction false} StrandedStaysStranded(lane: Inbound, key: string, steps: seq<Step>)
    requires Stranded(lane, key) && OnlyRepeats(steps, key)
    ensures Stranded(Run(lane, steps), key) && Run(lane, steps).turns == lane.turns
    ensures forall i :: |lane.acks| <= i < |Run(lane, steps).acks| ==>
      Run(lane, steps).acks[i].duplicate && DedupKey(Run(lane, steps).acks[i].delivery) == key
  {
    if steps != [] {
      StrandedStaysStranded(lane, key, steps[..|steps| - 1]);
    }
  }
}
