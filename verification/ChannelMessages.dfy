/** What the inbound path means for messages rather than keys: which deliveries share an
    event, what an acknowledged delivery can rely on, and whose text its turn carries. */
module ChannelMessages {
  import opened Prelude
  import TurnInbox
  import opened ChannelInbound

  // ---- keys and messages ----

  /** Two deliveries of one message: the provider's event, by account and driver. */
  predicate SameMessage(a: Delivery, b: Delivery) { a.driver == b.driver && a.account == b.account && a.eventId == b.eventId }

  predicate NoNul(s: string) { forall i :: 0 <= i < |s| ==> s[i] != '\0' }

  /** No component contains the character that separates them. */
  predicate Plain(d: Delivery) { NoNul(d.driver) && NoNul(d.account) && NoNul(d.eventId) }

  lemma SeparatorsOf(d: Delivery)
    ensures var key, p := DedupKey(d), |d.driver|; var q := p + 1 + |d.account|;
      && |key| == q + 1 + |d.eventId| && key[p] == '\0' && key[q] == '\0'
      && key[..p] == d.driver && key[p + 1..q] == d.account && key[q + 1..] == d.eventId
      && (Plain(d) ==> forall i :: 0 <= i < |key| && key[i] == '\0' ==> i == p || i == q)
  {
    var key, p := DedupKey(d), |d.driver|;
    var q := p + 1 + |d.account|;
    assert key == d.driver + "\0" + d.account + "\0" + d.eventId;
    assert forall i :: 0 <= i < p ==> key[i] == d.driver[i];
    assert forall i :: p < i < q ==> key[i] == d.account[i - p - 1];
    assert forall i :: q < i < |key| ==> key[i] == d.eventId[i - q - 1];
  }

  lemma PlainKeysAreReadable(d: Delivery, e: Delivery)
    requires Plain(d) && DedupKey(e) == DedupKey(d)
    ensures SameMessage(d, e)
  {
    SeparatorsOf(d);
    SeparatorsOf(e);
  }

  lemma {:induction false} NulIn(s: string) returns (a: string, b: string)
    requires !NoNul(s)
    ensures s == a + "\0" + b
  {
    var i :| 0 <= i < |s| && s[i] == '\0';
    a, b := s[..i], s[i + 1..];
  }

  lemma OtherReading(d: Delivery) returns (e: Delivery)
    requires !Plain(d)
    ensures DedupKey(e) == DedupKey(d) && !SameMessage(d, e)
  {
    if !NoNul(d.driver) {
      var a, b := NulIn(d.driver);
      e := d.(driver := a, account := b + "\0" + d.account);
      assert DedupKey(d) == a + "\0" + (b + "\0" + d.account) + "\0" + d.eventId;
    } else if !NoNul(d.account) {
      var a, b := NulIn(d.account);
      e := d.(driver := d.driver + "\0" + a, account := b);
      assert DedupKey(d) == d.driver + "\0" + a + "\0" + b + "\0" + d.eventId;
    } else {
      var a, b := NulIn(d.eventId);
      e := d.(account := d.account + "\0" + a, eventId := b);
      assert DedupKey(d) == d.driver + "\0" + (d.account + "\0" + a) + "\0" + b;
    }
  }

  /** A delivery's key stands for its message alone, exactly when no component contains the
      separator. */
  lemma KeyNamesOneMessageIff(d: Delivery)
    ensures (forall e :: DedupKey(e) == DedupKey(d) ==> SameMessage(d, e)) <==> Plain(d)
  {
    if Plain(d) {
      forall e | DedupKey(e) == DedupKey(d) ensures SameMessage(d, e) { PlainKeysAreReadable(d, e); }
    } else {
      var e := OtherReading(d);
    }
  }

  // ---- where events and turns come from ----

  ghost predicate WasDelivered(steps: seq<Step>, d: Delivery) {
    exists i :: 0 <= i < |steps| && steps[i].Receive? && steps[i].delivery == d
  }

  lemma DeliveredLater(before: seq<Step>, step: Step)
    ensures forall d :: WasDelivered(before, d) ==> WasDelivered(before + [step], d)
    ensures step.Receive? ==> WasDelivered(before + [step], step.delivery)
  {
    var steps := before + [step];
    assert steps[|before|] == step;
    forall d | WasDelivered(before, d) ensures WasDelivered(steps, d) {
      var i :| 0 <= i < |before| && before[i].Receive? && before[i].delivery == d;
      assert steps[i] == before[i];
    }
  }

  /** The event says what the delivery said. */
  predicate Tells(e: TurnInbox.ChannelEvent, d: Delivery) {
    e.driver == Some(d.driver) && e.providerMessageId == Some(d.messageId) && e.text == d.text
  }

  /** The turn says what the event says; its source is the driver's name for the message. */
  predicate TurnTells(t: TurnInbox.Turn, e: TurnInbox.ChannelEvent) {
    && t.kind.Channel? && t.content == e.text && t.inboundReplyTo.None? && t.state.PENDING?
    && e.driver.Some? && e.providerMessageId.Some? && t.source == e.driver.value + ":" + e.providerMessageId.value
  }

  ghost predicate EventCameFrom(steps: seq<Step>, key: string, e: TurnInbox.ChannelEvent, d: Delivery) {
    WasDelivered(steps, d) && DedupKey(d) == key && Tells(e, d)
  }

  ghost predicate EventCame(steps: seq<Step>, key: string, e: TurnInbox.ChannelEvent) { exists d :: EventCameFrom(steps, key, e, d) }

  ghost predicate TurnCame(lane: Inbound, t: TurnInbox.Turn) { exists key :: key in lane.events && TurnTells(t, lane.events[key]) }

  ghost predicate AllCame(steps: seq<Step>, lane: Inbound) {
    && (forall key :: key in lane.events ==> EventCame(steps, key, lane.events[key]))
    && (forall a, b :: a in lane.events && b in lane.events && lane.events[a].eventId == lane.events[b].eventId ==> a == b)
    && (forall r :: r in lane.requests ==> WasDelivered(steps, lane.requests[r].delivery))
    && (forall i :: 0 <= i < |lane.acks| ==> WasDelivered(steps, lane.acks[i].delivery))
    && (forall id :: id in lane.turns ==> TurnCame(lane, lane.turns[id]))
  }

  lemma CameLater(before: seq<Step>, step: Step, lane: Inbound)
    requires AllCame(before, lane)
    ensures AllCame(before + [step], lane)
  {
    DeliveredLater(before, step);
    forall key | key in lane.events ensures EventCame(before + [step], key, lane.events[key]) {
      var d :| EventCameFrom(before, key, lane.events[key], d);
      assert EventCameFrom(before + [step], key, lane.events[key], d);
    }
  }

  lemma TurnsStillCame(a: Inbound, b: Inbound)
    requires forall key :: key in a.events ==> key in b.events && b.events[key] == a.events[key]
    requires forall id :: id in a.turns ==> TurnCame(a, a.turns[id])
    ensures forall id :: id in a.turns ==> TurnCame(b, a.turns[id])
  {
    forall id | id in a.turns ensures TurnCame(b, a.turns[id]) {
      var key :| key in a.events && TurnTells(a.turns[id], a.events[key]);
      assert key in b.events && TurnTells(a.turns[id], b.events[key]);
    }
  }

  lemma CommitCame(steps: seq<Step>, lane: Inbound, r: nat, d: Delivery, ok: bool, clash: bool, auditId: string)
    requires AllCame(steps, lane) && WasDelivered(steps, d)
    ensures AllCame(steps, Commits(lane, r, d, ok, clash, auditId))
  {
    var next := Commits(lane, r, d, ok, clash, auditId);
    TurnsStillCame(lane, next);
    forall key | key in next.events ensures EventCame(steps, key, next.events[key]) {
      if key !in lane.events { assert EventCameFrom(steps, key, next.events[key], d); }
    }
  }

  lemma QueueCame(steps: seq<Step>, lane: Inbound, r: nat, d: Delivery, newTurn: string, now: int)
    requires AllCame(steps, lane) && WasDelivered(steps, d) && DedupKey(d) in lane.events && newTurn !in lane.turns
    ensures AllCame(steps, Queues(lane, r, d, newTurn, now))
  {
    var next := Queues(lane, r, d, newTurn, now);
    TurnsStillCame(lane, next);
    assert EventCame(steps, DedupKey(d), lane.events[DedupKey(d)]);
    if newTurn in next.turns { assert TurnTells(next.turns[newTurn], next.events[DedupKey(d)]); }
  }

  lemma StepCame(steps: seq<Step>, lane: Inbound, step: Step)
    requires AllCame(steps, lane) && (step.Receive? ==> WasDelivered(steps, step.delivery))
    ensures AllCame(steps, Next(lane, step))
  {
    match step
    case Receive(r, d) => if r !in lane.requests { ReceiveCame(steps, lane, r, d); }
    case Crash => RequestsEnd(steps, lane, lane.requests.Keys);
    case Commit(r, ok, clash, auditId) =>
      if r in lane.requests && lane.requests[r].Recording? {
        CommitCame(steps, lane, r, lane.requests[r].delivery, ok, clash, auditId);
      }
    case Queue(r, ok, newTurn, now) => QueueStepCame(steps, lane, r, ok, newTurn, now);
  }

  lemma RequestsEnd(steps: seq<Step>, lane: Inbound, which: set<nat>)
    requires AllCame(steps, lane)
    ensures AllCame(steps, lane.(requests := lane.requests - which))
  {
    TurnsStillCame(lane, lane.(requests := lane.requests - which));
  }

  lemma ReceiveCame(steps: seq<Step>, lane: Inbound, r: nat, d: Delivery)
    requires AllCame(steps, lane) && WasDelivered(steps, d) && r !in lane.requests
    ensures AllCame(steps, Next(lane, Receive(r, d)))
  {
    TurnsStillCame(lane, Next(lane, Receive(r, d)));
  }

  lemma QueueStepCame(steps: seq<Step>, lane: Inbound, r: nat, ok: bool, newTurn: string, now: int)
    requires AllCame(steps, lane)
    ensures AllCame(steps, Next(lane, Queue(r, ok, newTurn, now)))
  {
    if r in lane.requests && newTurn !in lane.turns && DedupKey(lane.requests[r].delivery) in lane.events {
      if ok {
        QueueCame(steps, lane, r, lane.requests[r].delivery, newTurn, now);
      } else {
        RequestsEnd(steps, lane, {r});
      }
    }
  }

  lemma {:induction false} AlwaysCame(steps: seq<Step>)
    ensures AllCame(steps, Run(Fresh, steps))
  {
    if steps != [] {
      var before, step := steps[..|steps| - 1], steps[|steps| - 1];
      assert steps == before + [step];
      AlwaysCame(before);
      CameLater(before, step, Run(Fresh, before));
      DeliveredLater(before, step);
      StepCame(steps, Run(Fresh, before), step);
    }
  }

  /** In every run: an acknowledgement answers a delivery, and the event it names is on
      record, came from a delivery and says what that delivery said; unless a component
      contains the separator, that was a delivery of the same message. */
  lemma AcknowledgedMessageIsOnRecord(steps: seq<Step>, i: nat) returns (key: string, first: Delivery)
    requires i < |Run(Fresh, steps).acks|
    ensures var lane := Run(Fresh, steps); var ack := lane.acks[i];
      && WasDelivered(steps, ack.delivery) && WasDelivered(steps, first)
      && key in lane.events && lane.events[key].eventId == ack.auditId && Tells(lane.events[key], first)
      && (Plain(ack.delivery) || Plain(first) ==> SameMessage(first, ack.delivery))
  {
    AlwaysCame(steps);
    AlwaysSound(Fresh, steps);
    var lane := Run(Fresh, steps);
    key := DedupKey(lane.acks[i].delivery);
    first :| EventCameFrom(steps, key, lane.events[key], first);
    if Plain(lane.acks[i].delivery) { PlainKeysAreReadable(lane.acks[i].delivery, first); }
    if Plain(first) { PlainKeysAreReadable(first, lane.acks[i].delivery); }
  }

  /** Every acknowledgement of a message names the event its delivery's key leads to. */
  lemma AcksNameKeys(steps: seq<Step>, i: nat, j: nat)
    requires i < |Run(Fresh, steps).acks| && j < |Run(Fresh, steps).acks|
    ensures var acks := Run(Fresh, steps).acks;
      acks[i].auditId == acks[j].auditId <==> DedupKey(acks[i].delivery) == DedupKey(acks[j].delivery)
  {
    AlwaysCame(steps);
    AlwaysSound(Fresh, steps);
  }

  lemma RunTwice(lane: Inbound, steps: seq<Step>, a: Step, b: Step)
    ensures Run(lane, steps + [a, b]) == Next(Next(Run(lane, steps), a), b)
  {
    RunMore(lane, steps, a);
    RunMore(lane, steps + [a], b);
    assert steps + [a] + [b] == steps + [a, b];
  }

  /** A message recorded, queued and acknowledged. */
  lemma QueuedRun(d: Delivery) returns (steps: seq<Step>)
    ensures steps == [Receive(0, d), Commit(0, true, false, "a"), Queue(0, true, "t", 0)]
    ensures Run(Fresh, steps) == Inbound(map[DedupKey(d) := EventOf(d, "a")],
                                         map["t" := TurnInbox.NewTurn(TurnInbox.FromChannel(EventOf(d, "a")), 0)],
                                         map[], [Ack(d, "a", false)])
  {
    RunTwice(Fresh, [], Receive(0, d), Commit(0, true, false, "a"));
    var before := [] + [Receive(0, d), Commit(0, true, false, "a")];
    assert Run(Fresh, before) == Inbound(map[DedupKey(d) := EventOf(d, "a")], map[], map[0 := Recorded(d)], []);
    RunMore(Fresh, before, Queue(0, true, "t", 0));
    steps := before + [Queue(0, true, "t", 0)];
    assert !TurnInbox.HasSource(map[], Source(EventOf(d, "a")));
  }

  /** Two deliveries with one key: the second is acknowledged with the first one's event. */
  lemma MergedRun(d: Delivery, e: Delivery) returns (steps: seq<Step>)
    requires DedupKey(d) == DedupKey(e)
    ensures Run(Fresh, steps).acks == [Ack(d, "a", false), Ack(e, "a", true)]
  {
    steps := QueuedRun(d);
    RunMore(Fresh, steps, Receive(1, e));
    steps := steps + [Receive(1, e)];
  }

  /** What one delivery shares its event with. */
  ghost predicate SharesOnlyItself(d: Delivery) {
    forall steps, i, j, e :: Acked(steps, i, d) && Acked(steps, j, e) && SameEvent(steps, i, j) ==> SameMessage(d, e)
  }

  ghost predicate SameEvent(steps: seq<Step>, i: nat, j: nat)
    requires i < |Run(Fresh, steps).acks| && j < |Run(Fresh, steps).acks|
  {
    Run(Fresh, steps).acks[i].auditId == Run(Fresh, steps).acks[j].auditId
  }

  ghost predicate Acked(steps: seq<Step>, i: int, d: Delivery) {
    0 <= i < |Run(Fresh, steps).acks| && Run(Fresh, steps).acks[i].delivery == d
  }

  /** In all runs: deliveries that are acknowledged with one event are deliveries of one
      message, exactly when no component contains the separator. */
  lemma OneMessagePerEventIff(d: Delivery)
    ensures SharesOnlyItself(d) <==> Plain(d)
  {
    if Plain(d) {
      forall steps, i, j, e | Acked(steps, i, d) && Acked(steps, j, e) && SameEvent(steps, i, j) ensures SameMessage(d, e) {
        AcksNameKeys(steps, i, j);
        PlainKeysAreReadable(d, e);
      }
    } else {
      var e := OtherReading(d);
      var steps := MergedRun(d, e);
      assert Acked(steps, 0, d) && Acked(steps, 1, e) && SameEvent(steps, 0, 1);
    }
  }

  // ---- whose text a turn carries ----

  /** The event has a turn that says what it says. */
  ghost predicate HasOwnTurn(lane: Inbound, auditId: string) {
    exists id, key :: id in lane.turns && key in lane.events && lane.events[key].eventId == auditId
      && TurnTells(lane.turns[id], lane.events[key])
  }

  ghost predicate OwnTurns(lane: Inbound) {
    forall i :: 0 <= i < |lane.acks| && !lane.acks[i].duplicate ==> HasOwnTurn(lane, lane.acks[i].auditId)
  }

  ghost predicate DeliveriesIn(steps: seq<Step>, all: set<Delivery>) {
    forall i :: 0 <= i < |steps| && steps[i].Receive? ==> steps[i].delivery in all
  }

  /** Different messages that one driver gives one message id say the same. */
  ghost predicate SourcesApart(all: set<Delivery>) {
    forall d, e :: d in all && e in all && SameSource(d, e) && DedupKey(d) != DedupKey(e) ==> d.text == e.text
  }

  predicate SameSource(d: Delivery, e: Delivery) { d.driver + ":" + d.messageId == e.driver + ":" + e.messageId }

  lemma OwnText(t: TurnInbox.Turn, event: TurnInbox.ChannelEvent, other: TurnInbox.ChannelEvent, d: Delivery, e: Delivery, all: set<Delivery>)
    requires d in all && e in all && SourcesApart(all) && Tells(event, d) && Tells(other, e)
    requires TurnTells(t, other) && t.source == Source(event) && (DedupKey(d) == DedupKey(e) ==> event == other)
    ensures TurnTells(t, event)
  {
    assert SameSource(d, e);
  }

  lemma ApartIsOwn(steps: seq<Step>, all: set<Delivery>)
    requires DeliveriesIn(steps, all) && SourcesApart(all)
    ensures OwnTurns(Run(Fresh, steps))
  {
    AlwaysCame(steps);
    AlwaysSound(Fresh, steps);
    var lane := Run(Fresh, steps);
    forall i | 0 <= i < |lane.acks| && !lane.acks[i].duplicate ensures HasOwnTurn(lane, lane.acks[i].auditId) {
      var key := DedupKey(lane.acks[i].delivery);
      var id :| id in lane.turns && lane.turns[id].source == Source(lane.events[key]);
      var other :| other in lane.events && TurnTells(lane.turns[id], lane.events[other]);
      var d :| EventCameFrom(steps, key, lane.events[key], d);
      var e :| EventCameFrom(steps, other, lane.events[other], e);
      assert d in all && e in all;
      OwnText(lane.turns[id], lane.events[key], lane.events[other], d, e, all);
    }
  }

  /** Two messages with one source: the second is acknowledged as new, and its turn is the
      first one's. */
  lemma ReusedMessageId(d: Delivery, e: Delivery) returns (steps: seq<Step>)
    requires DedupKey(d) != DedupKey(e) && SameSource(d, e) && d.text != e.text
    ensures DeliveriesIn(steps, {d, e}) && !OwnTurns(Run(Fresh, steps))
  {
    var both := BothRecorded(d, e);
    var lane := Run(Fresh, both);
    assert lane.turns["t"].source == Source(EventOf(e, "b"));
    assert TurnInbox.HasSource(lane.turns, Source(EventOf(e, "b")));
    RunMore(Fresh, both, Queue(1, true, "u", 0));
    steps := both + [Queue(1, true, "u", 0)];
    assert Run(Fresh, steps) == lane.(requests := map[], acks := lane.acks + [Ack(e, "b", false)]);
    assert Run(Fresh, steps).acks[1] == Ack(e, "b", false);
    assert !HasOwnTurn(Run(Fresh, steps), "b");
  }

  lemma BothRecorded(d: Delivery, e: Delivery) returns (steps: seq<Step>)
    requires DedupKey(d) != DedupKey(e)
    ensures DeliveriesIn(steps, {d, e})
    ensures Run(Fresh, steps) == Inbound(map[DedupKey(d) := EventOf(d, "a"), DedupKey(e) := EventOf(e, "b")],
                                         map["t" := TurnInbox.NewTurn(TurnInbox.FromChannel(EventOf(d, "a")), 0)],
                                         map[1 := Recorded(e)], [Ack(d, "a", false)])
  {
    var before := QueuedRun(d);
    RunMore(Fresh, before, Receive(1, e));
    var received := before + [Receive(1, e)];
    assert Run(Fresh, received) == Run(Fresh, before).(requests := map[1 := Recording(e)]);
    RunMore(Fresh, received, Commit(1, true, false, "b"));
    steps := received + [Commit(1, true, false, "b")];
  }

  /** Every message that was acknowledged as new has a turn with its own text, in all runs
      over some deliveries, exactly when no two messages among them share a source and
      differ in text: the inbox names a message by driver and message id, the outbox by
      driver, account and event id. */
  lemma OwnTurnIff(all: set<Delivery>)
    ensures (forall steps :: DeliveriesIn(steps, all) ==> OwnTurns(Run(Fresh, steps))) <==> SourcesApart(all)
  {
    if SourcesApart(all) {
      forall steps | DeliveriesIn(steps, all) ensures OwnTurns(Run(Fresh, steps)) { ApartIsOwn(steps, all); }
    } else {
      var d, e :| d in all && e in all && SameSource(d, e) && DedupKey(d) != DedupKey(e) && d.text != e.text;
      var steps := ReusedMessageId(d, e);
      assert DeliveriesIn(steps, all);
    }
  }
}
