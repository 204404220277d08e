/** What the caller of `requestDriver` gets, read off the history of events alone: where the
    request goes, and which answer comes first. */
module LaneAnswers {
  import opened Prelude
  import opened LaneRegistry

  /** The answer an event holds for a request that waits at a connection. */
  function AnswerIn(e: Event, c: nat, id: string): Option<Outcome> {
    match e
    case Respond(from, to, outcome) => if from == c && to == id then Some(outcome) else None
    case Timeout(of) => if of == id then Some(TimedOut) else None
    case Close(closed) => if closed == c then Some(Disconnected) else None
    case _ => None
  }

  function FirstAnswer(events: seq<Event>, i: nat, c: nat, id: string): Option<Outcome>
    requires i < |events|
  {
    if i == |events| - 1 then None
    else
      var n := |events| - 1;
      var before := FirstAnswer(events[..n], i, c, id);
      if before.Some? then before else AnswerIn(events[n], c, id)
  }

  /** The first event after `i` that holds an answer. */
  ghost predicate AnsweredBy(events: seq<Event>, i: int, j: int, c: nat, id: string) {
    0 <= i < j < |events| && AnswerIn(events[j], c, id).Some? && forall k :: i < k < j ==> AnswerIn(events[k], c, id).None?
  }

  lemma {:induction false} FirstAnswerIsFirst(events: seq<Event>, i: nat, c: nat, id: string)
    requires i < |events|
    ensures forall j :: AnsweredBy(events, i, j, c, id) ==> FirstAnswer(events, i, c, id) == AnswerIn(events[j], c, id)
    ensures (forall j :: i < j < |events| ==> AnswerIn(events[j], c, id).None?) ==> FirstAnswer(events, i, c, id).None?
  {
    if i < |events| - 1 {
      var before := events[..|events| - 1];
      FirstAnswerIsFirst(before, i, c, id);
      forall j | AnsweredBy(events, i, j, c, id) ensures FirstAnswer(events, i, c, id) == AnswerIn(events[j], c, id) {
        if j < |before| { assert AnsweredBy(before, i, j, c, id); }
      }
    }
  }

  // ---- one request through a run ----

  lemma CallStep(s: Server, e: Event, id: string, c: nat)
    requires PendingIsOpen(s) && Enabled(s, e) && id in s.calls && s.calls[id].Made? && s.calls[id].conn == c
    ensures var was := s.calls[id];
      && id in Apply(s, e).calls && Apply(s, e).calls[id].Made? && Apply(s, e).calls[id].conn == c
      && Apply(s, e).calls[id].written == (if e.Wrote? && e.id == id then Some(e.ok) else was.written)
      && (Apply(s, e).calls[id].written != Some(false) ==>
            Apply(s, e).calls[id].promise == if was.promise.Some? then was.promise else AnswerIn(e, c, id))
  {
  }

  lemma RefusedStep(s: Server, e: Event, id: string)
    requires Enabled(s, e) && id in s.calls && s.calls[id].Refused?
    ensures id in Apply(s, e).calls && Apply(s, e).calls[id].Refused?
  {
  }

  function WrittenBy(events: seq<Event>, id: string): Option<bool> {
    if Wrote(id, true) in events then Some(true) else if Wrote(id, false) in events then Some(false) else None
  }

  lemma {:induction false} KnownById(events: seq<Event>, id: string)
    requires Feasible(events) && id !in Run(events).calls
    ensures WrittenBy(events, id).None?
  {
    if events != [] {
      var before, e := events[..|events| - 1], events[|events| - 1];
      assert events == before + [e];
      KnownById(before, id);
    }
  }

  ghost predicate CallAsTold(call: Call, events: seq<Event>, i: nat, id: string, made: Call)
    requires i < |events|
  {
    if made.Refused? then call.Refused?
    else call.Made? && call.conn == made.conn && call.written == WrittenBy(events, id)
         && (call.written != Some(false) ==> call.promise == FirstAnswer(events, i, made.conn, id))
  }

  lemma {:induction false} CallFollows(events: seq<Event>, i: nat, id: string) returns (made: Call)
    requires Feasible(events) && i < |events| && events[i].Request? && events[i].id == id
    ensures Feasible(events[..i]) && Enabled(Run(events[..i]), events[i])
    ensures id in Apply(Run(events[..i]), events[i]).calls && made == Apply(Run(events[..i]), events[i]).calls[id]
    ensures id in Run(events).calls && CallAsTold(Run(events).calls[id], events, i, id, made)
    decreases |events|
  {
    var before, e := events[..|events| - 1], events[|events| - 1];
    assert events == before + [e];
    if i == |before| {
      made := Apply(Run(before), e).calls[id];
      KnownById(before, id);
    } else {
      assert before[..i] == events[..i];
      made := CallFollows(before, i, id);
      PendingHoldsOnlyOpen(before);
      if made.Made? {
        CallStep(Run(before), e, id, made.conn);
        WrittenOnce(before, e, id);
      } else {
        RefusedStep(Run(before), e, id);
      }
    }
  }

  lemma WrittenOnce(before: seq<Event>, e: Event, id: string)
    requires WrittenBy(before, id).None? || !(e.Wrote? && e.id == id)
    ensures WrittenBy(before + [e], id) == if e.Wrote? && e.id == id then Some(e.ok) else WrittenBy(before, id)
  {
  }

  /** In every run: once its frame is written, the caller of a request that was made gets
      exactly what the first of these events after the request holds: the driver's answer
      over the request's own connection, its timer, the close of that connection. Without
      one it still waits; and if writing fails it gets that failure. */
  lemma CallerGetsFirstAnswer(events: seq<Event>, i: nat, id: string)
    requires Feasible(events) && i < |events| && events[i].Request? && events[i].id == id
    ensures id in Run(events).calls
    ensures Run(events).calls[id].Made? ==> var c, got := Run(events).calls[id].conn, Returned(Run(events).calls[id]);
      && (Wrote(id, true) in events ==>
            (forall j :: AnsweredBy(events, i, j, c, id) ==> got == AnswerIn(events[j], c, id))
            && ((forall j :: i < j < |events| ==> AnswerIn(events[j], c, id).None?) ==> got.None?))
      && (Wrote(id, true) !in events && Wrote(id, false) in events ==> got == Some(WriteFailed))
      && (Wrote(id, true) !in events && Wrote(id, false) !in events ==> got.None?)
  {
    var made := CallFollows(events, i, id);
    if made.Made? { FirstAnswerIsFirst(events, i, made.conn, id); }
  }

  // ---- where a request goes ----

  ghost predicate StandsSomewhere(events: seq<Event>, c: nat) { exists driver :: Stands(events, driver, c) }

  /** The event ends a connection for writing: its own destruction or close, or a stop while
      it stands for a driver. */
  ghost predicate EndsAt(events: seq<Event>, j: int, c: nat) {
    0 <= j < |events| &&
    (events[j] == Destroy(c) || events[j] == Close(c) || (events[j] == Stop && StandsSomewhere(events[..j], c)))
  }

  ghost predicate Ended(events: seq<Event>, c: nat) { exists j :: EndsAt(events, j, c) }

  lemma EndedLonger(before: seq<Event>, e: Event, c: nat)
    ensures Ended(before + [e], c) <==>
      Ended(before, c) || e == Destroy(c) || e == Close(c) || (e == Stop && StandsSomewhere(before, c))
  {
    var events := before + [e];
    forall j | 0 <= j < |before| ensures EndsAt(events, j, c) <==> EndsAt(before, j, c) { assert events[..j] == before[..j]; }
    assert events[..|before|] == before;
    if Ended(before, c) {
      var j :| EndsAt(before, j, c);
      assert EndsAt(events, j, c);
    }
    if e == Destroy(c) || e == Close(c) || (e == Stop && StandsSomewhere(before, c)) { assert EndsAt(events, |before|, c); }
  }

  lemma DestroyedAfter(s: Server, e: Event, c: nat)
    requires Enabled(s, e) && EntriesRegistered(s)
    ensures (c in Apply(s, e).conns && Apply(s, e).conns[c].destroyed) <==>
      (c in s.conns && s.conns[c].destroyed) || e == Destroy(c) || e == Close(c) || (e == Stop && c in s.drivers.Values)
  {
  }

  lemma {:induction false} DestroyedIff(events: seq<Event>, c: nat)
    requires Feasible(events)
    ensures (c in Run(events).conns && Run(events).conns[c].destroyed) <==> Ended(events, c)
  {
    if events != [] {
      var before, e := events[..|events| - 1], events[|events| - 1];
      assert events == before + [e];
      DestroyedIff(before, c);
      AlwaysRegistered(before);
      DestroyedAfter(Run(before), e, c);
      EndedLonger(before, e, c);
      forall driver ensures (driver in Run(before).drivers && Run(before).drivers[driver] == c) <==> Stands(before, driver, c) {
        EntryIsLastRegistered(before, driver, c);
      }
      assert c in Run(before).drivers.Values <==> StandsSomewhere(before, c);
    }
  }

  /** In every run: a request is made over connection `c` exactly when the driver can take
      it, `c` is the last connection registered for it and nothing has ended `c`; without
      such a connection it is refused, for good. */
  lemma RequestGoesIff(events: seq<Event>, i: nat, id: string, c: nat)
    requires Feasible(events) && i < |events| && events[i].Request? && events[i].id == id
    ensures id in Run(events).calls
    ensures (Run(events).calls[id].Made? && Run(events).calls[id].conn == c) <==>
      events[i].capable && Stands(events[..i], events[i].driver, c) && !Ended(events[..i], c)
    ensures Run(events).calls[id].Refused? ==> Returned(Run(events).calls[id]) == Some(Error("not connected or not capable"))
  {
    var made := CallFollows(events, i, id);
    var before := events[..i];
    AlwaysRegistered(before);
    EntryIsLastRegistered(before, events[i].driver, c);
    DestroyedIff(before, c);
  }
}
