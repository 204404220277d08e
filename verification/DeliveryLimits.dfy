/** Where the delivery protocol's promises end: what a provider or an auditor may still see,
    and exactly when what is sent is what was audited. */
module DeliveryLimits {
  import opened Prelude
  import opened DeliveryLedger
  import opened Delivery

  lemma RunMore(steps: seq<Step>, step: Step)
    ensures Run(steps + [step]) == Next(Run(steps), step)
  {
    assert (steps + [step])[..|steps|] == steps;
  }

  // ---- when a drain repeats a delivery ----

  /** A driver's answer for the turn arrives. */
  predicate Answering(lane: Lane, step: Step, turn: string) {
    step.Answer? && step.p in lane.processes && lane.processes[step.p].Waiting? && lane.processes[step.p].request.turn == turn
  }

  ghost predicate ResultsOk(ledger: Ledger) {
    forall turn :: turn in ledger && ledger[turn].result.Some? ==> ledger[turn].state == SUCCEEDED
  }

  predicate IsPending(lane: Lane, turn: string) { turn in lane.ledger && lane.ledger[turn].state == PENDING }

  /** Two steps write to the ledger. */
  function LedgerAfter(lane: Lane, step: Step): Ledger {
    match step
    case ReserveAndSend(p, _, now) =>
      if p !in lane.processes || !lane.processes[p].Recorded? then lane.ledger
      else
        var r := lane.processes[p].request;
        if Answered(lane.ledger, r.turn) then CompleteAction(lane.ledger, r.turn, lane.ledger[r.turn].result, now)
        else Reserve(lane.ledger, r, now)
    case Answer(p, result, now) =>
      if p !in lane.processes || !lane.processes[p].Waiting? then lane.ledger
      else CompleteAction(lane.ledger, lane.processes[p].request.turn, result, now)
    case _ => lane.ledger
  }

  lemma ReservedLedger(lane: Lane, p: nat, r: Request, connected: bool, now: int)
    ensures ReservesAndSends(lane, p, r, connected, now).ledger ==
      if Answered(lane.ledger, r.turn) then CompleteAction(lane.ledger, r.turn, lane.ledger[r.turn].result, now)
      else Reserve(lane.ledger, r, now)
  {
  }

  lemma SuccessKeepsLedger(lane: Lane, p: nat, r: Request, rest: Option<seq<Request>>, ok: bool)
    ensures RecordsSuccess(lane, p, r, rest, ok).ledger == lane.ledger
  {
  }

  lemma LedgerStep(lane: Lane, step: Step)
    ensures Next(lane, step).ledger == LedgerAfter(lane, step)
  {
    if !step.Crash? && step.p in lane.processes {
      var was := lane.processes[step.p];
      if step.ReserveAndSend? && was.Recorded? {
        ReservedLedger(lane, step.p, was.request, step.connected, step.now);
      } else if step.RecordSuccess? && was.Succeeding? {
        SuccessKeepsLedger(lane, step.p, was.request, was.rest, step.ok);
      }
    }
  }

  lemma PendingStep(lane: Lane, step: Step, turn: string)
    requires ResultsOk(lane.ledger)
    ensures ResultsOk(Next(lane, step).ledger)
    ensures IsPending(lane, turn) ==> (IsPending(Next(lane, step), turn) <==> !Answering(lane, step, turn))
    ensures turn in lane.ledger && !IsPending(lane, turn) ==> turn in Next(lane, step).ledger && !IsPending(Next(lane, step), turn)
  {
    LedgerStep(lane, step);
  }

  lemma {:induction false} ResultsAlwaysOk(steps: seq<Step>)
    ensures ResultsOk(Run(steps).ledger)
  {
    if steps != [] {
      ResultsAlwaysOk(steps[..|steps| - 1]);
      PendingStep(Run(steps[..|steps| - 1]), steps[|steps| - 1], "");
    }
  }

  ghost predicate AnsweredBy(steps: seq<Step>, k: int, turn: string) {
    0 <= k < |steps| && Answering(Run(steps[..k]), steps[k], turn)
  }

  ghost predicate AnsweredSince(steps: seq<Step>, n: nat, turn: string) {
    exists k :: n <= k < |steps| && AnsweredBy(steps, k, turn)
  }

  lemma AnsweredLater(steps: seq<Step>, n: nat, turn: string)
    requires n < |steps|
    ensures AnsweredSince(steps, n, turn) <==>
      AnsweredSince(steps[..|steps| - 1], n, turn) || Answering(Run(steps[..|steps| - 1]), steps[|steps| - 1], turn)
  {
    var before := steps[..|steps| - 1];
    forall k | 0 <= k < |before| ensures AnsweredBy(steps, k, turn) <==> AnsweredBy(before, k, turn) {
      assert before[..k] == steps[..k];
    }
    if Answering(Run(before), steps[|steps| - 1], turn) { assert AnsweredBy(steps, |steps| - 1, turn); }
    if AnsweredSince(before, n, turn) {
      var k :| n <= k < |before| && AnsweredBy(before, k, turn);
      assert AnsweredBy(steps, k, turn);
    }
  }

  /** A row stays pending exactly until an answer for its turn arrives. */
  lemma {:induction false} PendingUntilAnswered(steps: seq<Step>, n: nat, turn: string)
    requires n <= |steps| && IsPending(Run(steps[..n]), turn)
    ensures turn in Run(steps).ledger && (IsPending(Run(steps), turn) <==> !AnsweredSince(steps, n, turn))
    decreases |steps|
  {
    if n == |steps| {
      assert steps[..n] == steps;
    } else {
      var before := steps[..|steps| - 1];
      assert before[..n] == steps[..n];
      PendingUntilAnswered(before, n, turn);
      ResultsAlwaysOk(before);
      PendingStep(Run(before), steps[|steps| - 1], turn);
      AnsweredLater(steps, n, turn);
    }
  }

  ghost predicate StartsDrain(steps: seq<Step>, n: nat) {
    && n < |steps| && steps[n].StartDrain? && steps[n].p !in Run(steps[..n]).processes && NoDrain(Run(steps[..n]))
    && IsPendingList(Run(steps[..n]).ledger, steps[n].now - SETTLE_MS, steps[n].list)
  }

  /** Exactly when the drain sends what was already delivered: in any run that goes on with
      the drain sending a request of the list made at step `n`, the request's action has
      succeeded before if and only if a driver answered for it since the list was made; and
      without such an answer it has no success event either. */
  lemma DrainRepeatsIff(steps: seq<Step>, n: nat, p: nat, r: Request)
    requires StartsDrain(steps, n) && r in steps[n].list
    requires Run(steps + [DrainNext(p, true)]).log == Run(steps).log + [Entry(SentByDrain, r)]
    ensures r.turn in Run(steps).ledger
    ensures Run(steps).ledger[r.turn].state == SUCCEEDED <==> AnsweredSince(steps, n, r.turn)
    ensures r.turn in Run(steps).succeeded ==> AnsweredSince(steps, n, r.turn)
  {
    var i :| 0 <= i < |steps[n].list| && steps[n].list[i] == r;
    ListedIsPending(Run(steps[..n]).ledger, steps[n].now - SETTLE_MS, steps[n].list, i);
    PendingUntilAnswered(steps, n, r.turn);
    AlwaysSound(steps);
  }

  /** A drain whose list was made while a reply was still waiting sends the same request
      again after the reply has succeeded: providers may see a message twice. */
  lemma DrainMayRepeat(r: Request) returns (steps: seq<Step>)
    ensures Run(steps).log == FirstLog(r) + [Entry(SuccessRecorded, r), Entry(SentByDrain, r)]
    ensures r.turn in Run(steps).ledger && Run(steps).ledger[r.turn].state == SUCCEEDED
  {
    var a := FirstSend(r);
    var b := DrainDuringFirst(a, r);
    var c := b + [Answer(0, Some("ok"), 1)];
    RunMore(b, Answer(0, Some("ok"), 1));
    assert Run(c) == Answers(Run(b), 0, r, None, Some("ok"), 1);
    steps := DrainAfterSuccess(c, r);
  }

  lemma DrainDuringFirst(a: seq<Step>, r: Request) returns (b: seq<Step>)
    requires Run(a).processes == map[0 := Waiting(r, None)] && Run(a).ledger == map[r.turn := Row(r, PENDING, None, 0, 0)]
    ensures Run(b) == With(Run(a), 1, Draining([r]))
  {
    ListOfOne(Run(a).ledger, r);
    b := a + [StartDrain(1, [r], SETTLE_MS)];
    RunMore(a, StartDrain(1, [r], SETTLE_MS));
  }

  lemma DrainAfterSuccess(before: seq<Step>, r: Request) returns (steps: seq<Step>)
    requires var lane := Run(before);
      && lane.processes == map[0 := Succeeding(r, Some("ok"), None), 1 := Draining([r])]
      && lane.succeeded == map[] && r.turn in lane.ledger && lane.ledger[r.turn].state == SUCCEEDED
    ensures Run(steps).log == Run(before).log + [Entry(SuccessRecorded, r), Entry(SentByDrain, r)]
    ensures Run(steps).ledger == Run(before).ledger
  {
    var c := before + [RecordSuccess(0, true)];
    RunMore(before, RecordSuccess(0, true));
    assert Run(c) == RecordsSuccess(Run(before), 0, r, None, true);
    assert Run(c).processes == map[1 := Draining([r])];
    steps := c + [DrainNext(1, true)];
    RunMore(c, DrainNext(1, true));
    assert Run(steps) == DrainsNext(Run(c), 1, [r], true);
  }

  lemma ListOfOne(ledger: Ledger, r: Request)
    requires ledger == map[r.turn := Row(r, PENDING, None, 0, 0)]
    ensures IsPendingList(ledger, 0, [r])
  {
    assert Turns([r]) == [r.turn];
    assert PendingSince(ledger, 0) == {r.turn};
  }

  function FirstLog(r: Request): seq<Entry> { [Entry(RequestRecorded, r), Entry(Reserved, r), Entry(SentByReply, r)] }

  /** A reply up to its send, at time 0. */
  lemma FirstSend(r: Request) returns (steps: seq<Step>)
    ensures Run(steps) == Lane(map[r.turn := r], map[], {}, map[r.turn := Row(r, PENDING, None, 0, 0)], map[0 := Waiting(r, None)], FirstLog(r))
    ensures AsksIn(steps, {r})
  {
    var a := [] + [Ask(0, r)];
    RunMore([], Ask(0, r));
    var b := a + [RecordRequest(0, true)];
    RunMore(a, RecordRequest(0, true));
    steps := b + [ReserveAndSend(0, true, 0)];
    RunMore(b, ReserveAndSend(0, true, 0));
  }

  /** Everything that was sent is what its turn's request event says. */
  ghost predicate SentAsAudited(lane: Lane) {
    forall i :: 0 <= i < |lane.log| && WasSent(lane.log[i]) ==>
      lane.log[i].request.turn in lane.requested && lane.requested[lane.log[i].request.turn] == lane.log[i].request
  }

  ghost predicate AsksIn(steps: seq<Step>, asked: set<Request>) {
    forall i :: 0 <= i < |steps| && steps[i].Ask? ==> steps[i].request in asked
  }

  ghost predicate OneText(asked: set<Request>) { forall a, b :: a in asked && b in asked && a.turn == b.turn ==> a == b }

  ghost predicate ListWithin(list: seq<Request>, asked: set<Request>) { forall r :: r in list ==> r in asked }

  ghost predicate ProcessWithin(p: Process, asked: set<Request>) {
    match p
    case Recording(r) => r in asked
    case Recorded(r) => r in asked
    case Waiting(r, rest) => r in asked && (rest.Some? ==> ListWithin(rest.value, asked))
    case Succeeding(r, _, rest) => r in asked && (rest.Some? ==> ListWithin(rest.value, asked))
    case Draining(list) => ListWithin(list, asked)
  }

  ghost predicate ProcessesWithin(lane: Lane, asked: set<Request>) {
    forall p :: p in lane.processes ==> ProcessWithin(lane.processes[p], asked)
  }

  ghost predicate TablesWithin(lane: Lane, asked: set<Request>) {
    && (forall turn :: turn in lane.requested ==> lane.requested[turn] in asked && lane.requested[turn].turn == turn)
    && (forall turn :: turn in lane.ledger ==> lane.ledger[turn].request in asked)
    && (forall e :: e in lane.log ==> e.request in asked)
  }

  lemma RequestWithin(lane: Lane, p: nat, r: Request, ok: bool, asked: set<Request>)
    requires TablesWithin(lane, asked) && r in asked
    ensures TablesWithin(RecordsRequest(lane, p, r, ok), asked)
  {
  }

  lemma ReserveWithin(lane: Lane, p: nat, r: Request, connected: bool, now: int, asked: set<Request>)
    requires TablesWithin(lane, asked) && r in asked
    ensures TablesWithin(ReservesAndSends(lane, p, r, connected, now), asked)
  {
  }

  lemma SuccessWithin(lane: Lane, p: nat, r: Request, rest: Option<seq<Request>>, ok: bool, asked: set<Request>)
    requires TablesWithin(lane, asked) && r in asked
    ensures TablesWithin(RecordsSuccess(lane, p, r, rest, ok), asked)
  {
  }

  lemma DrainWithin(lane: Lane, p: nat, list: seq<Request>, connected: bool, asked: set<Request>)
    requires TablesWithin(lane, asked) && ListWithin(list, asked)
    ensures TablesWithin(DrainsNext(lane, p, list, connected), asked)
  {
    if list != [] { assert list[0] in list; }
  }

  lemma TablesStayWithin(lane: Lane, step: Step, asked: set<Request>)
    requires ProcessesWithin(lane, asked) && TablesWithin(lane, asked)
    ensures TablesWithin(Next(lane, step), asked)
  {
    if step.Crash? || step.p !in lane.processes {
    } else {
      var was := lane.processes[step.p];
      assert ProcessWithin(was, asked);
      match step
      case RecordRequest(p, ok) => if was.Recording? { RequestWithin(lane, p, was.request, ok, asked); }
      case ReserveAndSend(p, connected, now) => if was.Recorded? { ReserveWithin(lane, p, was.request, connected, now, asked); }
      case RecordSuccess(p, ok) => if was.Succeeding? { SuccessWithin(lane, p, was.request, was.rest, ok, asked); }
      case DrainNext(p, connected) => if was.Draining? { DrainWithin(lane, p, was.list, connected, asked); }
      case _ =>
    }
  }

  /** One process moves, the others are where they were. */
  lemma OneMovesWithin(lane: Lane, next: Lane, p: nat, asked: set<Request>)
    requires ProcessesWithin(lane, asked)
    requires forall q :: q in next.processes && q != p ==> q in lane.processes && next.processes[q] == lane.processes[q]
    requires p in next.processes ==> ProcessWithin(next.processes[p], asked)
    ensures ProcessesWithin(next, asked)
  {
  }

  lemma DrainMovesWithin(lane: Lane, p: nat, list: seq<Request>, connected: bool, asked: set<Request>)
    requires ProcessesWithin(lane, asked) && ListWithin(list, asked)
    ensures ProcessesWithin(DrainsNext(lane, p, list, connected), asked)
  {
    if list != [] { assert list[0] in list && ListWithin(list[1..], asked); }
    OneMovesWithin(lane, DrainsNext(lane, p, list, connected), p, asked);
  }

  lemma ListedWithin(lane: Lane, p: nat, list: seq<Request>, now: int, asked: set<Request>)
    requires ProcessesWithin(lane, asked) && TablesWithin(lane, asked)
    ensures ProcessesWithin(Next(lane, StartDrain(p, list, now)), asked)
  {
    var started := StartDrainOutcome(lane, p, list, now);
    if started { OneMovesWithin(lane, With(lane, p, Draining(list)), p, asked); }
  }

  lemma RequestMovesWithin(lane: Lane, p: nat, r: Request, ok: bool, asked: set<Request>)
    requires ProcessesWithin(lane, asked) && r in asked
    ensures ProcessesWithin(RecordsRequest(lane, p, r, ok), asked)
  {
    OneMovesWithin(lane, RecordsRequest(lane, p, r, ok), p, asked);
  }

  lemma ReserveMovesWithin(lane: Lane, p: nat, r: Request, connected: bool, now: int, asked: set<Request>)
    requires ProcessesWithin(lane, asked) && r in asked
    ensures ProcessesWithin(ReservesAndSends(lane, p, r, connected, now), asked)
  {
    OneMovesWithin(lane, ReservesAndSends(lane, p, r, connected, now), p, asked);
  }

  lemma GoesOnWithin(lane: Lane, p: nat, rest: Option<seq<Request>>, asked: set<Request>)
    requires ProcessesWithin(lane, asked) && (rest.Some? ==> ListWithin(rest.value, asked))
    ensures ProcessesWithin(GoesOn(lane, p, rest), asked)
  {
    OneMovesWithin(lane, GoesOn(lane, p, rest), p, asked);
  }

  lemma SuccessMovesWithin(lane: Lane, p: nat, r: Request, rest: Option<seq<Request>>, ok: bool, asked: set<Request>)
    requires ProcessesWithin(lane, asked) && (rest.Some? ==> ListWithin(rest.value, asked))
    ensures ProcessesWithin(RecordsSuccess(lane, p, r, rest, ok), asked)
  {
    GoesOnWithin(lane, p, rest, asked);
    if ok {
      var recorded := if r.turn in lane.succeeded then lane
                      else Logged(lane.(succeeded := lane.succeeded[r.turn := r]), Entry(SuccessRecorded, r));
      GoesOnWithin(recorded.(completed := recorded.completed + {r.turn}), p, rest, asked);
    }
  }

  lemma AnswerMovesWithin(lane: Lane, p: nat, result: Option<string>, now: int, asked: set<Request>)
    requires ProcessesWithin(lane, asked)
    ensures ProcessesWithin(Next(lane, Answer(p, result, now)), asked)
  {
    if p in lane.processes && lane.processes[p].Waiting? {
      assert ProcessWithin(lane.processes[p], asked);
      OneMovesWithin(lane, Next(lane, Answer(p, result, now)), p, asked);
    }
  }

  lemma ProcessesStayWithin(lane: Lane, step: Step, asked: set<Request>)
    requires ProcessesWithin(lane, asked) && TablesWithin(lane, asked) && (step.Ask? ==> step.request in asked)
    ensures ProcessesWithin(Next(lane, step), asked)
  {
    var was: Process := if step.Crash? || step.p !in lane.processes then Draining([]) else lane.processes[step.p];
    assert ProcessWithin(was, asked);
    match step
    case Crash =>
    case Ask(p, _) => OneMovesWithin(lane, Next(lane, step), p, asked);
    case StartDrain(p, list, now) => ListedWithin(lane, p, list, now, asked);
    case RecordRequest(p, ok) => if was.Recording? { RequestMovesWithin(lane, p, was.request, ok, asked); }
    case ReserveAndSend(p, connected, now) => if was.Recorded? { ReserveMovesWithin(lane, p, was.request, connected, now, asked); }
    case Answer(p, result, now) => AnswerMovesWithin(lane, p, result, now, asked);
    case Refuse(p) => if was.Waiting? { GoesOnWithin(lane, p, was.rest, asked); }
    case RecordSuccess(p, ok) => if was.Succeeding? { SuccessMovesWithin(lane, p, was.request, was.rest, ok, asked); }
    case DrainNext(p, connected) => if was.Draining? { DrainMovesWithin(lane, p, was.list, connected, asked); }
  }

  lemma {:induction false} AlwaysWithin(steps: seq<Step>, asked: set<Request>)
    requires AsksIn(steps, asked)
    ensures ProcessesWithin(Run(steps), asked) && TablesWithin(Run(steps), asked)
  {
    if steps != [] {
      AlwaysWithin(steps[..|steps| - 1], asked);
      TablesStayWithin(Run(steps[..|steps| - 1]), steps[|steps| - 1], asked);
      ProcessesStayWithin(Run(steps[..|steps| - 1]), steps[|steps| - 1], asked);
    }
  }

  lemma OneTextIsAudited(steps: seq<Step>, asked: set<Request>)
    requires AsksIn(steps, asked) && OneText(asked)
    ensures SentAsAudited(Run(steps))
  {
    AlwaysWithin(steps, asked);
    var lane := Run(steps);
    forall i | 0 <= i < |lane.log| && WasSent(lane.log[i])
      ensures lane.log[i].request.turn in lane.requested && lane.requested[lane.log[i].request.turn] == lane.log[i].request
    {
      var j := AuditBeforeAction(steps, i);
      AlwaysSound(steps);
      LoggedIsWritten(lane.log, j);
      assert lane.log[i] in lane.log;
    }
  }

  /** A turn answered again with another text, here after a crash (the worker's error reply
      behind a failed one does the same): the first text stays in the request event, the
      second one is sent. */
  lemma RetryMaySendOther(a: Request, b: Request) returns (steps: seq<Step>)
    requires a.turn == b.turn && a != b
    ensures AsksIn(steps, {a, b}) && !SentAsAudited(Run(steps))
  {
    var s1 := [] + [Ask(0, a)];
    var s2 := s1 + [RecordRequest(0, true)];
    var s3 := s2 + [Crash];
    RunMore([], Ask(0, a));
    RunMore(s1, RecordRequest(0, true));
    RunMore(s2, Crash);
    assert Run(s3) == Lane(map[a.turn := a], map[], {}, map[], map[], [Entry(RequestRecorded, a)]);
    steps := SecondText(s3, a, b);
    assert WasSent(Run(steps).log[2]);
  }

  lemma SecondText(before: seq<Step>, a: Request, b: Request) returns (steps: seq<Step>)
    requires Run(before) == Lane(map[a.turn := a], map[], {}, map[], map[], [Entry(RequestRecorded, a)]) && a.turn == b.turn
    ensures steps == before + [Ask(0, b)] + [RecordRequest(0, true)] + [ReserveAndSend(0, true, 0)]
    ensures Run(steps).requested == map[a.turn := a]
    ensures Run(steps).log == [Entry(RequestRecorded, a), Entry(Reserved, b), Entry(SentByReply, b)]
  {
    var s1 := before + [Ask(0, b)];
    var s2 := s1 + [RecordRequest(0, true)];
    steps := s2 + [ReserveAndSend(0, true, 0)];
    RunMore(before, Ask(0, b));
    RunMore(s1, RecordRequest(0, true));
    assert Run(s2) == With(Run(before), 0, Recorded(b));
    RunMore(s2, ReserveAndSend(0, true, 0));
  }

  /** … and a crash between a driver's answer and the success event lets that event name a
      request that was never sent. */
  lemma SuccessMayNameUnsent(a: Request, b: Request) returns (steps: seq<Step>)
    requires a.turn == b.turn && a != b
    ensures Run(steps).succeeded == map[a.turn := b]
    ensures Run(steps).log == FirstLog(a) + [Entry(SuccessRecorded, b)]
    ensures AsksIn(steps, {a, b})
  {
    var s2 := CrashAfterAnswer(a);
    var s3 := s2 + [Ask(0, b)];
    RunMore(s2, Ask(0, b));
    var s4 := s3 + [RecordRequest(0, true)];
    RunMore(s3, RecordRequest(0, true));
    assert Run(s4).processes == map[0 := Recorded(b)] && Run(s4).log == FirstLog(a) && Run(s4).succeeded == map[];
    steps := SuccessWithoutSend(s4, b);
  }

  lemma CrashAfterAnswer(a: Request) returns (steps: seq<Step>)
    ensures var lane := Run(steps);
      && lane.processes == map[] && lane.log == FirstLog(a) && lane.succeeded == map[] && lane.requested == map[a.turn := a]
      && Answered(lane.ledger, a.turn)
    ensures AsksIn(steps, {a})
  {
    var first := FirstSend(a);
    var answered := first + [Answer(0, Some("ok"), 0)];
    RunMore(first, Answer(0, Some("ok"), 0));
    assert Run(answered) == Answers(Run(first), 0, a, None, Some("ok"), 0);
    steps := answered + [Crash];
    RunMore(answered, Crash);
  }

  lemma SuccessWithoutSend(before: seq<Step>, b: Request) returns (steps: seq<Step>)
    requires Run(before).processes == map[0 := Recorded(b)] && Run(before).succeeded == map[] && Answered(Run(before).ledger, b.turn)
    ensures Run(steps).succeeded == map[b.turn := b] && Run(steps).log == Run(before).log + [Entry(SuccessRecorded, b)]
    ensures steps == before + [ReserveAndSend(0, true, 0)] + [RecordSuccess(0, true)]
  {
    var c := before + [ReserveAndSend(0, true, 0)];
    RunMore(before, ReserveAndSend(0, true, 0));
    steps := c + [RecordSuccess(0, true)];
    RunMore(c, RecordSuccess(0, true));
  }

  // ---- what a success event names ----

  ghost function SentTurns(log: seq<Entry>): set<string> {
    if log == [] then {}
    else SentTurns(log[..|log| - 1]) + (if WasSent(log[|log| - 1]) then {log[|log| - 1].request.turn} else {})
  }

  ghost predicate SuccessesSent(log: seq<Entry>) {
    log == [] ||
    (SuccessesSent(log[..|log| - 1])
     && (log[|log| - 1].kind.SuccessRecorded? ==> log[|log| - 1].request.turn in SentTurns(log[..|log| - 1])))
  }

  /** Whoever waits for an answer or has one was preceded by a send for the turn. */
  ghost predicate SendsFirst(lane: Lane) {
    && (forall p :: p in lane.processes && (lane.processes[p].Waiting? || lane.processes[p].Succeeding?) ==>
          lane.processes[p].request.turn in SentTurns(lane.log))
    && (forall turn :: turn in lane.ledger && lane.ledger[turn].state == SUCCEEDED ==> turn in SentTurns(lane.log))
    && SuccessesSent(lane.log)
  }

  lemma LogSends(log: seq<Entry>, e: Entry)
    ensures SentTurns(log + [e]) == SentTurns(log) + (if WasSent(e) then {e.request.turn} else {})
    ensures SuccessesSent(log) && (e.kind.SuccessRecorded? ==> e.request.turn in SentTurns(log)) ==> SuccessesSent(log + [e])
  {
    assert (log + [e])[..|log|] == log;
  }

  /** Whoever was preceded by a send still is; newcomers are looked at one by one. */
  lemma SendsCarryOver(lane: Lane, next: Lane, p: nat)
    requires SendsFirst(lane) && SuccessesSent(next.log) && SentTurns(lane.log) <= SentTurns(next.log)
    requires forall q :: q in next.processes && q != p ==> q in lane.processes && next.processes[q] == lane.processes[q]
    requires p in next.processes && (next.processes[p].Waiting? || next.processes[p].Succeeding?) ==>
      next.processes[p].request.turn in SentTurns(next.log)
    requires forall turn :: turn in next.ledger && next.ledger[turn].state == SUCCEEDED ==>
      (turn in lane.ledger && lane.ledger[turn].state == SUCCEEDED) || turn in SentTurns(next.log)
    ensures SendsFirst(next)
  {
  }

  lemma StoredAnswerSendsFirst(lane: Lane, p: nat, r: Request, connected: bool, now: int)
    requires SendsFirst(lane) && Answered(lane.ledger, r.turn) && lane.ledger[r.turn].state == SUCCEEDED
    ensures SendsFirst(ReservesAndSends(lane, p, r, connected, now))
  {
    SendsCarryOver(lane, ReservesAndSends(lane, p, r, connected, now), p);
  }

  lemma ReserveSendsFirst(lane: Lane, p: nat, r: Request, connected: bool, now: int)
    requires SendsFirst(lane) && !Answered(lane.ledger, r.turn)
    ensures SendsFirst(ReservesAndSends(lane, p, r, connected, now))
  {
    var next := ReservesAndSends(lane, p, r, connected, now);
    LogSends(lane.log, Entry(Reserved, r));
    var log := if r.turn in lane.ledger then lane.log else lane.log + [Entry(Reserved, r)];
    LogSends(log, Entry(SentByReply, r));
    assert next.log == if connected then log + [Entry(SentByReply, r)] else log;
    SendsCarryOver(lane, next, p);
  }

  lemma RequestSends(lane: Lane, p: nat, ok: bool)
    requires SendsFirst(lane) && ResultsOk(lane.ledger)
    ensures SendsFirst(Next(lane, RecordRequest(p, ok)))
  {
    if p in lane.processes && lane.processes[p].Recording? {
      LogSends(lane.log, Entry(RequestRecorded, lane.processes[p].request));
      SendsCarryOver(lane, Next(lane, RecordRequest(p, ok)), p);
    }
  }

  lemma ReserveSends(lane: Lane, p: nat, connected: bool, now: int)
    requires SendsFirst(lane) && ResultsOk(lane.ledger)
    ensures SendsFirst(Next(lane, ReserveAndSend(p, connected, now)))
  {
    if p in lane.processes && lane.processes[p].Recorded? {
      var r := lane.processes[p].request;
      if Answered(lane.ledger, r.turn) {
        StoredAnswerSendsFirst(lane, p, r, connected, now);
      } else {
        ReserveSendsFirst(lane, p, r, connected, now);
      }
    }
  }

  lemma AnswerSends(lane: Lane, p: nat, result: Option<string>, now: int)
    requires SendsFirst(lane) && ResultsOk(lane.ledger)
    ensures SendsFirst(Next(lane, Answer(p, result, now)))
  {
    if p in lane.processes && lane.processes[p].Waiting? {
      SendsCarryOver(lane, Next(lane, Answer(p, result, now)), p);
    }
  }

  lemma RefuseSends(lane: Lane, p: nat)
    requires SendsFirst(lane) && ResultsOk(lane.ledger)
    ensures SendsFirst(Next(lane, Refuse(p)))
  {
    if p in lane.processes && lane.processes[p].Waiting? {
      SendsCarryOver(lane, Next(lane, Refuse(p)), p);
    }
  }

  lemma RecordedSends(lane: Lane, p: nat, r: Request, rest: Option<seq<Request>>, ok: bool)
    requires SendsFirst(lane) && r.turn in SentTurns(lane.log)
    ensures SendsFirst(RecordsSuccess(lane, p, r, rest, ok))
  {
    LogSends(lane.log, Entry(SuccessRecorded, r));
    SendsCarryOver(lane, RecordsSuccess(lane, p, r, rest, ok), p);
  }

  lemma SuccessSends(lane: Lane, p: nat, ok: bool)
    requires SendsFirst(lane)
    ensures SendsFirst(Next(lane, RecordSuccess(p, ok)))
  {
    if p in lane.processes && lane.processes[p].Succeeding? {
      RecordedSends(lane, p, lane.processes[p].request, lane.processes[p].rest, ok);
    }
  }

  lemma DrainSends(lane: Lane, p: nat, connected: bool)
    requires SendsFirst(lane) && ResultsOk(lane.ledger)
    ensures SendsFirst(Next(lane, DrainNext(p, connected)))
  {
    if p in lane.processes && lane.processes[p].Draining? {
      if lane.processes[p].list != [] { LogSends(lane.log, Entry(SentByDrain, lane.processes[p].list[0])); }
      SendsCarryOver(lane, Next(lane, DrainNext(p, connected)), p);
    }
  }

  lemma NewcomerSends(lane: Lane, p: nat, process: Process)
    requires SendsFirst(lane) && !process.Waiting? && !process.Succeeding?
    ensures SendsFirst(With(lane, p, process))
  {
    SendsCarryOver(lane, With(lane, p, process), p);
  }

  lemma SendsStayFirst(lane: Lane, step: Step)
    requires SendsFirst(lane) && ResultsOk(lane.ledger)
    ensures SendsFirst(Next(lane, step))
  {
    match step
    case RecordRequest(p, ok) => RequestSends(lane, p, ok);
    case ReserveAndSend(p, connected, now) => ReserveSends(lane, p, connected, now);
    case Answer(p, result, now) => AnswerSends(lane, p, result, now);
    case Refuse(p) => RefuseSends(lane, p);
    case RecordSuccess(p, ok) => SuccessSends(lane, p, ok);
    case DrainNext(p, connected) => DrainSends(lane, p, connected);
    case Ask(p, r) => NewcomerSends(lane, p, Recording(r));
    case StartDrain(p, list, _) => NewcomerSends(lane, p, Draining(list));
    case Crash =>
  }

  lemma {:induction false} AlwaysSendsFirst(steps: seq<Step>)
    ensures SendsFirst(Run(steps))
  {
    if steps != [] {
      AlwaysSendsFirst(steps[..|steps| - 1]);
      ResultsAlwaysOk(steps[..|steps| - 1]);
      SendsStayFirst(Run(steps[..|steps| - 1]), steps[|steps| - 1]);
    }
  }

  lemma {:induction false} SentTurnWasSent(log: seq<Entry>, turn: string) returns (j: nat)
    requires turn in SentTurns(log)
    ensures j < |log| && WasSent(log[j]) && log[j].request.turn == turn
  {
    var n := |log| - 1;
    if WasSent(log[n]) && log[n].request.turn == turn { j := n; } else { j := SentTurnWasSent(log[..n], turn); }
  }

  /** In every run: behind every success event there is a send for its turn. */
  lemma {:induction false} SuccessWasSent(log: seq<Entry>, i: nat) returns (j: nat)
    requires SuccessesSent(log) && i < |log| && log[i].kind.SuccessRecorded?
    ensures j < i && WasSent(log[j]) && log[j].request.turn == log[i].request.turn
  {
    var n := |log| - 1;
    if i == n {
      j := SentTurnWasSent(log[..n], log[i].request.turn);
    } else {
      j := SuccessWasSent(log[..n], i);
    }
  }

  ghost predicate IsSentBefore(log: seq<Entry>, i: nat, r: Request)
    requires i <= |log|
  {
    exists j :: 0 <= j < i && WasSent(log[j]) && log[j].request == r
  }

  /** Every success event names a request that was sent before it. */
  ghost predicate SuccessNamesSent(lane: Lane) {
    forall i :: 0 <= i < |lane.log| && lane.log[i].kind.SuccessRecorded? ==> IsSentBefore(lane.log, i, lane.log[i].request)
  }

  lemma OneTextNamesSent(steps: seq<Step>, asked: set<Request>)
    requires AsksIn(steps, asked) && OneText(asked)
    ensures SuccessNamesSent(Run(steps))
  {
    AlwaysWithin(steps, asked);
    AlwaysSendsFirst(steps);
    var log := Run(steps).log;
    forall i | 0 <= i < |log| && log[i].kind.SuccessRecorded? ensures IsSentBefore(log, i, log[i].request) {
      var j := SuccessWasSent(log, i);
      assert log[i] in log && log[j] in log;
    }
  }

  /** Success events name what was sent, in every run, exactly when a turn is never answered
      with two different requests. */
  lemma NamedIffOneText(asked: set<Request>)
    ensures OneText(asked) <==> forall steps :: AsksIn(steps, asked) ==> SuccessNamesSent(Run(steps))
  {
    if OneText(asked) {
      forall steps | AsksIn(steps, asked) ensures SuccessNamesSent(Run(steps)) { OneTextNamesSent(steps, asked); }
    } else {
      var a, b :| a in asked && b in asked && a.turn == b.turn && a != b;
      var steps := SuccessMayNameUnsent(a, b);
      assert AsksIn(steps, asked);
      assert Run(steps).log[3] == Entry(SuccessRecorded, b);
      assert !IsSentBefore(Run(steps).log, 3, b);
    }
  }

  /** What is sent is what was audited, in every run, exactly when a turn is never answered
      with two different requests. */
  lemma AuditedIffOneText(asked: set<Request>)
    ensures OneText(asked) <==> forall steps :: AsksIn(steps, asked) ==> SentAsAudited(Run(steps))
  {
    if OneText(asked) {
      forall steps | AsksIn(steps, asked) ensures SentAsAudited(Run(steps)) { OneTextIsAudited(steps, asked); }
    } else {
      var a, b :| a in asked && b in asked && a.turn == b.turn && a != b;
      var steps := RetryMaySendOther(a, b);
      assert AsksIn(steps, asked);
    }
  }
}
