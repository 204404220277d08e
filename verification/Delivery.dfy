/** Replies to a channel: recording the request, reserving it in the ledger, sending it to
    the channel driver, recording the outcome. Reply processes run side by side with each
    other and with the drain that retries old reservations; a crash ends them all. */
module Delivery {
  import opened Prelude
  import opened DeliveryLedger

  /** `rest` is the remaining list of a drain; a reply has none. */
  datatype Process =
    | Recording(request: Request)
    | Recorded(request: Request)
    | Waiting(request: Request, rest: Option<seq<Request>>)
    | Succeeding(request: Request, result: Option<string>, rest: Option<seq<Request>>)
    | Draining(list: seq<Request>)

  /** What became durable or left the process, in order. */
  datatype Kind = RequestRecorded | Reserved | SentByReply | SentByDrain | SuccessRecorded
  datatype Entry = Entry(kind: Kind, request: Request)

  /** `requested` and `succeeded` are the audit events with dedup keys `runtime-reply:…`
      and `delivery-success:…`; `completed` the turns this code marked completed. */
  datatype Lane = Lane(
    requested: map<string, Request>, succeeded: map<string, Request>, completed: set<string>,
    ledger: Ledger, processes: map<nat, Process>, log: seq<Entry>)

  /** `ok` is false when the outbox refuses for lack of capacity, `connected` when no
      driver takes the request. */
  datatype Step =
    | Ask(p: nat, request: Request)
    | RecordRequest(p: nat, ok: bool)
    | ReserveAndSend(p: nat, connected: bool, now: int)
    | Answer(p: nat, result: Option<string>, now: int)
    | Refuse(p: nat)
    | RecordSuccess(p: nat, ok: bool)
    | StartDrain(p: nat, list: seq<Request>, now: int)
    | DrainNext(p: nat, connected: bool)
    | Crash

  const Fresh := Lane(map[], map[], {}, map[], map[], [])

  predicate IsDrain(p: Process) { p.Draining? || (p.Waiting? && p.rest.Some?) || (p.Succeeding? && p.rest.Some?) }

  function With(lane: Lane, p: nat, process: Process): Lane { lane.(processes := lane.processes[p := process]) }

  function Ended(lane: Lane, p: nat): Lane { lane.(processes := lane.processes - {p}) }

  /** A reply is over; a drain goes on with its list. */
  function GoesOn(lane: Lane, p: nat, rest: Option<seq<Request>>): Lane {
    if rest.Some? then With(lane, p, Draining(rest.value)) else Ended(lane, p)
  }

  function Logged(lane: Lane, e: Entry): Lane { lane.(log := lane.log + [e]) }

  // ---- what each step does ----

  function RecordsRequest(lane: Lane, p: nat, r: Request, ok: bool): Lane {
    if !ok then Ended(lane, p)
    else if r.turn in lane.requested then With(lane, p, Recorded(r))
    else With(Logged(lane.(requested := lane.requested[r.turn := r]), Entry(RequestRecorded, r)), p, Recorded(r))
  }

  /** One stretch without a pause: the row, and then either the stored answer or the send. */
  function ReservesAndSends(lane: Lane, p: nat, r: Request, connected: bool, now: int): Lane {
    if Answered(lane.ledger, r.turn) then
      var result := lane.ledger[r.turn].result;
      With(lane.(ledger := CompleteAction(lane.ledger, r.turn, result, now)), p, Succeeding(r, result, None))
    else
      var reserved := if r.turn in lane.ledger then lane
                      else Logged(lane.(ledger := Reserve(lane.ledger, r, now)), Entry(Reserved, r));
      if connected then With(Logged(reserved, Entry(SentByReply, r)), p, Waiting(r, None)) else Ended(reserved, p)
  }

  function Answers(lane: Lane, p: nat, r: Request, rest: Option<seq<Request>>, result: Option<string>, now: int): Lane {
    With(lane.(ledger := CompleteAction(lane.ledger, r.turn, result, now)), p, Succeeding(r, result, rest))
  }

  function RecordsSuccess(lane: Lane, p: nat, r: Request, rest: Option<seq<Request>>, ok: bool): Lane {
    if !ok then GoesOn(lane, p, rest)
    else
      var recorded := if r.turn in lane.succeeded then lane
                      else Logged(lane.(succeeded := lane.succeeded[r.turn := r]), Entry(SuccessRecorded, r));
      GoesOn(recorded.(completed := recorded.completed + {r.turn}), p, rest)
  }

  function DrainsNext(lane: Lane, p: nat, list: seq<Request>, connected: bool): Lane {
    if list == [] then Ended(lane, p)
    else if !connected then With(lane, p, Draining(list[1..]))
    else With(Logged(lane, Entry(SentByDrain, list[0])), p, Waiting(list[0], Some(list[1..])))
  }

  ghost predicate NoDrain(lane: Lane) { forall p :: p in lane.processes ==> !IsDrain(lane.processes[p]) }

  ghost function Next(lane: Lane, step: Step): Lane {
    match step
    case Ask(p, r) => if p in lane.processes then lane else With(lane, p, Recording(r))
    case RecordRequest(p, ok) =>
      if p !in lane.processes || !lane.processes[p].Recording? then lane
      else RecordsRequest(lane, p, lane.processes[p].request, ok)
    case ReserveAndSend(p, connected, now) =>
      if p !in lane.processes || !lane.processes[p].Recorded? then lane
      else ReservesAndSends(lane, p, lane.processes[p].request, connected, now)
    case Answer(p, result, now) =>
      if p !in lane.processes || !lane.processes[p].Waiting? then lane
      else Answers(lane, p, lane.processes[p].request, lane.processes[p].rest, result, now)
    case Refuse(p) =>
      if p !in lane.processes || !lane.processes[p].Waiting? then lane else GoesOn(lane, p, lane.processes[p].rest)
    case RecordSuccess(p, ok) =>
      if p !in lane.processes || !lane.processes[p].Succeeding? then lane
      else RecordsSuccess(lane, p, lane.processes[p].request, lane.processes[p].rest, ok)
    case StartDrain(p, list, now) =>
      if p in lane.processes || !NoDrain(lane) || !IsPendingList(lane.ledger, now - SETTLE_MS, list) then lane
      else With(lane, p, Draining(list))
    case DrainNext(p, connected) =>
      if p !in lane.processes || !lane.processes[p].Draining? then lane
      else DrainsNext(lane, p, lane.processes[p].list, connected)
    case Crash => lane.(processes := map[])
  }

  ghost function Run(steps: seq<Step>): Lane {
    if steps == [] then Fresh else Next(Run(steps[..|steps| - 1]), steps[|steps| - 1])
  }

  // ---- what every step keeps ----

  predicate IsReserved(lane: Lane, r: Request) { r.turn in lane.ledger && lane.ledger[r.turn].request == r }

  ghost predicate AllReserved(lane: Lane, list: seq<Request>) { forall r :: r in list ==> IsReserved(lane, r) }

  ghost predicate RestReserved(lane: Lane, r: Request, rest: Option<seq<Request>>) {
    rest.Some? ==> IsReserved(lane, r) && AllReserved(lane, rest.value)
  }

  ghost predicate ProcessOk(lane: Lane, p: Process) {
    match p
    case Recording(r) => true
    case Recorded(r) => r.turn in lane.requested
    case Waiting(r, rest) => r.turn in lane.ledger && RestReserved(lane, r, rest)
    case Succeeding(r, _, rest) => r.turn in lane.ledger && lane.ledger[r.turn].state == SUCCEEDED && RestReserved(lane, r, rest)
    case Draining(list) => AllReserved(lane, list)
  }

  ghost predicate ProcessesOk(lane: Lane) { forall p :: p in lane.processes ==> ProcessOk(lane, lane.processes[p]) }

  ghost predicate TablesOk(lane: Lane) {
    && (forall turn :: turn in lane.ledger ==> turn in lane.requested && lane.ledger[turn].request.turn == turn)
    && (forall turn :: turn in lane.succeeded ==> turn in lane.ledger && lane.ledger[turn].state == SUCCEEDED)
    && (forall turn :: turn in lane.completed ==> turn in lane.succeeded)
  }

  /** What the log says was written under each turn. */
  ghost function Written(log: seq<Entry>, kind: Kind): map<string, Request> {
    if log == [] then map[]
    else
      var n := |log| - 1;
      var before := Written(log[..n], kind);
      if log[n].kind == kind then before[log[n].request.turn := log[n].request] else before
  }

  /** The tables and the log tell the same story. */
  ghost predicate LogMatches(lane: Lane) {
    && lane.requested == Written(lane.log, RequestRecorded) && lane.succeeded == Written(lane.log, SuccessRecorded)
    && RequestsOf(lane.ledger) == Written(lane.log, Reserved)
  }

  ghost function RequestsOf(ledger: Ledger): map<string, Request> { map turn | turn in ledger :: ledger[turn].request }

  /** What may come next: nothing is sent without a durable request event before it; the
      drain sends what was reserved before; each event is written once. */
  ghost predicate EntryOk(before: seq<Entry>, e: Entry) {
    match e.kind
    case RequestRecorded => e.request.turn !in Written(before, RequestRecorded)
    case Reserved => e.request.turn in Written(before, RequestRecorded) && e.request.turn !in Written(before, Reserved)
    case SentByReply => e.request.turn in Written(before, RequestRecorded)
    case SentByDrain =>
      && e.request.turn in Written(before, RequestRecorded)
      && e.request.turn in Written(before, Reserved) && Written(before, Reserved)[e.request.turn] == e.request
    case SuccessRecorded => e.request.turn in Written(before, Reserved) && e.request.turn !in Written(before, SuccessRecorded)
  }

  ghost predicate LogOk(log: seq<Entry>) {
    log == [] || (LogOk(log[..|log| - 1]) && EntryOk(log[..|log| - 1], log[|log| - 1]))
  }

  ghost predicate Sound(lane: Lane) { ProcessesOk(lane) && TablesOk(lane) && LogMatches(lane) && LogOk(lane.log) }

  /** Tables only grow, and rows keep what was promised. */
  ghost predicate Later(a: Lane, b: Lane) {
    && (forall turn :: turn in a.requested ==> turn in b.requested && b.requested[turn] == a.requested[turn])
    && (forall turn :: turn in a.succeeded ==> turn in b.succeeded && b.succeeded[turn] == a.succeeded[turn])
    && a.completed <= b.completed && LedgerLater(a.ledger, b.ledger)
  }

  lemma ProcessStays(a: Lane, b: Lane, p: Process)
    requires Later(a, b) && ProcessOk(a, p)
    ensures ProcessOk(b, p)
  {
  }

  ghost function Grown(log: seq<Entry>, kind: Kind, e: Entry): map<string, Request> {
    if kind == e.kind then Written(log, kind)[e.request.turn := e.request] else Written(log, kind)
  }

  lemma LogGrows(log: seq<Entry>, e: Entry)
    requires LogOk(log) && EntryOk(log, e)
    ensures LogOk(log + [e])
    ensures forall kind :: Written(log + [e], kind) == Grown(log, kind, e)
  {
    assert (log + [e])[..|log|] == log;
  }

  // ---- step by step ----

  lemma LaterAdds(a: Lane, b: Lane, c: Lane)
    requires Later(a, b) && Later(b, c)
    ensures Later(a, c)
  {
  }

  /** A process may move to any place that is right for it … */
  lemma Moves(lane: Lane, p: nat, process: Process) returns (next: Lane)
    requires Sound(lane) && ProcessOk(lane, process)
    ensures next == With(lane, p, process) && Sound(next) && Later(lane, next)
  {
    next := With(lane, p, process);
    forall q | q in next.processes ensures ProcessOk(next, next.processes[q]) {
      ProcessStays(lane, next, if q == p then process else lane.processes[q]);
    }
  }

  /** … or end, and so may all of them. */
  lemma Ends(lane: Lane, which: set<nat>) returns (next: Lane)
    requires Sound(lane)
    ensures next == lane.(processes := lane.processes - which) && Sound(next) && Later(lane, next)
  {
    next := lane.(processes := lane.processes - which);
    forall q | q in next.processes ensures ProcessOk(next, next.processes[q]) {
      ProcessStays(lane, next, lane.processes[q]);
    }
  }

  lemma GoesOnIsSound(lane: Lane, p: nat, rest: Option<seq<Request>>)
    requires Sound(lane) && (rest.Some? ==> AllReserved(lane, rest.value))
    ensures Sound(GoesOn(lane, p, rest)) && Later(lane, GoesOn(lane, p, rest))
  {
    if rest.Some? {
      var next := Moves(lane, p, Draining(rest.value));
    } else {
      var next := Ends(lane, {p});
    }
  }

  lemma ProcessesStay(lane: Lane, next: Lane)
    requires Later(lane, next) && ProcessesOk(lane) && next.processes == lane.processes
    ensures ProcessesOk(next)
  {
    forall p | p in next.processes ensures ProcessOk(next, next.processes[p]) { ProcessStays(lane, next, lane.processes[p]); }
  }

  lemma RecordingIsSound(lane: Lane, r: Request) returns (next: Lane)
    requires Sound(lane) && r.turn !in lane.requested
    ensures next == Logged(lane.(requested := lane.requested[r.turn := r]), Entry(RequestRecorded, r))
    ensures Sound(next) && Later(lane, next)
  {
    next := Logged(lane.(requested := lane.requested[r.turn := r]), Entry(RequestRecorded, r));
    LogGrows(lane.log, Entry(RequestRecorded, r));
    ProcessesStay(lane, next);
  }

  lemma RecordsRequestIsSound(lane: Lane, p: nat, r: Request, ok: bool)
    requires Sound(lane)
    ensures Sound(RecordsRequest(lane, p, r, ok)) && Later(lane, RecordsRequest(lane, p, r, ok))
  {
    if !ok {
      var next := Ends(lane, {p});
    } else if r.turn in lane.requested {
      var next := Moves(lane, p, Recorded(r));
    } else {
      var recorded := RecordingIsSound(lane, r);
      var next := Moves(recorded, p, Recorded(r));
      LaterAdds(lane, recorded, next);
    }
  }

  lemma CompletingIsSound(lane: Lane, turn: string, result: Option<string>, now: int) returns (next: Lane)
    requires Sound(lane) && turn in lane.ledger
    ensures next == lane.(ledger := CompleteAction(lane.ledger, turn, result, now))
    ensures Sound(next) && Later(lane, next) && turn in next.ledger && next.ledger[turn].state == SUCCEEDED
  {
    next := lane.(ledger := CompleteAction(lane.ledger, turn, result, now));
    assert RequestsOf(next.ledger) == RequestsOf(lane.ledger);
    CompletingKeepsTables(lane, turn, result, now);
    ProcessesStay(lane, next);
  }

  lemma CompletingKeepsTables(lane: Lane, turn: string, result: Option<string>, now: int)
    requires TablesOk(lane) && turn in lane.ledger
    ensures TablesOk(lane.(ledger := CompleteAction(lane.ledger, turn, result, now)))
    ensures LedgerLater(lane.ledger, CompleteAction(lane.ledger, turn, result, now))
  {
  }

  lemma ReservingKeepsTables(lane: Lane, r: Request, now: int)
    requires TablesOk(lane) && r.turn in lane.requested && r.turn !in lane.ledger
    ensures TablesOk(lane.(ledger := Reserve(lane.ledger, r, now)))
    ensures LedgerLater(lane.ledger, Reserve(lane.ledger, r, now))
  {
  }

  lemma ReservingIsSound(lane: Lane, r: Request, now: int) returns (next: Lane)
    requires Sound(lane) && r.turn in lane.requested && r.turn !in lane.ledger
    ensures next == Logged(lane.(ledger := Reserve(lane.ledger, r, now)), Entry(Reserved, r))
    ensures Sound(next) && Later(lane, next)
  {
    next := Logged(lane.(ledger := Reserve(lane.ledger, r, now)), Entry(Reserved, r));
    assert RequestsOf(next.ledger) == RequestsOf(lane.ledger)[r.turn := r];
    ReservingKeepsTables(lane, r, now);
    LogGrows(lane.log, Entry(Reserved, r));
    ProcessesStay(lane, next);
  }

  lemma SendingIsSound(lane: Lane, r: Request, kind: Kind) returns (next: Lane)
    requires Sound(lane) && r.turn in lane.requested && (kind.SentByReply? || (kind.SentByDrain? && IsReserved(lane, r)))
    ensures next == Logged(lane, Entry(kind, r)) && Sound(next) && Later(lane, next)
  {
    next := Logged(lane, Entry(kind, r));
    assert kind.SentByDrain? ==> r.turn in RequestsOf(lane.ledger) && RequestsOf(lane.ledger)[r.turn] == r;
    LogGrows(lane.log, Entry(kind, r));
    ProcessesStay(lane, next);
  }

  lemma ReservesAndSendsIsSound(lane: Lane, p: nat, r: Request, connected: bool, now: int)
    requires Sound(lane) && r.turn in lane.requested
    ensures Sound(ReservesAndSends(lane, p, r, connected, now)) && Later(lane, ReservesAndSends(lane, p, r, connected, now))
  {
    if Answered(lane.ledger, r.turn) {
      var done := CompletingIsSound(lane, r.turn, lane.ledger[r.turn].result, now);
      var next := Moves(done, p, Succeeding(r, lane.ledger[r.turn].result, None));
      LaterAdds(lane, done, next);
    } else if r.turn in lane.ledger {
      var next := SendsIsSound(lane, p, r, connected);
    } else {
      var reserved := ReservingIsSound(lane, r, now);
      var next := SendsIsSound(reserved, p, r, connected);
      LaterAdds(lane, reserved, next);
    }
  }

  lemma SendsIsSound(lane: Lane, p: nat, r: Request, connected: bool) returns (next: Lane)
    requires Sound(lane) && r.turn in lane.requested && r.turn in lane.ledger
    ensures next == if connected then With(Logged(lane, Entry(SentByReply, r)), p, Waiting(r, None)) else Ended(lane, p)
    ensures Sound(next) && Later(lane, next)
  {
    if connected {
      var sent := SendingIsSound(lane, r, SentByReply);
      next := Moves(sent, p, Waiting(r, None));
      LaterAdds(lane, sent, next);
    } else {
      next := Ends(lane, {p});
    }
  }

  lemma AnswersIsSound(lane: Lane, p: nat, r: Request, rest: Option<seq<Request>>, result: Option<string>, now: int)
    requires Sound(lane) && r.turn in lane.ledger && RestReserved(lane, r, rest)
    ensures var next := Answers(lane, p, r, rest, result, now); Sound(next) && Later(lane, next)
  {
    var done := CompletingIsSound(lane, r.turn, result, now);
    var next := Moves(done, p, Succeeding(r, result, rest));
    LaterAdds(lane, done, next);
  }

  lemma SucceedingKeepsTables(lane: Lane, r: Request)
    requires TablesOk(lane) && r.turn in lane.ledger && lane.ledger[r.turn].state == SUCCEEDED
    ensures TablesOk(lane.(succeeded := lane.succeeded[r.turn := r]))
  {
  }

  lemma SucceedingKeepsLog(lane: Lane, r: Request) returns (next: Lane)
    requires LogMatches(lane) && LogOk(lane.log) && r.turn in lane.ledger && r.turn !in lane.succeeded
    ensures next == Logged(lane.(succeeded := lane.succeeded[r.turn := r]), Entry(SuccessRecorded, r))
    ensures LogMatches(next) && LogOk(next.log)
  {
    next := Logged(lane.(succeeded := lane.succeeded[r.turn := r]), Entry(SuccessRecorded, r));
    assert r.turn in RequestsOf(lane.ledger);
    LogGrows(lane.log, Entry(SuccessRecorded, r));
  }

  lemma SucceedingIsSound(lane: Lane, r: Request) returns (next: Lane)
    requires Sound(lane) && r.turn in lane.ledger && lane.ledger[r.turn].state == SUCCEEDED && r.turn !in lane.succeeded
    ensures next == Logged(lane.(succeeded := lane.succeeded[r.turn := r]), Entry(SuccessRecorded, r))
    ensures Sound(next) && Later(lane, next)
  {
    next := SucceedingKeepsLog(lane, r);
    SucceedingKeepsTables(lane, r);
    ProcessesStay(lane, next);
  }

  lemma MarkingIsSound(lane: Lane, turn: string)
    requires Sound(lane) && turn in lane.succeeded
    ensures Sound(lane.(completed := lane.completed + {turn})) && Later(lane, lane.(completed := lane.completed + {turn}))
  {
    ProcessesStay(lane, lane.(completed := lane.completed + {turn}));
  }

  lemma RecordsSuccessIsSound(lane: Lane, p: nat, r: Request, rest: Option<seq<Request>>, ok: bool)
    requires Sound(lane) && r.turn in lane.ledger && lane.ledger[r.turn].state == SUCCEEDED && RestReserved(lane, r, rest)
    ensures var next := RecordsSuccess(lane, p, r, rest, ok); Sound(next) && Later(lane, next)
  {
    if !ok {
      GoesOnIsSound(lane, p, rest);
    } else {
      var recorded := if r.turn in lane.succeeded then lane
                      else Logged(lane.(succeeded := lane.succeeded[r.turn := r]), Entry(SuccessRecorded, r));
      if r.turn !in lane.succeeded { var added := SucceedingIsSound(lane, r); }
      var marked := recorded.(completed := recorded.completed + {r.turn});
      MarkingIsSound(recorded, r.turn);
      GoesOnIsSound(marked, p, rest);
    }
  }

  lemma DrainsNextIsSound(lane: Lane, p: nat, list: seq<Request>, connected: bool)
    requires Sound(lane) && AllReserved(lane, list)
    ensures var next := DrainsNext(lane, p, list, connected); Sound(next) && Later(lane, next)
  {
    if list == [] {
      var next := Ends(lane, {p});
    } else {
      assert AllReserved(lane, list[1..]) && IsReserved(lane, list[0]);
      if connected {
        var sent := SendingIsSound(lane, list[0], SentByDrain);
        var next := Moves(sent, p, Waiting(list[0], Some(list[1..])));
        LaterAdds(lane, sent, next);
      } else {
        var next := Moves(lane, p, Draining(list[1..]));
      }
    }
  }

  lemma ListIsReserved(lane: Lane, olderThan: int, list: seq<Request>)
    requires IsPendingList(lane.ledger, olderThan, list)
    ensures AllReserved(lane, list)
  {
  }

  lemma RequestStepIsSound(lane: Lane, p: nat, ok: bool)
    requires Sound(lane)
    ensures Sound(Next(lane, RecordRequest(p, ok))) && Later(lane, Next(lane, RecordRequest(p, ok)))
  {
    if p in lane.processes && lane.processes[p].Recording? { RecordsRequestIsSound(lane, p, lane.processes[p].request, ok); }
  }

  lemma ReserveStepIsSound(lane: Lane, p: nat, connected: bool, now: int)
    requires Sound(lane)
    ensures Sound(Next(lane, ReserveAndSend(p, connected, now))) && Later(lane, Next(lane, ReserveAndSend(p, connected, now)))
  {
    if p in lane.processes && lane.processes[p].Recorded? {
      assert ProcessOk(lane, lane.processes[p]);
      ReservesAndSendsIsSound(lane, p, lane.processes[p].request, connected, now);
    }
  }

  lemma AnswerStepIsSound(lane: Lane, p: nat, result: Option<string>, now: int)
    requires Sound(lane)
    ensures Sound(Next(lane, Answer(p, result, now))) && Later(lane, Next(lane, Answer(p, result, now)))
  {
    if p in lane.processes && lane.processes[p].Waiting? {
      assert ProcessOk(lane, lane.processes[p]);
      AnswersIsSound(lane, p, lane.processes[p].request, lane.processes[p].rest, result, now);
    }
  }

  lemma SuccessStepIsSound(lane: Lane, p: nat, ok: bool)
    requires Sound(lane)
    ensures Sound(Next(lane, RecordSuccess(p, ok))) && Later(lane, Next(lane, RecordSuccess(p, ok)))
  {
    if p in lane.processes && lane.processes[p].Succeeding? {
      assert ProcessOk(lane, lane.processes[p]);
      RecordsSuccessIsSound(lane, p, lane.processes[p].request, lane.processes[p].rest, ok);
    }
  }

  lemma DrainStepIsSound(lane: Lane, p: nat, connected: bool)
    requires Sound(lane)
    ensures Sound(Next(lane, DrainNext(p, connected))) && Later(lane, Next(lane, DrainNext(p, connected)))
  {
    if p in lane.processes && lane.processes[p].Draining? {
      assert ProcessOk(lane, lane.processes[p]);
      DrainsNextIsSound(lane, p, lane.processes[p].list, connected);
    }
  }

  // Steps that touch only the processes.

  lemma AskStepIsSound(lane: Lane, p: nat, r: Request)
    requires Sound(lane)
    ensures Sound(Next(lane, Ask(p, r))) && Later(lane, Next(lane, Ask(p, r)))
  {
    var next := Moves(lane, p, Recording(r));
  }

  lemma RefuseStepIsSound(lane: Lane, p: nat)
    requires Sound(lane)
    ensures Sound(Next(lane, Refuse(p))) && Later(lane, Next(lane, Refuse(p)))
  {
    if p in lane.processes && lane.processes[p].Waiting? {
      assert ProcessOk(lane, lane.processes[p]);
      GoesOnIsSound(lane, p, lane.processes[p].rest);
    }
  }

  lemma StartDrainOutcome(lane: Lane, p: nat, list: seq<Request>, now: int) returns (started: bool)
    ensures Next(lane, StartDrain(p, list, now)) == if started then With(lane, p, Draining(list)) else lane
    ensures started ==> AllReserved(lane, list)
  {
    started := p !in lane.processes && NoDrain(lane) && IsPendingList(lane.ledger, now - SETTLE_MS, list);
    if started { ListIsReserved(lane, now - SETTLE_MS, list); }
  }

  lemma StartDrainStepIsSound(lane: Lane, p: nat, list: seq<Request>, now: int) returns (next: Lane)
    requires Sound(lane)
    ensures next == Next(lane, StartDrain(p, list, now)) && Sound(next) && Later(lane, next)
  {
    next := lane;
    var started := StartDrainOutcome(lane, p, list, now);
    if started { next := Moves(lane, p, Draining(list)); }
  }

  lemma CrashStepIsSound(lane: Lane)
    requires Sound(lane)
    ensures Sound(Next(lane, Crash)) && Later(lane, Next(lane, Crash))
  {
    var next := Ends(lane, lane.processes.Keys);
    assert next == Next(lane, Crash);
  }

  lemma StepIsSound(lane: Lane, step: Step)
    requires Sound(lane)
    ensures Sound(Next(lane, step)) && Later(lane, Next(lane, step))
  {
    match step
    case RecordRequest(p, ok) => RequestStepIsSound(lane, p, ok);
    case ReserveAndSend(p, connected, now) => ReserveStepIsSound(lane, p, connected, now);
    case Answer(p, result, now) => AnswerStepIsSound(lane, p, result, now);
    case RecordSuccess(p, ok) => SuccessStepIsSound(lane, p, ok);
    case DrainNext(p, connected) => DrainStepIsSound(lane, p, connected);
    case Ask(p, r) => AskStepIsSound(lane, p, r);
    case Refuse(p) => RefuseStepIsSound(lane, p);
    case StartDrain(p, list, now) => var next := StartDrainStepIsSound(lane, p, list, now);
    case Crash => CrashStepIsSound(lane);
  }

  lemma {:induction false} AlwaysSound(steps: seq<Step>)
    ensures Sound(Run(steps))
  {
    if steps != [] {
      AlwaysSound(steps[..|steps| - 1]);
      StepIsSound(Run(steps[..|steps| - 1]), steps[|steps| - 1]);
    }
  }

  // ---- what the design promises ----

  lemma {:induction false} WrittenIsLogged(log: seq<Entry>, kind: Kind, turn: string) returns (j: nat)
    requires turn in Written(log, kind)
    ensures j < |log| && log[j] == Entry(kind, Written(log, kind)[turn]) && log[j].request.turn == turn
  {
    var n := |log| - 1;
    if log[n].kind == kind && log[n].request.turn == turn {
      j := n;
    } else {
      j := WrittenIsLogged(log[..n], kind, turn);
    }
  }

  lemma {:induction false} LoggedIsWritten(log: seq<Entry>, j: nat)
    requires LogOk(log) && j < |log| && !log[j].kind.SentByReply? && !log[j].kind.SentByDrain?
    ensures log[j].request.turn in Written(log, log[j].kind) && Written(log, log[j].kind)[log[j].request.turn] == log[j].request
  {
    if j < |log| - 1 {
      LoggedIsWritten(log[..|log| - 1], j);
    }
  }

  lemma {:induction false} EntryWasOk(log: seq<Entry>, i: nat)
    requires LogOk(log) && i < |log|
    ensures EntryOk(log[..i], log[i]) && LogOk(log[..i])
  {
    if i < |log| - 1 {
      EntryWasOk(log[..|log| - 1], i);
      assert log[..|log| - 1][..i] == log[..i];
    }
  }

  predicate WasSent(e: Entry) { e.kind.SentByReply? || e.kind.SentByDrain? }

  /** In every run, nothing goes to a driver before its turn's request event is durable. */
  lemma AuditBeforeAction(steps: seq<Step>, i: nat) returns (j: nat)
    requires i < |Run(steps).log| && WasSent(Run(steps).log[i])
    ensures j < i && Run(steps).log[j].kind.RequestRecorded? && Run(steps).log[j].request.turn == Run(steps).log[i].request.turn
  {
    AlwaysSound(steps);
    var log := Run(steps).log;
    EntryWasOk(log, i);
    j := WrittenIsLogged(log[..i], RequestRecorded, log[i].request.turn);
  }

  /** Each turn has at most one request event, one reservation and one success event. */
  lemma OneOfEach(steps: seq<Step>, i: nat, j: nat)
    requires i < j < |Run(steps).log| && !WasSent(Run(steps).log[i]) && Run(steps).log[i].kind == Run(steps).log[j].kind
    ensures Run(steps).log[i].request.turn != Run(steps).log[j].request.turn
  {
    AlwaysSound(steps);
    var log := Run(steps).log;
    EntryWasOk(log, j);
    LoggedIsWritten(log[..j], i);
  }

  /** The drain sends exactly the request reserved first for the turn (by `OneOfEach`
      there is no second reservation). */
  lemma DrainResendsReserved(steps: seq<Step>, i: nat) returns (j: nat)
    requires i < |Run(steps).log| && Run(steps).log[i].kind.SentByDrain?
    ensures j < i && Run(steps).log[j] == Entry(Reserved, Run(steps).log[i].request)
  {
    AlwaysSound(steps);
    var log := Run(steps).log;
    EntryWasOk(log, i);
    j := WrittenIsLogged(log[..i], Reserved, log[i].request.turn);
  }

  lemma {:induction false} LaterAlways(steps: seq<Step>, n: nat)
    requires n <= |steps|
    ensures Later(Run(steps[..n]), Run(steps))
  {
    if n == |steps| {
      assert steps[..n] == steps;
    } else {
      var before := steps[..|steps| - 1];
      assert before[..n] == steps[..n];
      LaterAlways(before, n);
      AlwaysSound(before);
      StepIsSound(Run(before), steps[|steps| - 1]);
      LaterAdds(Run(steps[..n]), Run(before), Run(steps));
    }
  }

  /** A success event means a succeeded ledger row, from then on and in every later state,
      and a turn marked completed here has its success event. */
  lemma SuccessIsFinal(steps: seq<Step>, n: nat, turn: string)
    requires n <= |steps| && turn in Run(steps[..n]).succeeded
    ensures var later := Run(steps);
      && turn in later.succeeded && later.succeeded[turn] == Run(steps[..n]).succeeded[turn]
      && turn in later.ledger && later.ledger[turn].state == SUCCEEDED && turn in later.requested
    ensures Run(steps).completed <= Run(steps).succeeded.Keys
  {
    LaterAlways(steps, n);
    AlwaysSound(steps);
  }
}
