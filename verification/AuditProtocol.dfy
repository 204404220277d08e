/** The whole pipeline as a step machine: concurrent `record` calls, the audit worker, an
    operator who replays dead letters, crashes, and a Hub that may lose, delay or refuse
    anything. A step that cannot happen in a state leaves the state alone, so every list
    of steps is a run. */
module AuditProtocol {
  import opened Prelude
  import opened Outbox
  import opened AuditLane
  import opened AuditInvariant

  /** A `record` call waiting for the file system: first for the capacity check, then
      for one spooled file after the other. */
  datatype Call = Call(input: Input, checked: bool, ingested: nat)
  datatype Outcome = Returned(id: Id) | Refused
  datatype Finished = Finished(input: Input, outcome: Outcome)

  datatype Hub = Hub(known: set<Key>, records: map<Id, AppendParams>)

  /** `vouched` only grows: the keys the Hub has ever said it holds. `calls` and the
      worker's place die with the process; the tables and the Hub do not. */
  datatype Sys = Sys(lane: Lane, calls: map<nat, Call>, finished: map<nat, Finished>, hub: Hub, vouched: set<Key>)

  datatype Minted = Minted(id: Id, inboundId: string, now: int)

  datatype Step =
    | RecordBegin(call: nat, input: Input)
    | RecordCheck(call: nat, admitted: bool, minted: Minted)
    | RecordIngest(call: nat, stored: bool, minted: Minted)
    | PollDue(list: seq<Id>, now: int)
    | BeginEvent(cap: Option<Capability>, clock: Clock)
    | PrepareDone(prepared: PrepareReply, clock: Clock)
    | PutDone(put: PutReply, clock: Clock)
    | AppendDone(appended: AppendReply, clock: Clock)
    | Replay(ids: Option<set<Id>>, now: int)
    | HubAppend(params: AppendParams)
    | HubBlobs(known: set<Key>)
    | Crash

  const Init := Sys(Lane(EmptyDb, [], Idle, {}), map[], map[], Hub({}, map[]), {})

  ghost function FindByDedup(db: Db, key: string): (id: Id)
    requires HasDedup(db, key)
    ensures id in db.events && db.events[id].recorded.dedup == Some(key)
  {
    var id :| id in db.events && db.events[id].recorded.dedup == Some(key); id
  }

  function Finish(s: Sys, call: nat, outcome: Outcome): Sys
    requires call in s.calls
  {
    s.(calls := s.calls - {call}, finished := s.finished[call := Finished(s.calls[call].input, outcome)])
  }

  /** The transaction at the end of `record`. */
  function Commit(c: Contract, s: Sys, call: nat, minted: Minted): Sys
    requires call in s.calls
  {
    var input := s.calls[call].input;
    if Clashes(s.lane.db, minted.id, input.dedup) then Finish(s, call, Refused)
    else
      var inboundId := if input.direction.Inbound? then Some(minted.inboundId) else None;
      var db := Committed(c, s.lane.db, minted.id, input, inboundId, minted.now);
      Finish(s.(lane := s.lane.(db := db)), call, Returned(minted.id))
  }

  ghost function OnCheck(c: Contract, s: Sys, call: nat, admitted: bool, minted: Minted): Sys
    requires call in s.calls
  {
    var input := s.calls[call].input;
    if !admitted then Finish(s, call, Refused)
    else if input.dedup.Some? && input.dedup.value != "" && HasDedup(s.lane.db, input.dedup.value) then
      Finish(s, call, Returned(FindByDedup(s.lane.db, input.dedup.value)))
    else if input.staged == [] then Commit(c, s, call, minted)
    else s.(calls := s.calls[call := Call(input, true, 0)])
  }

  function OnIngest(c: Contract, s: Sys, call: nat, stored: bool, minted: Minted): Sys
    requires call in s.calls
  {
    var at := s.calls[call];
    if !stored then Finish(s, call, Refused)
    else if at.ingested + 1 == |at.input.staged| then Commit(c, s, call, minted)
    else s.(calls := s.calls[call := at.(ingested := at.ingested + 1)])
  }

  function PresentKeys(entries: seq<Prepared>): set<Key> {
    set e | e in entries && !e.missing :: e.blobKey
  }

  ghost predicate Honest(c: Contract, s: Sys, prepared: PrepareReply) {
    s.lane.pc.Preparing? && (prepared.PrepareAnswer? ==>
      && EntriesOk(c, AttachmentsOf(s.lane.pc.job.event), prepared.entries, Trust(s.hub.known, false))
      && PresentKeys(prepared.entries) <= s.hub.known)
  }

  function PutKey(lane: Lane): set<Key> {
    if lane.pc.Uploading? && lane.pc.next < |lane.pc.entries| then {lane.pc.entries[lane.pc.next].blobKey} else {}
  }

  /** When a step can happen. The Hub acknowledges only what it has recorded. */
  ghost predicate Enabled(c: Contract, s: Sys, step: Step) {
    match step
    case RecordBegin(call, _) => call !in s.calls && call !in s.finished
    case RecordCheck(call, _, _) => call in s.calls && !s.calls[call].checked
    case RecordIngest(call, _, _) => call in s.calls && s.calls[call].checked
    case PollDue(list, now) =>
      s.lane.pc.Idle? && s.lane.queue == [] && IsOldest(Due(s.lane.db, now), CreatedAt(s.lane.db), 20, list)
    case BeginEvent(_, _) => s.lane.pc.Idle? && s.lane.queue != []
    case PrepareDone(prepared, _) => Honest(c, s, prepared)
    case PutDone(_, _) => AtUpload(c, s.lane)
    case AppendDone(appended, _) =>
      s.lane.pc.Appending? && (appended.AppendAnswer? ==>
        s.lane.pc.params.eventId in s.hub.records && s.hub.records[s.lane.pc.params.eventId] == s.lane.pc.params)
    case HubAppend(p) =>
      p in s.lane.sent && p.eventId !in s.hub.records && forall r :: r in p.attachments ==> r.blobKey in s.hub.known
    case _ => true
  }

  function ReplayIds(db: Db, ids: Option<set<Id>>): set<Id> {
    match ids
    case None => InState(db, DeadLetter)
    case Some(listed) => listed
  }

  ghost function Next(c: Contract, s: Sys, step: Step): Sys {
    if !Enabled(c, s, step) then s
    else
      match step
      case RecordBegin(call, input) => s.(calls := s.calls[call := Call(input, false, 0)])
      case RecordCheck(call, admitted, minted) => OnCheck(c, s, call, admitted, minted)
      case RecordIngest(call, stored, minted) => OnIngest(c, s, call, stored, minted)
      case PollDue(list, now) => s.(lane := Poll(s.lane, list))
      case BeginEvent(cap, clock) => s.(lane := Begin(c, s.lane, cap, clock))
      case PrepareDone(prepared, clock) =>
        var present := if prepared.PrepareAnswer? then PresentKeys(prepared.entries) else {};
        s.(lane := OnPrepared(c, s.lane, prepared, clock), vouched := s.vouched + present)
      case PutDone(put, clock) =>
        var stored := if PutFailure(put).None? then PutKey(s.lane) else {};
        s.(lane := OnPut(c, s.lane, put, clock), vouched := s.vouched + stored,
           hub := s.hub.(known := s.hub.known + stored))
      case AppendDone(appended, clock) => s.(lane := OnAppended(c, s.lane, appended, clock))
      case Replay(ids, now) => s.(lane := s.lane.(db := Replayed(s.lane.db, ReplayIds(s.lane.db, ids), now)))
      case HubAppend(p) => s.(hub := s.hub.(records := s.hub.records[p.eventId := p]))
      case HubBlobs(known) => s.(hub := s.hub.(known := known))
      case Crash => s.(calls := map[], lane := s.lane.(queue := [], pc := Idle))
  }

  ghost function Run(c: Contract, s: Sys, steps: seq<Step>): Sys {
    if steps == [] then s else Next(c, Run(c, s, steps[..|steps| - 1]), steps[|steps| - 1])
  }

  // ---- the invariant ----

  ghost predicate HubOk(s: Sys) {
    && (forall id :: id in s.hub.records ==> s.hub.records[id] in s.lane.sent && s.hub.records[id].eventId == id)
    && (forall id :: id in s.lane.db.events && s.lane.db.events[id].state.Acked? ==> id in s.hub.records)
  }

  ghost predicate FinishedOk(s: Sys) {
    forall call :: call in s.finished && s.finished[call].outcome.Returned? ==>
      var id := s.finished[call].outcome.id;
      id in s.lane.db.events
      && (s.finished[call].input.dedup.Some? ==> s.lane.db.events[id].recorded.dedup == s.finished[call].input.dedup)
  }

  ghost predicate SysOk(c: Contract, s: Sys, agree: bool) {
    LaneOk(c, s.lane, Trust(s.vouched, agree)) && HubOk(s) && FinishedOk(s)
  }

  /** What later states keep of earlier ones. */
  ghost predicate Later(a: Sys, b: Sys) {
    && Evolves(a.lane.db, b.lane.db)
    && (forall id :: id in a.hub.records ==> id in b.hub.records && b.hub.records[id] == a.hub.records[id])
    && a.lane.sent <= b.lane.sent && a.vouched <= b.vouched
  }

  /** No event came or went, and no record call ended. */
  ghost predicate SameEvents(a: Sys, b: Sys) { b.finished == a.finished && b.lane.db.events.Keys == a.lane.db.events.Keys }

  lemma TrustGrows(c: Contract, lane: Lane, a: Trust, b: Trust)
    requires LaneOk(c, lane, a) && a.keys <= b.keys && a.agree == b.agree
    ensures LaneOk(c, lane, b)
  {
  }

  lemma LaterTrans(a: Sys, b: Sys, d: Sys)
    requires Later(a, b) && Later(b, d)
    ensures Later(a, d)
  {
    EvolvesTrans(a.lane.db, b.lane.db, d.lane.db);
  }

  /** A stretch of the worker keeps the rest of the invariant. */
  lemma WorkerStep(c: Contract, s: Sys, s': Sys, id: Id, agree: bool)
    requires HubOk(s) && FinishedOk(s)
    requires Works(s.lane, s'.lane, id) && s'.hub.records == s.hub.records && s'.finished == s.finished
    requires s.vouched <= s'.vouched
    ensures HubOk(s') && FinishedOk(s') && Later(s, s') && SameEvents(s, s')
  {
  }

  lemma CommitKeepsLane(c: Contract, lane: Lane, id: Id, input: Input, inboundId: Option<string>, now: int, trust: Trust)
    requires LaneOk(c, lane, trust) && !Clashes(lane.db, id, input.dedup)
    ensures LaneOk(c, lane.(db := Committed(c, lane.db, id, input, inboundId, now)), trust)
    ensures Evolves(lane.db, Committed(c, lane.db, id, input, inboundId, now))
  {
    CommitKeepsTables(c, lane.db, id, input, inboundId, now);
    var lane' := lane.(db := Committed(c, lane.db, id, input, inboundId, now));
    forall key | key in lane'.db.blobs && lane'.db.blobs[key].hubKey.Some?
      ensures key in lane.db.blobs && lane.db.blobs[key].hubKey == lane'.db.blobs[key].hubKey
    {
    }
    assert QueueOk(lane');
    assert HubKeysOk(c, lane'.db, trust) && SentOk(c, lane', trust);
  }

  lemma CommitStep(c: Contract, s: Sys, call: nat, minted: Minted, agree: bool)
    requires SysOk(c, s, agree) && call in s.calls
    ensures SysOk(c, Commit(c, s, call, minted), agree) && Later(s, Commit(c, s, call, minted))
  {
    var input := s.calls[call].input;
    if !Clashes(s.lane.db, minted.id, input.dedup) {
      var inboundId := if input.direction.Inbound? then Some(minted.inboundId) else None;
      CommitKeepsLane(c, s.lane, minted.id, input, inboundId, minted.now, Trust(s.vouched, agree));
    }
  }

  lemma FinishStep(c: Contract, s: Sys, call: nat, outcome: Outcome, agree: bool)
    requires SysOk(c, s, agree) && call in s.calls
    requires outcome.Returned? ==> outcome.id in s.lane.db.events
    requires outcome.Returned? && s.calls[call].input.dedup.Some? ==>
      s.lane.db.events[outcome.id].recorded.dedup == s.calls[call].input.dedup
    ensures SysOk(c, Finish(s, call, outcome), agree) && Later(s, Finish(s, call, outcome))
  {
  }

  lemma CheckStep(c: Contract, s: Sys, call: nat, admitted: bool, minted: Minted, agree: bool)
    requires SysOk(c, s, agree) && call in s.calls
    ensures SysOk(c, OnCheck(c, s, call, admitted, minted), agree) && Later(s, OnCheck(c, s, call, admitted, minted))
  {
    var input := s.calls[call].input;
    if !admitted {
      FinishStep(c, s, call, Refused, agree);
    } else if input.dedup.Some? && input.dedup.value != "" && HasDedup(s.lane.db, input.dedup.value) {
      FinishStep(c, s, call, Returned(FindByDedup(s.lane.db, input.dedup.value)), agree);
    } else {
      CommitStep(c, s, call, minted, agree);
    }
  }

  lemma IngestStep(c: Contract, s: Sys, step: Step, agree: bool)
    requires SysOk(c, s, agree) && Enabled(c, s, step) && step.RecordIngest?
    ensures SysOk(c, Next(c, s, step), agree) && Later(s, Next(c, s, step))
  {
    if step.stored {
      CommitStep(c, s, step.call, step.minted, agree);
    } else {
      FinishStep(c, s, step.call, Refused, agree);
    }
  }

  lemma PollStep(c: Contract, s: Sys, list: seq<Id>, now: int, agree: bool)
    requires SysOk(c, s, agree) && Enabled(c, s, PollDue(list, now))
    ensures SysOk(c, Next(c, s, PollDue(list, now)), agree) && Later(s, Next(c, s, PollDue(list, now)))
    ensures SameEvents(s, Next(c, s, PollDue(list, now)))
  {
    var lane' := Poll(s.lane, list);
    forall i | 0 <= i < |lane'.queue|
      ensures lane'.queue[i].id in lane'.db.events && lane'.db.events[lane'.queue[i].id] == lane'.queue[i].event && Open(lane'.queue[i].event)
    {
      assert list[i] in Due(s.lane.db, now);
    }
    assert QueueOk(lane');
  }

  /** Rows may move as long as those still open stay. */
  lemma OpenRowsStay(c: Contract, lane: Lane, db: Db, trust: Trust)
    requires LaneOk(c, lane, trust) && DbOk(db) && db.blobs == lane.db.blobs && db.events.Keys == lane.db.events.Keys
    requires forall id :: id in db.events ==> db.events[id].recorded == lane.db.events[id].recorded
    requires forall id :: id in db.events && Open(lane.db.events[id]) ==> db.events[id] == lane.db.events[id]
    ensures LaneOk(c, lane.(db := db), trust)
  {
    CoreStays(c, lane, db, trust);
  }

  lemma CoreStays(c: Contract, lane: Lane, db: Db, trust: Trust)
    requires Core(c, lane, trust) && DbOk(db) && db.blobs == lane.db.blobs && db.events.Keys == lane.db.events.Keys
    requires forall id :: id in db.events ==> db.events[id].recorded == lane.db.events[id].recorded
    requires forall id :: id in db.events && Open(lane.db.events[id]) ==> db.events[id] == lane.db.events[id]
    ensures Core(c, lane.(db := db), trust)
  {
  }

  lemma ReplayMoves(db: Db, ids: set<Id>, now: int) returns (after: Db)
    requires DbOk(db)
    ensures after == Replayed(db, ids, now) && DbOk(after) && after.blobs == db.blobs && after.events.Keys == db.events.Keys
    ensures forall id :: id in db.events ==> after.events[id].recorded == db.events[id].recorded
    ensures forall id :: id in db.events && Open(db.events[id]) ==> after.events[id] == db.events[id]
    ensures Evolves(db, after) && forall id :: id in after.events && after.events[id].state.Acked? ==> db.events[id].state.Acked?
  {
    after := Replayed(db, ids, now);
    ReplayKeepsTables(db, ids, now);
  }

  lemma ReplayStep(c: Contract, s: Sys, ids: Option<set<Id>>, now: int, agree: bool) returns (s': Sys)
    requires SysOk(c, s, agree)
    ensures s' == Next(c, s, Replay(ids, now))
    ensures SysOk(c, s', agree) && Later(s, s') && SameEvents(s, s')
  {
    var after := ReplayMoves(s.lane.db, ReplayIds(s.lane.db, ids), now);
    OpenRowsStay(c, s.lane, after, Trust(s.vouched, agree));
    s' := s.(lane := s.lane.(db := after));
    NoneAcknowledged(s, s');
  }

  /** Rows that move without an acknowledgement. */
  lemma NoneAcknowledged(s: Sys, s': Sys)
    requires HubOk(s) && FinishedOk(s) && s' == s.(lane := s.lane.(db := s'.lane.db)) && Evolves(s.lane.db, s'.lane.db)
    requires s'.lane.db.events.Keys == s.lane.db.events.Keys
    requires forall id :: id in s'.lane.db.events && s'.lane.db.events[id].state.Acked? ==> s.lane.db.events[id].state.Acked?
    ensures HubOk(s') && FinishedOk(s') && Later(s, s') && SameEvents(s, s')
  {
  }

  lemma RecordedSysOk(s: Sys, p: AppendParams) returns (s': Sys)
    requires HubOk(s) && FinishedOk(s) && p in s.lane.sent && (p.eventId in s.hub.records ==> s.hub.records[p.eventId] == p)
    ensures s' == s.(hub := s.hub.(records := s.hub.records[p.eventId := p])) && HubOk(s') && FinishedOk(s') && Later(s, s')
  {
    s' := s.(hub := s.hub.(records := s.hub.records[p.eventId := p]));
  }

  lemma HubAppendStep(c: Contract, s: Sys, p: AppendParams, agree: bool)
    requires SysOk(c, s, agree) && Enabled(c, s, HubAppend(p))
    ensures SysOk(c, Next(c, s, HubAppend(p)), agree) && Later(s, Next(c, s, HubAppend(p)))
  {
    var next := RecordedSysOk(s, p);
  }

  lemma SameRecordsOk(c: Contract, s: Sys, s': Sys, agree: bool)
    requires SysOk(c, s, agree) && s'.lane == s.lane && s'.vouched == s.vouched && s'.finished == s.finished
    requires s'.hub.records == s.hub.records
    ensures SysOk(c, s', agree) && Later(s, s')
  {
  }

  lemma HubBlobsStep(c: Contract, s: Sys, known: set<Key>, agree: bool)
    requires SysOk(c, s, agree)
    ensures SysOk(c, Next(c, s, HubBlobs(known)), agree) && Later(s, Next(c, s, HubBlobs(known)))
  {
    SameRecordsOk(c, s, s.(hub := s.hub.(known := known)), agree);
  }

  lemma StoppedLaneOk(c: Contract, lane: Lane, trust: Trust)
    requires LaneOk(c, lane, trust)
    ensures LaneOk(c, lane.(queue := [], pc := Idle), trust)
  {
  }

  lemma StoppedSysOk(s: Sys, s': Sys)
    requires HubOk(s) && FinishedOk(s) && s'.hub == s.hub && s'.finished == s.finished && s'.vouched == s.vouched
    requires s'.lane.db == s.lane.db && s'.lane.sent == s.lane.sent
    ensures HubOk(s') && FinishedOk(s') && Later(s, s')
  {
  }

  lemma CrashStep(c: Contract, s: Sys, agree: bool)
    requires SysOk(c, s, agree)
    ensures SysOk(c, Next(c, s, Crash), agree) && Later(s, Next(c, s, Crash))
  {
    StoppedLaneOk(c, s.lane, Trust(s.vouched, agree));
    StoppedSysOk(s, Next(c, s, Crash));
  }

  lemma BeginStep(c: Contract, s: Sys, cap: Option<Capability>, clock: Clock, agree: bool)
    requires SysOk(c, s, agree) && Enabled(c, s, BeginEvent(cap, clock))
    ensures SysOk(c, Next(c, s, BeginEvent(cap, clock)), agree) && Later(s, Next(c, s, BeginEvent(cap, clock)))
    ensures SameEvents(s, Next(c, s, BeginEvent(cap, clock)))
  {
    BeginKeeps(c, s.lane, cap, clock, Trust(s.vouched, agree));
    WorkerStep(c, s, Next(c, s, BeginEvent(cap, clock)), s.lane.queue[0].id, agree);
  }

  /** What is acknowledged is recorded, because the Hub answers only for what it holds. */
  lemma AnsweredIsRecorded(s: Sys, s': Sys, id: Id)
    requires HubOk(s) && FinishedOk(s) && s' == s.(lane := s'.lane) && s'.lane.sent == s.lane.sent
    requires Evolves(s.lane.db, s'.lane.db) && Touches(s.lane.db, s'.lane.db, id)
    requires id in s'.lane.db.events && s'.lane.db.events[id].state.Acked? ==> id in s.hub.records
    ensures HubOk(s') && FinishedOk(s') && Later(s, s') && SameEvents(s, s')
  {
  }

  lemma AppendStep(c: Contract, s: Sys, appended: AppendReply, clock: Clock, agree: bool) returns (s': Sys)
    requires SysOk(c, s, agree) && Enabled(c, s, AppendDone(appended, clock))
    ensures s' == Next(c, s, AppendDone(appended, clock))
    ensures SysOk(c, s', agree) && Later(s, s') && SameEvents(s, s')
  {
    AppendedKeeps(c, s.lane, appended, clock, Trust(s.vouched, agree));
    s' := s.(lane := OnAppended(c, s.lane, appended, clock));
    AnsweredIsRecorded(s, s', s.lane.pc.job.id);
  }

  lemma PrepareStep(c: Contract, s: Sys, prepared: PrepareReply, clock: Clock, agree: bool)
    requires agree ==> KeysAgree(c)
    requires SysOk(c, s, agree) && Enabled(c, s, PrepareDone(prepared, clock))
    ensures SysOk(c, Next(c, s, PrepareDone(prepared, clock)), agree) && Later(s, Next(c, s, PrepareDone(prepared, clock)))
    ensures SameEvents(s, Next(c, s, PrepareDone(prepared, clock)))
  {
    var s' := Next(c, s, PrepareDone(prepared, clock));
    var trust := Trust(s'.vouched, agree);
    TrustGrows(c, s.lane, Trust(s.vouched, agree), trust);
    if prepared.PrepareAnswer? {
      var attachments := AttachmentsOf(s.lane.pc.job.event);
      forall i | 0 <= i < |prepared.entries| && i < |attachments| && prepared.entries[i].sha == attachments[i].sha
        ensures prepared.entries[i].blobKey == HubKeyOf(c, attachments[i])
        ensures !prepared.entries[i].missing ==> prepared.entries[i].blobKey in trust.keys
      {
        if !prepared.entries[i].missing { assert prepared.entries[i].blobKey in PresentKeys(prepared.entries); }
      }
      assert EntriesOk(c, attachments, prepared.entries, trust);
    }
    PreparedKeeps(c, s.lane, prepared, clock, trust);
    WorkerStep(c, s, s', s.lane.pc.job.id, agree);
  }

  lemma PutStep(c: Contract, s: Sys, put: PutReply, clock: Clock, agree: bool) returns (s': Sys)
    requires agree ==> KeysAgree(c)
    requires SysOk(c, s, agree) && Enabled(c, s, PutDone(put, clock))
    ensures s' == Next(c, s, PutDone(put, clock))
    ensures SysOk(c, s', agree) && Later(s, s') && SameEvents(s, s')
  {
    var stored := if PutFailure(put).None? then PutKey(s.lane) else {};
    var trust := Trust(s.vouched + stored, agree);
    TrustGrows(c, s.lane, Trust(s.vouched, agree), trust);
    var lane' := PutKeeps(c, s.lane, s.lane.pc.job, s.lane.pc.entries, s.lane.pc.next, put, clock, trust);
    s' := s.(lane := lane', vouched := s.vouched + stored, hub := s.hub.(known := s.hub.known + stored));
    WorkerStep(c, s, s', s.lane.pc.job.id, agree);
  }

  lemma StepKeeps(c: Contract, s: Sys, step: Step, agree: bool)
    requires agree ==> KeysAgree(c)
    requires SysOk(c, s, agree)
    ensures SysOk(c, Next(c, s, step), agree) && Later(s, Next(c, s, step))
    ensures !step.RecordCheck? && !step.RecordIngest? ==> SameEvents(s, Next(c, s, step))
  {
    if Enabled(c, s, step) {
      match step
      case RecordBegin(_, _) =>
      case RecordCheck(call, admitted, minted) => CheckStep(c, s, call, admitted, minted, agree);
      case RecordIngest(call, _, minted) => IngestStep(c, s, step, agree);
      case PollDue(list, now) => PollStep(c, s, list, now, agree);
      case BeginEvent(cap, clock) => BeginStep(c, s, cap, clock, agree);
      case PrepareDone(prepared, clock) => PrepareStep(c, s, prepared, clock, agree);
      case PutDone(put, clock) => var s' := PutStep(c, s, put, clock, agree);
      case AppendDone(appended, clock) => var s' := AppendStep(c, s, appended, clock, agree);
      case Replay(ids, now) => var s' := ReplayStep(c, s, ids, now, agree);
      case HubAppend(p) => HubAppendStep(c, s, p, agree);
      case HubBlobs(known) => HubBlobsStep(c, s, known, agree);
      case Crash => CrashStep(c, s, agree);
    }
  }

  // ---- the main results ----

  lemma {:induction false} RunKeeps(c: Contract, steps: seq<Step>, agree: bool)
    requires agree ==> KeysAgree(c)
    ensures SysOk(c, Run(c, Init, steps), agree)
  {
    if steps != [] {
      RunKeeps(c, steps[..|steps| - 1], agree);
      StepKeeps(c, Run(c, Init, steps[..|steps| - 1]), steps[|steps| - 1], agree);
    }
  }

  lemma {:induction false} RunLater(c: Contract, s: Sys, steps: seq<Step>)
    requires SysOk(c, s, false)
    ensures SysOk(c, Run(c, s, steps), false) && Later(s, Run(c, s, steps))
  {
    if steps != [] {
      var before := Run(c, s, steps[..|steps| - 1]);
      RunLater(c, s, steps[..|steps| - 1]);
      StepKeeps(c, before, steps[|steps| - 1], false);
      LaterTrans(s, before, Run(c, s, steps));
    }
  }

  /** Whatever happens, with no assumption on the Hub's naming: rows stay, recorded
      columns and acknowledged rows never change, attempts never shrink, and the Hub
      never forgets or rewrites a record. */
  lemma NothingIsLost(c: Contract, steps: seq<Step>, more: seq<Step>)
    ensures var s := Run(c, Init, steps); var s' := Run(c, s, more);
      Evolves(s.lane.db, s'.lane.db)
      && (forall id :: id in s.hub.records ==> id in s'.hub.records && s'.hub.records[id] == s.hub.records[id])
  {
    RunKeeps(c, steps, false);
    RunLater(c, Run(c, Init, steps), more);
  }

  /** Reference counts, links, the unique key and the resume states hold in every run. */
  lemma TablesStaySound(c: Contract, steps: seq<Step>)
    ensures DbOk(Run(c, Init, steps).lane.db)
  {
    RunKeeps(c, steps, false);
  }

  /** Concurrent records with one non-null dedup key all return one event, and that event
      carries the key. */
  lemma DuplicateRecordsReturnOneEvent(c: Contract, steps: seq<Step>, a: nat, b: nat)
    requires var f := Run(c, Init, steps).finished;
      && a in f && b in f && f[a].outcome.Returned? && f[b].outcome.Returned?
      && f[a].input.dedup.Some? && f[a].input.dedup == f[b].input.dedup
    ensures var s := Run(c, Init, steps);
      && s.finished[a].outcome == s.finished[b].outcome
      && s.finished[a].outcome.id in s.lane.db.events
      && s.lane.db.events[s.finished[a].outcome.id].recorded.dedup == s.finished[a].input.dedup
  {
    RunKeeps(c, steps, false);
  }

  ghost predicate OneCallPerEvent(s: Sys) {
    forall p, q :: p in s.lane.sent && q in s.lane.sent && p.eventId == q.eventId ==> p == q
  }

  /** Every call carries what was recorded and names only keys the Hub has vouched for. */
  ghost predicate CallsAreFaithful(s: Sys) {
    forall p :: p in s.lane.sent ==>
      && p.eventId in s.lane.db.events
      && Carries(p, s.lane.db.events[p.eventId].recorded)
      && (forall r :: r in p.attachments ==> r.blobKey in s.vouched)
  }

  /** An acknowledged event is in the Hub as it was recorded here. */
  ghost predicate AckedIsRecorded(s: Sys) {
    forall id :: id in s.lane.db.events && s.lane.db.events[id].state.Acked? ==>
      id in s.hub.records && Carries(s.hub.records[id], s.lane.db.events[id].recorded)
  }

  /** In every run, whatever names the Hub uses: calls are faithful, the Hub records only
      calls that were made, and an acknowledged event is recorded as it was here. */
  lemma AcknowledgedMeansRecorded(c: Contract, steps: seq<Step>)
    ensures var s := Run(c, Init, steps);
      CallsAreFaithful(s) && AckedIsRecorded(s)
      && forall id :: id in s.hub.records ==> s.hub.records[id] in s.lane.sent && s.hub.records[id].eventId == id
  {
    RunKeeps(c, steps, false);
    var s := Run(c, Init, steps);
    forall p | p in s.lane.sent ensures CallOk(c, s.lane.db, p, Trust(s.vouched, false)) {
    }
  }

  /** Exactly-once effect: when the Hub's blob keys agree with the spool's, all append
      calls ever made for one event are one and the same call, fixed by the recorded
      columns, and so is the Hub's record of it. */
  lemma ExactlyOnceEffect(c: Contract, steps: seq<Step>)
    requires KeysAgree(c)
    ensures var s := Run(c, Init, steps);
      && OneCallPerEvent(s)
      && (forall p :: p in s.lane.sent ==> p.eventId in s.lane.db.events
                                           && p == TheCall(c, p.eventId, s.lane.db.events[p.eventId].recorded))
      && (forall id :: id in s.hub.records ==> id in s.lane.db.events
                                               && s.hub.records[id] == TheCall(c, id, s.lane.db.events[id].recorded))
    ensures forall p, r :: p in Run(c, Init, steps).lane.sent && r in p.attachments ==> r.blobKey == c.hubKey(r.sha, r.name)
  {
    RunKeeps(c, steps, true);
    var s := Run(c, Init, steps);
    forall p | p in s.lane.sent ensures CallOk(c, s.lane.db, p, Trust(s.vouched, true)) {
    }
  }
}
