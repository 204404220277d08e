/** What the audit worker makes of failures: which ones end an event, what the others leave
    behind, and how long an event then rests. */
module AuditPolicy {
  import opened Prelude
  import opened Outbox
  import opened AuditLane
  import opened AuditInvariant
  import opened AuditProtocol
  import opened AuditStuck

  // ---- one failure ----

  /** The Hub refused for good, or an upload did. */
  predicate IsFinal(c: Contract, f: Failure) {
    (f.Rpc? && c.errorClass(f.code) == Permanent) || (f.Http? && f.permanent)
  }

  /** The Hub says it does not have a blob. */
  predicate SaysMissing(c: Contract, f: Failure) { f.Rpc? && f.code == c.missingBlobs }

  predicate NamesError(f: Failure, text: string) {
    match f
    case Rpc(_, name, _) => text == name
    case Http(status, _, _) => text == "HTTP_" + Decimal(status)
    case Other => text == "NETWORK_OR_TIMEOUT"
  }

  /** The pause: what the server asked for, else half a minute for an approval, else a
      backoff. */
  predicate IsPause(c: Contract, f: Failure, attempts: nat, jitter: real, pause: int) {
    if !f.Other? && f.asked.Some? then pause == f.asked.value
    else if f.Rpc? && c.errorClass(f.code) == WaitApproval then pause == 30_000
    else pause == RetryDelay(attempts, f.Rpc? && c.errorClass(f.code) == TransientOperator, jitter)
  }

  ghost predicate AllUnconfirmed(was: map<Key, Blob>, now: map<Key, Blob>, keys: seq<Key>) {
    forall key :: key in was ==>
      key in now && now[key] == if key in keys then was[key].(confirmed := false, hubKey := None) else was[key]
  }

  /** Every failure's outcome, column by column. A final one dead-letters the event; any
      other makes it wait, from the phase it was in or, when blobs are missing, from its
      blobs, none of which counts as confirmed any more. */
  lemma FailureOutcome(c: Contract, lane: Lane, job: Job, f: Failure, clock: Clock)
    requires job.id in lane.db.events
    ensures var after := Fail(c, lane, job, f, clock); var was, e := lane.db.events[job.id], after.db.events[job.id];
      && after == lane.(db := after.db, pc := Idle) && after.db.links == lane.db.links
      && after.db.events == lane.db.events[job.id := e] && after.db.blobs.Keys == lane.db.blobs.Keys
      && e.recorded == was.recorded && e.ackedAt == was.ackedAt && e.attempts == was.attempts + 1 && e.updatedAt == clock.now
      && e.lastError.Some? && NamesError(f, e.lastError.value)
      && (IsFinal(c, f) ==> e.state == DeadLetter)
      && (!IsFinal(c, f) ==>
            e.state == RetryWait && IsPause(c, f, job.event.attempts, clock.jitter, e.nextAttemptAt - clock.now)
            && e.resume == if SaysMissing(c, f) then PendingBlobs else job.resume)
      && (IsFinal(c, f) || !SaysMissing(c, f) ==> after.db.blobs == lane.db.blobs)
      && (!IsFinal(c, f) && SaysMissing(c, f) ==> AllUnconfirmed(lane.db.blobs, after.db.blobs, job.event.recorded.blobKeys))
  {
  }

  /** What an upload's answer means: stored, refused for good, or to be tried again. */
  lemma PutVerdict(status: nat, retryAfter: Option<nat>)
    ensures PutFailure(PutFailed) == Some(Other)
    ensures PutFailure(PutStatus(status, retryAfter)).None? <==> status == 200 || status == 201
    ensures PutFailure(PutStatus(status, retryAfter)).Some? ==> var f := PutFailure(PutStatus(status, retryAfter)).value;
      f.Http? && f.status == status && f.asked == retryAfter
      && (f.permanent <==> status / 100 == 4 && status != 408 && status != 429)
  {
  }

  // ---- where an event starts ----

  lemma {:induction false} TotalIsSum(a: seq<Attachment>, b: seq<Attachment>)
    ensures TotalSize(a + b) == TotalSize(a) + TotalSize(b) && forall x :: TotalSize([x]) == x.size
  {
    if b == [] {
      assert a + b == a;
    } else {
      var n := |b| - 1;
      assert (a + b)[..|a + b| - 1] == a + b[..n];
      TotalIsSum(a, b[..n]);
    }
  }

  /** Where the worker starts: at the append if it was there before; straight at the append
      without attachments; otherwise it asks for upload grants, unless the Hub has no
      matching capability, to wait for one, or the event is over its limits, for good. */
  lemma EventStartsAt(c: Contract, lane: Lane, cap: Option<Capability>, clock: Clock)
    requires lane.pc.Idle? && lane.queue != [] && lane.queue[0].id in lane.db.events
    ensures var id, e, after := lane.queue[0].id, lane.queue[0].event, Begin(c, lane, cap, clock);
      var attachments := e.recorded.payload.attachments;
      && after.queue == lane.queue[1..]
      && (!(e.state == PendingAppend || (e.state == RetryWait && e.resume == PendingAppend)) && attachments != [] ==>
            if cap.None? || cap.value.version != 1 then
              after.sent == lane.sent && after.db.events[id].state == RetryWait
            else if !cap.value.sha256Addressed || |attachments| > cap.value.maxAttachments
                    || (exists a :: a in attachments && a.size > cap.value.maxBlobBytes)
                    || TotalSize(attachments) > cap.value.maxEventBytes then
              after.sent == lane.sent && after.db.events[id].state == DeadLetter && after.db.events[id].lastError == Some("HTTP_" + Decimal(413))
            else after.pc.Preparing? && after.db == lane.db && after.sent == lane.sent)
      && (e.state == PendingAppend || (e.state == RetryWait && e.resume == PendingAppend) || attachments == [] ==>
            !after.pc.Preparing? && !after.pc.Uploading?)
  {
  }

  // ---- the backoff ----

  lemma {:induction false} PowerGrows(n: nat, m: nat)
    requires n <= m
    ensures Power2(n) <= Power2(m)
    decreases m
  {
    if n < m { PowerGrows(n, m - 1); }
  }

  lemma Power2Of16()
    ensures Power2(16) == 65536
  {
    assert Power2(8) == 256 by { assert Power2(4) == 16; }
    assert Power2(12) == 4096;
  }

  /** One second doubled with every attempt, up to five minutes; ten minutes, up to an hour,
      when an operator has to act. */
  function Base(attempts: nat, operator: bool): int {
    if operator then Min(3_600_000, 600_000 * Power2(attempts)) else Min(300_000, 1_000 * Power2(attempts))
  }

  /** That the code stops doubling after sixteen attempts never shows. */
  lemma ClampNeverShows(attempts: nat, operator: bool)
    ensures Base(attempts, operator) == Base(Min(attempts, 16), operator)
  {
    Power2Of16();
    if attempts > 16 { PowerGrows(16, attempts); }
  }

  lemma Product(a: real, b: real)
    requires a >= 0.0 && b >= 0.0
    ensures a * b >= 0.0
  {
  }

  lemma Scaled(e: real, jitter: real) returns (x: real)
    requires e >= 0.0 && 0.0 <= jitter <= 1.0
    ensures x == e * (0.8 + jitter * 0.4) && 0.8 * e <= x <= 1.2 * e
    ensures (jitter == 0.5 ==> x == e) && (jitter == 0.0 ==> x == 0.8 * e)
  {
    var part := e * jitter;
    Product(e, jitter);
    Product(e, 1.0 - jitter);
    assert part + e * (1.0 - jitter) == e;
    assert jitter == 0.5 ==> part == 0.5 * e;
    x := 0.8 * e + 0.4 * part;
  }

  /** The pause for every attempt: between four and six fifths of the base, and the base
      itself in the middle. */
  lemma BackoffIs(attempts: nat, operator: bool, jitter: real) returns (pause: int)
    requires 0.0 <= jitter <= 1.0
    ensures pause == RetryDelay(attempts, operator, jitter)
    ensures var base := Base(attempts, operator);
      && 4 * base - 5 < 5 * pause <= 6 * base
      && (jitter == 0.5 ==> pause == base) && (jitter == 0.0 ==> pause == 4 * base / 5)
  {
    BaseIsPositive(attempts, operator);
    DelayIsBase(attempts, operator, jitter);
    pause := Rounded(Base(attempts, operator), jitter);
  }

  lemma DelayIsBase(attempts: nat, operator: bool, jitter: real)
    ensures RetryDelay(attempts, operator, jitter) == (Base(attempts, operator) as real * (0.8 + jitter * 0.4)).Floor
  {
    ClampNeverShows(attempts, operator);
  }

  lemma Rounded(e: int, jitter: real) returns (pause: int)
    requires e >= 0 && 0.0 <= jitter <= 1.0
    ensures pause == (e as real * (0.8 + jitter * 0.4)).Floor
    ensures 4 * e - 5 < 5 * pause <= 6 * e && (jitter == 0.5 ==> pause == e) && (jitter == 0.0 ==> pause == 4 * e / 5)
  {
    var x := Scaled(e as real, jitter);
    pause := x.Floor;
    FloorBetween(e, x);
  }

  lemma FloorBetween(e: int, x: real)
    requires 0.8 * (e as real) <= x <= 1.2 * (e as real)
    ensures 4 * e - 5 < 5 * x.Floor <= 6 * e
    ensures (x == e as real ==> x.Floor == e) && (x == 0.8 * (e as real) ==> x.Floor == 4 * e / 5)
  {
    assert x.Floor as real <= x < x.Floor as real + 1.0;
  }

  lemma {:induction false} BaseIsPositive(attempts: nat, operator: bool)
    ensures Base(attempts, operator) > 0
  {
    PowerGrows(0, attempts);
  }

  // ---- an event at rest ----

  /** The row waits for its retry time, and the worker has no copy of it. */
  ghost predicate Rests(s: Sys, id: Id, e: Event) {
    && id in s.lane.db.events && s.lane.db.events[id] == e && e.state == RetryWait
    && (s.lane.pc.Idle? || s.lane.pc.job.id != id)
    && (forall i :: 0 <= i < |s.lane.queue| ==> s.lane.queue[i].id != id)
  }

  /** No call was made for it since. */
  ghost predicate NotSent(a: Sys, b: Sys, id: Id) { forall p :: p in b.lane.sent && p.eventId == id ==> p in a.lane.sent }

  /** A failure that is not final puts the event to rest. */
  lemma FailureRests(c: Contract, s: Sys, job: Job, f: Failure, clock: Clock)
    requires SysOk(c, s, false) && !s.lane.pc.Idle? && s.lane.pc.job == job && !IsFinal(c, f)
    ensures var lane := Fail(c, s.lane, job, f, clock); Rests(s.(lane := lane), job.id, lane.db.events[job.id])
  {
    FailureOutcome(c, s.lane, job, f, clock);
  }

  lemma OtherWorkRests(s: Sys, s': Sys, id: Id, e: Event, other: Id)
    requires Rests(s, id, e) && other != id && WorksOn(s.lane, s'.lane, other)
    ensures Rests(s', id, e) && NotSent(s, s', id)
  {
  }

  lemma WorkerRests(c: Contract, s: Sys, step: Step, id: Id, e: Event)
    requires Rests(s, id, e) && Enabled(c, s, step) && (step.BeginEvent? || step.PrepareDone? || step.PutDone? || step.AppendDone?)
    ensures Rests(Next(c, s, step), id, e) && NotSent(s, Next(c, s, step), id)
  {
    match step {
      case BeginEvent(cap, clock) => BeginWorksOn(c, s.lane, cap, clock);
      case PrepareDone(reply, clock) => PreparedWorksOn(c, s.lane, reply, clock);
      case PutDone(reply, clock) => PutWorksOn(c, s.lane, reply, clock);
      case AppendDone(reply, clock) => AppendedWorksOn(c, s.lane, reply, clock);
    }
    OtherWorkRests(s, Next(c, s, step), id, e, if step.BeginEvent? then s.lane.queue[0].id else s.lane.pc.job.id);
  }

  lemma PollRests(c: Contract, s: Sys, list: seq<Id>, now: int, id: Id, e: Event)
    requires Rests(s, id, e) && Enabled(c, s, PollDue(list, now)) && now < e.nextAttemptAt
    ensures Rests(Next(c, s, PollDue(list, now)), id, e)
  {
    DueListIs(s.lane.db, now, 20, list);
  }

  lemma CommitRests(c: Contract, s: Sys, call: nat, minted: Minted, id: Id, e: Event)
    requires Rests(s, id, e) && call in s.calls
    ensures Rests(Commit(c, s, call, minted), id, e) && NotSent(s, Commit(c, s, call, minted), id)
  {
  }

  lemma RecordRests(c: Contract, s: Sys, step: Step, id: Id, e: Event)
    requires Rests(s, id, e) && Enabled(c, s, step) && (step.RecordBegin? || step.RecordCheck? || step.RecordIngest?)
    ensures Rests(Next(c, s, step), id, e) && NotSent(s, Next(c, s, step), id)
  {
    match step
    case RecordBegin(_, _) =>
    case RecordCheck(call, _, minted) => CommitRests(c, s, call, minted, id, e);
    case RecordIngest(call, _, minted) => CommitRests(c, s, call, minted, id, e);
  }

  lemma ReplayRests(c: Contract, s: Sys, ids: Option<set<Id>>, now: int, id: Id, e: Event)
    requires Rests(s, id, e)
    ensures Rests(Next(c, s, Replay(ids, now)), id, e)
  {
    ReplayResumes(s.lane.db, ReplayIds(s.lane.db, ids), now, id);
  }

  lemma StepRests(c: Contract, s: Sys, step: Step, id: Id, e: Event)
    requires Rests(s, id, e) && (step.PollDue? ==> step.now < e.nextAttemptAt)
    ensures Rests(Next(c, s, step), id, e) && NotSent(s, Next(c, s, step), id)
  {
    if Enabled(c, s, step) {
      match step
      case PollDue(list, now) => PollRests(c, s, list, now, id, e);
      case Replay(ids, now) => ReplayRests(c, s, ids, now, id, e);
      case BeginEvent(_, _) => WorkerRests(c, s, step, id, e);
      case PrepareDone(_, _) => WorkerRests(c, s, step, id, e);
      case PutDone(_, _) => WorkerRests(c, s, step, id, e);
      case AppendDone(_, _) => WorkerRests(c, s, step, id, e);
      case RecordBegin(_, _) => RecordRests(c, s, step, id, e);
      case RecordCheck(_, _, _) => RecordRests(c, s, step, id, e);
      case RecordIngest(_, _, _) => RecordRests(c, s, step, id, e);
      case _ =>
    }
  }

  /** Until its retry time has come, whatever else happens, crashes and replays included, a
      resting event stays as it is and no call is made for it. */
  lemma {:induction false} RestsUntilItsTime(c: Contract, s: Sys, more: seq<Step>, id: Id, e: Event)
    requires Rests(s, id, e)
    requires forall i :: 0 <= i < |more| && more[i].PollDue? ==> more[i].now < e.nextAttemptAt
    ensures Rests(Run(c, s, more), id, e) && NotSent(s, Run(c, s, more), id)
  {
    if more != [] {
      var before := more[..|more| - 1];
      RestsUntilItsTime(c, s, before, id, e);
      StepRests(c, Run(c, s, before), more[|more| - 1], id, e);
    }
  }
}
