/** One lane of the audit pipeline: the outbox tables, the pass the audit worker is in
    and the append calls it has made. Each function below is what the worker does from
    one wait for the outside world to the next. */
module AuditLane {
  import opened Prelude
  import opened Outbox

  datatype Ref = Ref(blobKey: Key, sha: string, name: string, mime: Option<string>, size: nat)

  /** The parameters of `mesh.audit.append`. */
  datatype AppendParams = AppendParams(
    eventId: Id, eventType: string, occurredAt: int, producer: string, direction: Direction,
    source: SourceKind, correlation: Correlation, payload: Payload, attachments: seq<Ref>)

  datatype Capability = Capability(
    version: int, sha256Addressed: bool, maxAttachments: nat, maxBlobBytes: nat, maxEventBytes: nat)

  /** One entry of the answer to `mesh.audit.prepare_blobs`. */
  datatype Prepared = Prepared(sha: string, missing: bool, granted: bool, blobKey: Key)

  datatype Failure =
    | Rpc(code: int, name: string, asked: Option<nat>)
    | Http(status: nat, permanent: bool, asked: Option<nat>)
    | Other

  datatype PrepareReply = PrepareAnswer(entries: seq<Prepared>) | PrepareFailed(failure: Failure)
  datatype PutReply = PutStatus(status: nat, retryAfter: Option<nat>) | PutFailed
  datatype AppendReply = AppendAnswer | AppendFailed(failure: Failure)

  datatype Clock = Clock(now: int, jitter: real)

  /** `listDue` copies rows; the worker then works from the copies. */
  datatype Snapshot = Snapshot(id: Id, event: Event)
  datatype Job = Job(id: Id, event: Event, resume: State)

  datatype Pc =
    | Idle
    | Preparing(job: Job)
    | Uploading(job: Job, entries: seq<Prepared>, next: nat)
    | Appending(job: Job, params: AppendParams)

  datatype Lane = Lane(db: Db, queue: seq<Snapshot>, pc: Pc, sent: set<AppendParams>)

  // ---- pure parts of the worker ----

  function Power2(n: nat): nat { if n == 0 then 1 else 2 * Power2(n - 1) }

  function RetryDelay(attempt: nat, operatorRequired: bool, jitter: real): int {
    var base := if operatorRequired then 600_000 else 1_000;
    var maximum := if operatorRequired then 3_600_000 else 300_000;
    var exponential := Min(maximum, base * Power2(Min(attempt, 16)));
    (exponential as real * (0.8 + jitter * 0.4)).Floor
  }

  function AttachmentsOf(e: Event): seq<Attachment> { e.recorded.payload.attachments }

  function ResumeOf(e: Event): State {
    if e.state.RetryWait? then e.resume
    else if e.state.PendingAppend? then PendingAppend
    else PendingBlobs
  }

  function LocalKeyOf(c: Contract, a: Attachment): Key { c.localKey(a.sha, a.filename) }
  function HubKeyOf(c: Contract, a: Attachment): Key { c.hubKey(a.sha, a.filename) }

  function RefOf(a: Attachment, hubKey: Key): Ref {
    Ref(hubKey, a.sha, a.filename, if a.mime == Some("") then None else a.mime, a.size)
  }

  /** The references of an append, or nothing when some row has no Hub key. */
  function Refs(c: Contract, db: Db, attachments: seq<Attachment>): Option<seq<Ref>> {
    if attachments == [] then Some([])
    else
      var n := |attachments| - 1;
      var key := LocalKeyOf(c, attachments[n]);
      match Refs(c, db, attachments[..n])
      case None => None
      case Some(front) =>
        if key in db.blobs && db.blobs[key].hubKey.Some?
        then Some(front + [RefOf(attachments[n], db.blobs[key].hubKey.value)])
        else None
  }

  function EventTypeOf(r: Recorded): string {
    match r.correlation.eventType
    case Some(name) => name
    case None => if r.direction.Inbound? then "channel.inbound.received" else "channel.outbound.requested"
  }

  function ParamsOf(id: Id, r: Recorded, refs: seq<Ref>): AppendParams {
    AppendParams(id, EventTypeOf(r), r.createdAt, if r.driver.Some? then r.driver.value else "lane-controller",
                 r.direction, r.source, r.correlation, r.payload, refs)
  }

  function TotalSize(attachments: seq<Attachment>): nat {
    if attachments == [] then 0 else TotalSize(attachments[..|attachments| - 1]) + attachments[|attachments| - 1].size
  }

  predicate WithinLimits(cap: Capability, attachments: seq<Attachment>) {
    && cap.sha256Addressed
    && |attachments| <= cap.maxAttachments
    && (forall a :: a in attachments ==> a.size <= cap.maxBlobBytes)
    && TotalSize(attachments) <= cap.maxEventBytes
  }

  function ClassOf(c: Contract, f: Failure): ErrorClass {
    match f
    case Rpc(code, _, _) => c.errorClass(code)
    case Http(_, permanent, _) => if permanent then Permanent else Transient
    case Other => Transient
  }

  function CodeOf(f: Failure): string {
    match f
    case Rpc(_, name, _) => name
    case Http(status, _, _) => "HTTP_" + Decimal(status)
    case Other => "NETWORK_OR_TIMEOUT"
  }

  function AskedDelay(f: Failure): Option<nat> { if f.Other? then None else f.asked }

  predicate ReportsMissing(c: Contract, f: Failure) { f.Rpc? && f.code == c.missingBlobs }

  function DelayFor(c: Contract, f: Failure, attempts: nat, clock: Clock): int {
    match AskedDelay(f)
    case Some(milliseconds) => milliseconds
    case None =>
      if ClassOf(c, f).WaitApproval? then 30_000
      else RetryDelay(attempts, ClassOf(c, f).TransientOperator?, clock.jitter)
  }

  function PutFailure(reply: PutReply): Option<Failure> {
    match reply
    case PutFailed => Some(Other)
    case PutStatus(status, retryAfter) =>
      if status == 200 || status == 201 then None
      else Some(Http(status, 400 <= status < 500 && status != 408 && status != 429, retryAfter))
  }

  // ---- the stretches between waits ----

  /** The `catch` of `#process`. */
  function Fail(c: Contract, lane: Lane, job: Job, f: Failure, clock: Clock): Lane {
    var db :=
      if ClassOf(c, f).Permanent? then MarkedDeadLetter(lane.db, job.id, CodeOf(f), clock.now)
      else
        var blobs := if ReportsMissing(c, f) then Unconfirmed(lane.db, job.event.recorded.blobKeys) else lane.db;
        var resume := if ReportsMissing(c, f) then PendingBlobs else job.resume;
        MarkedRetry(blobs, job.id, resume, CodeOf(f),
                    clock.now + DelayFor(c, f, job.event.attempts, clock), clock.now);
    lane.(db := db, pc := Idle)
  }

  function StartAppend(c: Contract, lane: Lane, job: Job, clock: Clock): Lane {
    match Refs(c, lane.db, AttachmentsOf(job.event))
    case None => Fail(c, lane, job, Other, clock)
    case Some(refs) =>
      var params := ParamsOf(job.id, job.event.recorded, refs);
      lane.(pc := Appending(job, params), sent := lane.sent + {params})
  }

  function BlobsDone(c: Contract, lane: Lane, job: Job, clock: Clock): Lane {
    StartAppend(c, lane.(db := MarkedPendingAppend(lane.db, job.id, clock.now)), job, clock)
  }

  /** The row of the next attachment, confirmed under the key the Hub answered. */
  function AfterConfirm(c: Contract, lane: Lane, job: Job, entries: seq<Prepared>, next: nat): Lane
    requires next < |entries| == |AttachmentsOf(job.event)|
  {
    lane.(db := Confirmed(lane.db, LocalKeyOf(c, AttachmentsOf(job.event)[next]), entries[next].blobKey))
  }

  function Uploads(c: Contract, lane: Lane, job: Job, entries: seq<Prepared>, next: nat, clock: Clock): Lane
    requires next <= |entries| == |AttachmentsOf(job.event)|
    decreases |entries| - next
  {
    if next == |entries| then BlobsDone(c, lane, job, clock)
    else
      var a := AttachmentsOf(job.event)[next];
      if a.sha != entries[next].sha || LocalKeyOf(c, a) !in lane.db.blobs then Fail(c, lane, job, Other, clock)
      else if !entries[next].missing then
        Uploads(c, AfterConfirm(c, lane, job, entries, next), job, entries, next + 1, clock)
      else if entries[next].granted then lane.(pc := Uploading(job, entries, next))
      else Fail(c, lane, job, Other, clock)
  }

  function Poll(lane: Lane, list: seq<Id>): Lane
    requires forall id :: id in list ==> id in lane.db.events
  {
    lane.(queue := seq(|list|, i requires 0 <= i < |list| => Snapshot(list[i], lane.db.events[list[i]])))
  }

  function Begin(c: Contract, lane: Lane, cap: Option<Capability>, clock: Clock): Lane
    requires lane.queue != []
  {
    var head := lane.queue[0];
    var job := Job(head.id, head.event, ResumeOf(head.event));
    var lane := lane.(queue := lane.queue[1..]);
    var attachments := AttachmentsOf(job.event);
    if job.resume.PendingAppend? then StartAppend(c, lane, job, clock)
    else if attachments == [] then BlobsDone(c, lane, job, clock)
    else if cap.None? || cap.value.version != 1 then Fail(c, lane, job, Other, clock)
    else if !WithinLimits(cap.value, attachments) then Fail(c, lane, job, Http(413, true, None), clock)
    else lane.(pc := Preparing(job))
  }

  function OnPrepared(c: Contract, lane: Lane, reply: PrepareReply, clock: Clock): Lane
    requires lane.pc.Preparing?
  {
    var job := lane.pc.job;
    match reply
    case PrepareFailed(f) => Fail(c, lane, job, f, clock)
    case PrepareAnswer(entries) =>
      if |entries| != |AttachmentsOf(job.event)| then Fail(c, lane, job, Other, clock)
      else Uploads(c, lane, job, entries, 0, clock)
  }

  /** Where the worker stands when a PUT it waits for is answered. */
  predicate AtUpload(c: Contract, lane: Lane) {
    && lane.pc.Uploading?
    && lane.pc.next < |lane.pc.entries| == |AttachmentsOf(lane.pc.job.event)|
    && LocalKeyOf(c, AttachmentsOf(lane.pc.job.event)[lane.pc.next]) in lane.db.blobs
  }

  function OnPut(c: Contract, lane: Lane, reply: PutReply, clock: Clock): Lane
    requires AtUpload(c, lane)
  {
    var job, entries, next := lane.pc.job, lane.pc.entries, lane.pc.next;
    match PutFailure(reply)
    case Some(f) => Fail(c, lane, job, f, clock)
    case None => Uploads(c, AfterConfirm(c, lane, job, entries, next), job, entries, next + 1, clock)
  }

  function OnAppended(c: Contract, lane: Lane, reply: AppendReply, clock: Clock): Lane
    requires lane.pc.Appending?
  {
    match reply
    case AppendAnswer => lane.(db := MarkedAcked(lane.db, lane.pc.job.id, clock.now), pc := Idle)
    case AppendFailed(f) => Fail(c, lane, lane.pc.job, f, clock)
  }
}
