/** What every stretch of the audit worker keeps. */
module AuditInvariant {
  import opened Prelude
  import opened Outbox
  import opened AuditLane

  /** The Hub names a blob by what the spool names it by. */
  ghost predicate KeysAgree(c: Contract) {
    forall sha, name, sha', name' :: c.localKey(sha, name) == c.localKey(sha', name')
      ==> c.hubKey(sha, name) == c.hubKey(sha', name')
  }

  ghost predicate Names(c: Contract, key: Key, hubKey: Key) {
    forall sha, name :: c.localKey(sha, name) == key ==> c.hubKey(sha, name) == hubKey
  }

  /** What is known of the Hub: the keys it has said it holds, and whether its names
      are relied on to agree with the spool's. */
  datatype Trust = Trust(keys: set<Key>, agree: bool)

  ghost predicate HubKeysOk(c: Contract, db: Db, trust: Trust) {
    forall key :: key in db.blobs && db.blobs[key].hubKey.Some? ==>
      && db.blobs[key].hubKey.value in trust.keys
      && (trust.agree ==> Names(c, key, db.blobs[key].hubKey.value))
  }

  /** An honest prepare answer: the derived key, and "present" only for what is held. */
  ghost predicate EntriesOk(c: Contract, attachments: seq<Attachment>, entries: seq<Prepared>, trust: Trust) {
    forall i :: 0 <= i < |entries| && i < |attachments| && entries[i].sha == attachments[i].sha ==>
      entries[i].blobKey == HubKeyOf(c, attachments[i]) && (!entries[i].missing ==> entries[i].blobKey in trust.keys)
  }

  function AllRefs(c: Contract, attachments: seq<Attachment>): seq<Ref> {
    seq(|attachments|, i requires 0 <= i < |attachments| => RefOf(attachments[i], HubKeyOf(c, attachments[i])))
  }

  /** The append call an event's recorded columns determine. */
  function TheCall(c: Contract, id: Id, r: Recorded): AppendParams {
    ParamsOf(id, r, AllRefs(c, r.payload.attachments))
  }

  /** A reference says of its attachment what the attachment says of itself; an empty media
      type counts as none. */
  predicate Describes(a: Attachment, r: Ref) {
    r.sha == a.sha && r.name == a.filename && r.size == a.size
    && r.mime == (if a.mime.Some? && a.mime.value != "" then a.mime else None)
  }

  ghost predicate DescribesAll(attachments: seq<Attachment>, refs: seq<Ref>) {
    |refs| == |attachments| && forall i :: 0 <= i < |refs| ==> Describes(attachments[i], refs[i])
  }

  /** The call carries the row, column by column. */
  ghost predicate Carries(p: AppendParams, r: Recorded) {
    && p.payload == r.payload && p.direction == r.direction && p.source == r.source && p.correlation == r.correlation
    && p.occurredAt == r.createdAt
    && p.producer == (if r.driver.Some? then r.driver.value else "lane-controller")
    && (r.correlation.eventType.Some? ==> p.eventType == r.correlation.eventType.value)
    && (r.correlation.eventType.None? && r.direction.Inbound? ==> p.eventType == "channel.inbound.received")
    && (r.correlation.eventType.None? && r.direction.Outbound? ==> p.eventType == "channel.outbound.requested")
    && DescribesAll(r.payload.attachments, p.attachments)
  }

  ghost predicate CallOk(c: Contract, db: Db, p: AppendParams, trust: Trust) {
    && p.eventId in db.events
    && Carries(p, db.events[p.eventId].recorded)
    && (forall r :: r in p.attachments ==> r.blobKey in trust.keys)
    && (trust.agree ==> p == TheCall(c, p.eventId, db.events[p.eventId].recorded))
  }

  ghost predicate SentOk(c: Contract, lane: Lane, trust: Trust) {
    forall p :: p in lane.sent ==> CallOk(c, lane.db, p, trust)
  }

  predicate Open(e: Event) { !e.state.Acked? && !e.state.DeadLetter? }

  ghost predicate QueueOk(lane: Lane) {
    && (forall i :: 0 <= i < |lane.queue| ==>
         lane.queue[i].id in lane.db.events && lane.db.events[lane.queue[i].id] == lane.queue[i].event
         && Open(lane.queue[i].event))
    && (forall i, j :: 0 <= i < j < |lane.queue| ==> lane.queue[i].id != lane.queue[j].id)
  }

  ghost predicate Owns(lane: Lane, job: Job) {
    && job.id in lane.db.events
    && lane.db.events[job.id].recorded == job.event.recorded
    && lane.db.events[job.id].attempts == job.event.attempts
    && Open(lane.db.events[job.id])
    && (job.resume.PendingBlobs? || job.resume.PendingAppend?)
    && (forall i :: 0 <= i < |lane.queue| ==> lane.queue[i].id != job.id)
  }

  ghost predicate Core(c: Contract, lane: Lane, trust: Trust) {
    DbOk(lane.db) && QueueOk(lane) && HubKeysOk(c, lane.db, trust) && SentOk(c, lane, trust)
  }

  ghost predicate UploadOk(c: Contract, lane: Lane, trust: Trust)
    requires lane.pc.Uploading?
  {
    && AtUpload(c, lane)
    && EntriesOk(c, AttachmentsOf(lane.pc.job.event), lane.pc.entries, trust)
    && lane.pc.entries[lane.pc.next].sha == AttachmentsOf(lane.pc.job.event)[lane.pc.next].sha
  }

  ghost predicate LaneOk(c: Contract, lane: Lane, trust: Trust) {
    && Core(c, lane, trust)
    && (lane.pc.Idle? || Owns(lane, lane.pc.job))
    && (lane.pc.Uploading? ==> UploadOk(c, lane, trust))
    && (lane.pc.Appending? ==> lane.pc.params in lane.sent && lane.pc.params.eventId == lane.pc.job.id)
  }

  /** How the events table may change: rows stay, recorded columns stay, attempts only
      grow, and an acknowledged row never changes again. */
  ghost predicate Evolves(a: Db, b: Db) {
    forall id :: id in a.events ==>
      && id in b.events
      && a.events[id].recorded == b.events[id].recorded
      && a.events[id].attempts <= b.events[id].attempts
      && (a.events[id].state.Acked? ==> b.events[id] == a.events[id])
  }

  lemma EvolvesTrans(a: Db, b: Db, d: Db)
    requires Evolves(a, b) && Evolves(b, d)
    ensures Evolves(a, d)
  {
  }

  /** The same tables outside one row of `events`. */
  ghost predicate Touches(a: Db, b: Db, id: Id) {
    && a.events.Keys == b.events.Keys && a.blobs.Keys == b.blobs.Keys
    && (forall e :: e in a.events && e != id ==> a.events[e] == b.events[e])
  }

  /** A stretch that works on one event and does not acknowledge it. */
  ghost predicate Works(a: Lane, b: Lane, id: Id) {
    && Evolves(a.db, b.db)
    && Touches(a.db, b.db, id)
    && id in b.db.events && !b.db.events[id].state.Acked?
    && a.sent <= b.sent
  }

  ghost predicate Kept(c: Contract, a: Lane, b: Lane, id: Id, trust: Trust) {
    LaneOk(c, b, trust) && Works(a, b, id)
  }

  lemma WorksTrans(a: Lane, b: Lane, d: Lane, id: Id)
    requires Works(a, b, id) && Works(b, d, id)
    ensures Works(a, d, id)
  {
  }

  /** The references can be built exactly when every row has its Hub key. */
  lemma {:induction false} RefsExistIff(c: Contract, db: Db, attachments: seq<Attachment>)
    ensures Refs(c, db, attachments).Some? <==>
      forall a :: a in attachments ==> LocalKeyOf(c, a) in db.blobs && db.blobs[LocalKeyOf(c, a)].hubKey.Some?
  {
    if attachments != [] {
      var n := |attachments| - 1;
      RefsExistIff(c, db, attachments[..n]);
      assert attachments == attachments[..n] + [attachments[n]];
    }
  }

  lemma {:induction false} RefsAreAllRefs(c: Contract, db: Db, attachments: seq<Attachment>, trust: Trust)
    requires HubKeysOk(c, db, trust)
    ensures Refs(c, db, attachments).Some? && trust.agree ==> Refs(c, db, attachments).value == AllRefs(c, attachments)
    ensures Refs(c, db, attachments).Some? ==> forall r :: r in Refs(c, db, attachments).value ==> r.blobKey in trust.keys
  {
    if attachments != [] {
      var n := |attachments| - 1;
      RefsAreAllRefs(c, db, attachments[..n], trust);
      var key := LocalKeyOf(c, attachments[n]);
      if Refs(c, db, attachments).Some? {
        assert trust.agree ==> Names(c, key, db.blobs[key].hubKey.value);
        assert c.localKey(attachments[n].sha, attachments[n].filename) == key;
        assert AllRefs(c, attachments) == AllRefs(c, attachments[..n]) + [RefOf(attachments[n], HubKeyOf(c, attachments[n]))];
      }
    }
  }

  /** So a call with the references built carries its row. */
  lemma BuiltCarries(c: Contract, db: Db, job: Job, refs: seq<Ref>)
    requires Refs(c, db, AttachmentsOf(job.event)) == Some(refs)
    ensures Carries(ParamsOf(job.id, job.event.recorded, refs), job.event.recorded)
    ensures forall a :: a in AttachmentsOf(job.event) ==> LocalKeyOf(c, a) in db.blobs && db.blobs[LocalKeyOf(c, a)].hubKey.Some?
  {
    RefsDescribe(c, db, AttachmentsOf(job.event));
    RefsExistIff(c, db, AttachmentsOf(job.event));
  }

  /** The references describe the attachments, each under the key its row has. */
  lemma {:induction false} RefsDescribe(c: Contract, db: Db, attachments: seq<Attachment>)
    requires Refs(c, db, attachments).Some?
    ensures DescribesAll(attachments, Refs(c, db, attachments).value)
    ensures forall i :: 0 <= i < |attachments| ==>
      var key := LocalKeyOf(c, attachments[i]);
      key in db.blobs && db.blobs[key].hubKey == Some(Refs(c, db, attachments).value[i].blobKey)
  {
    if attachments != [] { RefsDescribe(c, db, attachments[..|attachments| - 1]); }
  }

  /** Changing one owned row keeps everything that is not about the row's progress. */
  lemma OwnedUpdate(c: Contract, lane: Lane, job: Job, e: Event, trust: Trust)
    requires Core(c, lane, trust) && Owns(lane, job)
    requires RowOk(e) && e.recorded == job.event.recorded && e.attempts >= job.event.attempts
    ensures Core(c, lane.(db := WithEvent(lane.db, job.id, e)), trust)
    ensures Evolves(lane.db, WithEvent(lane.db, job.id, e)) && Touches(lane.db, WithEvent(lane.db, job.id, e), job.id)
  {
    EventUpdateKeepsTables(lane.db, job.id, e);
  }

  /** Changing only confirmation flags keeps it too. */
  lemma BlobUpdate(c: Contract, lane: Lane, db: Db, trust: Trust)
    requires Core(c, lane, trust)
    requires db.events == lane.db.events && DbOk(db) && HubKeysOk(c, db, trust)
    ensures Core(c, lane.(db := db), trust)
    ensures forall job :: Owns(lane, job) ==> Owns(lane.(db := db), job)
  {
  }

  lemma UnconfirmKeeps(c: Contract, lane: Lane, job: Job, trust: Trust)
    requires Core(c, lane, trust) && Owns(lane, job)
    ensures var lane' := lane.(db := Unconfirmed(lane.db, job.event.recorded.blobKeys));
      Core(c, lane', trust) && Owns(lane', job)
  {
    UnconfirmKeepsTables(lane.db, job.event.recorded.blobKeys);
    BlobUpdate(c, lane, Unconfirmed(lane.db, job.event.recorded.blobKeys), trust);
  }

  lemma FailPlainKeeps(c: Contract, lane: Lane, job: Job, f: Failure, clock: Clock, trust: Trust)
    requires Core(c, lane, trust) && Owns(lane, job) && (ClassOf(c, f).Permanent? || !ReportsMissing(c, f))
    ensures LaneOk(c, Fail(c, lane, job, f, clock), trust)
    ensures Works(lane, Fail(c, lane, job, f, clock), job.id)
  {
    OwnedUpdate(c, lane, job, Fail(c, lane, job, f, clock).db.events[job.id], trust);
  }

  lemma FailMissingKeeps(c: Contract, lane: Lane, job: Job, f: Failure, clock: Clock, trust: Trust)
    requires Core(c, lane, trust) && Owns(lane, job) && !ClassOf(c, f).Permanent? && ReportsMissing(c, f)
    ensures LaneOk(c, Fail(c, lane, job, f, clock), trust)
    ensures Works(lane, Fail(c, lane, job, f, clock), job.id)
  {
    var lane' := lane.(db := Unconfirmed(lane.db, job.event.recorded.blobKeys));
    UnconfirmKeeps(c, lane, job, trust);
    OwnedUpdate(c, lane', job, Fail(c, lane, job, f, clock).db.events[job.id], trust);
  }

  lemma FailKeeps(c: Contract, lane: Lane, job: Job, f: Failure, clock: Clock, trust: Trust)
    requires Core(c, lane, trust) && Owns(lane, job)
    ensures LaneOk(c, Fail(c, lane, job, f, clock), trust)
    ensures Works(lane, Fail(c, lane, job, f, clock), job.id)
  {
    if !ClassOf(c, f).Permanent? && ReportsMissing(c, f) {
      FailMissingKeeps(c, lane, job, f, clock, trust);
    } else {
      FailPlainKeeps(c, lane, job, f, clock, trust);
    }
  }

  lemma StartAppendKeeps(c: Contract, lane: Lane, job: Job, clock: Clock, trust: Trust)
    requires Core(c, lane, trust) && Owns(lane, job)
    ensures LaneOk(c, StartAppend(c, lane, job, clock), trust)
    ensures Works(lane, StartAppend(c, lane, job, clock), job.id)
  {
    RefsAreAllRefs(c, lane.db, AttachmentsOf(job.event), trust);
    if Refs(c, lane.db, AttachmentsOf(job.event)).None? {
      FailKeeps(c, lane, job, Other, clock, trust);
    } else {
      var params := StartAppend(c, lane, job, clock).pc.params;
      RefsDescribe(c, lane.db, AttachmentsOf(job.event));
      assert CallOk(c, lane.db, params, trust);
    }
  }

  lemma BlobsDoneKeeps(c: Contract, lane: Lane, job: Job, clock: Clock, trust: Trust)
    requires Core(c, lane, trust) && Owns(lane, job)
    ensures LaneOk(c, BlobsDone(c, lane, job, clock), trust)
    ensures Works(lane, BlobsDone(c, lane, job, clock), job.id)
  {
    var db := MarkedPendingAppend(lane.db, job.id, clock.now);
    OwnedUpdate(c, lane, job, db.events[job.id], trust);
    StartAppendKeeps(c, lane.(db := db), job, clock, trust);
    WorksTrans(lane, lane.(db := db), BlobsDone(c, lane, job, clock), job.id);
  }

  lemma ConfirmKeeps(c: Contract, lane: Lane, job: Job, a: Attachment, trust: Trust)
    requires trust.agree ==> KeysAgree(c)
    requires Core(c, lane, trust) && Owns(lane, job) && HubKeyOf(c, a) in trust.keys
    ensures var lane' := lane.(db := Confirmed(lane.db, LocalKeyOf(c, a), HubKeyOf(c, a)));
      Core(c, lane', trust) && Owns(lane', job) && (LocalKeyOf(c, a) in lane.db.blobs ==> Works(lane, lane', job.id))
  {
    var db := Confirmed(lane.db, LocalKeyOf(c, a), HubKeyOf(c, a));
    ConfirmKeepsTables(lane.db, LocalKeyOf(c, a), HubKeyOf(c, a));
    assert trust.agree ==> Names(c, LocalKeyOf(c, a), HubKeyOf(c, a));
    BlobUpdate(c, lane, db, trust);
  }

  lemma ConfirmEntryKeeps(c: Contract, lane: Lane, job: Job, entries: seq<Prepared>, next: nat, trust: Trust)
    requires trust.agree ==> KeysAgree(c)
    requires Core(c, lane, trust) && Owns(lane, job)
    requires next < |entries| == |AttachmentsOf(job.event)| && EntriesOk(c, AttachmentsOf(job.event), entries, trust)
    requires AttachmentsOf(job.event)[next].sha == entries[next].sha && entries[next].blobKey in trust.keys
    requires LocalKeyOf(c, AttachmentsOf(job.event)[next]) in lane.db.blobs
    ensures Core(c, AfterConfirm(c, lane, job, entries, next), trust)
    ensures Owns(AfterConfirm(c, lane, job, entries, next), job)
    ensures Works(lane, AfterConfirm(c, lane, job, entries, next), job.id)
  {
    ConfirmKeeps(c, lane, job, AttachmentsOf(job.event)[next], trust);
  }

  lemma WaitForPutKeeps(c: Contract, lane: Lane, job: Job, entries: seq<Prepared>, next: nat, trust: Trust)
    requires Core(c, lane, trust) && Owns(lane, job)
    requires next < |entries| == |AttachmentsOf(job.event)| && EntriesOk(c, AttachmentsOf(job.event), entries, trust)
    requires AttachmentsOf(job.event)[next].sha == entries[next].sha
    requires LocalKeyOf(c, AttachmentsOf(job.event)[next]) in lane.db.blobs
    ensures LaneOk(c, lane.(pc := Uploading(job, entries, next)), trust)
    ensures Works(lane, lane.(pc := Uploading(job, entries, next)), job.id)
  {
  }

  lemma {:induction false} UploadsKeep(c: Contract, lane: Lane, job: Job, entries: seq<Prepared>, next: nat, clock: Clock, trust: Trust)
    requires trust.agree ==> KeysAgree(c)
    requires Core(c, lane, trust) && Owns(lane, job)
    requires next <= |entries| == |AttachmentsOf(job.event)| && EntriesOk(c, AttachmentsOf(job.event), entries, trust)
    ensures LaneOk(c, Uploads(c, lane, job, entries, next, clock), trust)
    ensures Works(lane, Uploads(c, lane, job, entries, next, clock), job.id)
    decreases |entries| - next, 0
  {
    if next == |entries| {
      BlobsDoneKeeps(c, lane, job, clock, trust);
    } else {
      var a := AttachmentsOf(job.event)[next];
      if a.sha != entries[next].sha || LocalKeyOf(c, a) !in lane.db.blobs {
        FailKeeps(c, lane, job, Other, clock, trust);
      } else if !entries[next].missing {
        UploadsKeepOn(c, lane, job, entries, next, clock, trust);
      } else if entries[next].granted {
        WaitForPutKeeps(c, lane, job, entries, next, trust);
      } else {
        FailKeeps(c, lane, job, Other, clock, trust);
      }
    }
  }

  lemma {:induction false} UploadsKeepOn(c: Contract, lane: Lane, job: Job, entries: seq<Prepared>, next: nat, clock: Clock, trust: Trust)
    requires trust.agree ==> KeysAgree(c)
    requires Core(c, lane, trust) && Owns(lane, job)
    requires next < |entries| == |AttachmentsOf(job.event)| && EntriesOk(c, AttachmentsOf(job.event), entries, trust)
    requires AttachmentsOf(job.event)[next].sha == entries[next].sha && entries[next].blobKey in trust.keys
    requires LocalKeyOf(c, AttachmentsOf(job.event)[next]) in lane.db.blobs
    ensures var lane' := Uploads(c, AfterConfirm(c, lane, job, entries, next), job, entries, next + 1, clock);
      LaneOk(c, lane', trust) && Works(lane, lane', job.id)
    decreases |entries| - next - 1, 1
  {
    var lane' := AfterConfirm(c, lane, job, entries, next);
    ConfirmEntryKeeps(c, lane, job, entries, next, trust);
    UploadsKeep(c, lane', job, entries, next + 1, clock, trust);
    WorksTrans(lane, lane', Uploads(c, lane', job, entries, next + 1, clock), job.id);
  }

  lemma BeginKeeps(c: Contract, lane: Lane, cap: Option<Capability>, clock: Clock, trust: Trust)
    requires LaneOk(c, lane, trust) && lane.pc.Idle? && lane.queue != []
    ensures LaneOk(c, Begin(c, lane, cap, clock), trust)
    ensures Works(lane, Begin(c, lane, cap, clock), lane.queue[0].id)
  {
    var head := lane.queue[0];
    var job := Job(head.id, head.event, ResumeOf(head.event));
    var rest := lane.(queue := lane.queue[1..]);
    assert RowOk(lane.db.events[head.id]);
    assert Owns(rest, job);
    assert Core(c, rest, trust);
    var attachments := AttachmentsOf(job.event);
    if job.resume.PendingAppend? {
      StartAppendKeeps(c, rest, job, clock, trust);
    } else if attachments == [] {
      BlobsDoneKeeps(c, rest, job, clock, trust);
    } else if cap.None? || cap.value.version != 1 {
      FailKeeps(c, rest, job, Other, clock, trust);
    } else if !WithinLimits(cap.value, attachments) {
      FailKeeps(c, rest, job, Http(413, true, None), clock, trust);
    }
  }

  lemma PreparedKeeps(c: Contract, lane: Lane, reply: PrepareReply, clock: Clock, trust: Trust)
    requires trust.agree ==> KeysAgree(c)
    requires LaneOk(c, lane, trust) && lane.pc.Preparing?
    requires reply.PrepareAnswer? ==> EntriesOk(c, AttachmentsOf(lane.pc.job.event), reply.entries, trust)
    ensures LaneOk(c, OnPrepared(c, lane, reply, clock), trust)
    ensures Works(lane, OnPrepared(c, lane, reply, clock), lane.pc.job.id)
  {
    var job := lane.pc.job;
    if reply.PrepareFailed? {
      FailKeeps(c, lane, job, reply.failure, clock, trust);
    } else if |reply.entries| != |AttachmentsOf(job.event)| {
      FailKeeps(c, lane, job, Other, clock, trust);
    } else {
      UploadsKeep(c, lane, job, reply.entries, 0, clock, trust);
    }
  }

  lemma UploadFacts(c: Contract, lane: Lane, job: Job, entries: seq<Prepared>, next: nat, trust: Trust)
    requires LaneOk(c, lane, trust) && lane.pc == Uploading(job, entries, next)
    ensures Core(c, lane, trust) && Owns(lane, job)
    ensures next < |entries| == |AttachmentsOf(job.event)| && EntriesOk(c, AttachmentsOf(job.event), entries, trust)
    ensures AttachmentsOf(job.event)[next].sha == entries[next].sha
    ensures LocalKeyOf(c, AttachmentsOf(job.event)[next]) in lane.db.blobs
  {
    assert UploadOk(c, lane, trust);
  }

  lemma PutFailedKeeps(c: Contract, lane: Lane, job: Job, entries: seq<Prepared>, next: nat, reply: PutReply, clock: Clock, trust: Trust)
    requires LaneOk(c, lane, trust) && lane.pc == Uploading(job, entries, next) && PutFailure(reply).Some?
    ensures Kept(c, lane, OnPut(c, lane, reply, clock), job.id, trust)
  {
    UploadFacts(c, lane, job, entries, next, trust);
    FailKeeps(c, lane, job, PutFailure(reply).value, clock, trust);
  }

  lemma PutSucceededKeeps(c: Contract, lane: Lane, job: Job, entries: seq<Prepared>, next: nat, clock: Clock, trust: Trust)
    requires trust.agree ==> KeysAgree(c)
    requires LaneOk(c, lane, trust) && lane.pc == Uploading(job, entries, next)
    requires AtUpload(c, lane) && entries[next].blobKey in trust.keys
    ensures Kept(c, lane, Uploads(c, AfterConfirm(c, lane, job, entries, next), job, entries, next + 1, clock), job.id, trust)
  {
    UploadFacts(c, lane, job, entries, next, trust);
    UploadsKeepOn(c, lane, job, entries, next, clock, trust);
  }

  lemma PutIsUploads(c: Contract, lane: Lane, reply: PutReply, clock: Clock, r: Lane)
    requires AtUpload(c, lane) && PutFailure(reply).None?
    requires r == Uploads(c, AfterConfirm(c, lane, lane.pc.job, lane.pc.entries, lane.pc.next),
                          lane.pc.job, lane.pc.entries, lane.pc.next + 1, clock)
    ensures OnPut(c, lane, reply, clock) == r
  {
  }

  lemma PutKeeps(c: Contract, lane: Lane, job: Job, entries: seq<Prepared>, next: nat, reply: PutReply, clock: Clock, trust: Trust)
    returns (r: Lane)
    requires trust.agree ==> KeysAgree(c)
    requires LaneOk(c, lane, trust) && lane.pc == Uploading(job, entries, next)
    requires AtUpload(c, lane) && (PutFailure(reply).None? ==> entries[next].blobKey in trust.keys)
    ensures r == OnPut(c, lane, reply, clock)
    ensures Kept(c, lane, r, job.id, trust)
  {
    if PutFailure(reply).Some? {
      r := OnPut(c, lane, reply, clock);
      PutFailedKeeps(c, lane, job, entries, next, reply, clock, trust);
    } else {
      r := Uploads(c, AfterConfirm(c, lane, job, entries, next), job, entries, next + 1, clock);
      PutIsUploads(c, lane, reply, clock, r);
      PutSucceededKeeps(c, lane, job, entries, next, clock, trust);
    }
  }

  lemma AppendedKeeps(c: Contract, lane: Lane, reply: AppendReply, clock: Clock, trust: Trust)
    requires LaneOk(c, lane, trust) && lane.pc.Appending?
    ensures LaneOk(c, OnAppended(c, lane, reply, clock), trust)
    ensures Evolves(lane.db, OnAppended(c, lane, reply, clock).db)
    ensures Touches(lane.db, OnAppended(c, lane, reply, clock).db, lane.pc.job.id)
    ensures OnAppended(c, lane, reply, clock).db.events[lane.pc.job.id].state.Acked? ==> reply.AppendAnswer?
    ensures OnAppended(c, lane, reply, clock).sent == lane.sent
  {
    var job := lane.pc.job;
    if reply.AppendFailed? {
      FailKeeps(c, lane, job, reply.failure, clock, trust);
    } else {
      OwnedUpdate(c, lane, job, MarkedAcked(lane.db, job.id, clock.now).events[job.id], trust);
    }
  }
}
