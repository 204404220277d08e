/** How fast a backlog drains once the Hub accepts everything: twenty events a pass. */
module DrainBound {
  import opened Prelude
  import opened Outbox
  import opened AuditLane
  import opened AuditInvariant

  /** How one event fares when the Hub accepts everything: the capability it is checked
      against, which of its blobs the Hub already holds, and the time of each stretch. */
  datatype Fate = Fate(cap: Capability, missing: int -> bool, clock: int -> Clock)

  /** Each blob is either already there or may be uploaded. */
  function Accepting(c: Contract, attachments: seq<Attachment>, missing: int -> bool): seq<Prepared> {
    seq(|attachments|, i requires 0 <= i < |attachments| =>
      Prepared(attachments[i].sha, missing(i), true, HubKeyOf(c, attachments[i])))
  }

  function PutAll(c: Contract, lane: Lane, clock: int -> Clock, n: nat): Lane
    decreases n
  {
    if n == 0 || !AtUpload(c, lane) then lane
    else PutAll(c, OnPut(c, lane, PutStatus(200, None), clock(n)), clock, n - 1)
  }

  /** One event, with every call accepted. */
  function Accepted(c: Contract, lane: Lane, fate: Fate): Lane
    requires lane.queue != []
  {
    var attachments := AttachmentsOf(lane.queue[0].event);
    var begun := Begin(c, lane, Some(fate.cap), fate.clock(-1));
    var uploaded :=
      if begun.pc.Preparing? then
        PutAll(c, OnPrepared(c, begun, PrepareAnswer(Accepting(c, attachments, fate.missing)), fate.clock(0)),
               fate.clock, |attachments|)
      else begun;
    if uploaded.pc.Appending? then OnAppended(c, uploaded, AppendAnswer, fate.clock(-2)) else uploaded
  }

  /** The loop over the queue, given what one turn of it does. */
  function Each(lane: Lane, n: nat, one: Lane -> Lane): Lane
    decreases n
  {
    if n == 0 || lane.queue == [] then lane else Each(one(lane), n - 1, one)
  }

  /** Every event has its own fate. */
  function HeadAccepted(c: Contract, fates: Id -> Fate): Lane -> Lane {
    (lane: Lane) => if lane.queue == [] then lane else Accepted(c, lane, fates(lane.queue[0].id))
  }

  function AcceptedAll(c: Contract, lane: Lane, fates: Id -> Fate, n: nat): Lane {
    Each(lane, n, HeadAccepted(c, fates))
  }

  /** A pass over the list made at time `now`. */
  datatype Pass = Pass(list: seq<Id>, now: int, fates: Id -> Fate)

  function OnePass(c: Contract, lane: Lane, pass: Pass): Lane
    requires forall id :: id in pass.list ==> id in lane.db.events
  {
    AcceptedAll(c, Poll(lane, pass.list), pass.fates, |pass.list|)
  }

  predicate HasKey(c: Contract, db: Db, a: Attachment) {
    LocalKeyOf(c, a) in db.blobs && db.blobs[LocalKeyOf(c, a)].hubKey.Some?
  }

  /** Every attachment has its row, and an event that resumes at the append has its keys. */
  ghost predicate Ready(c: Contract, db: Db, e: Event) {
    && (forall a :: a in AttachmentsOf(e) ==> LocalKeyOf(c, a) in db.blobs)
    && (ResumeOf(e).PendingAppend? ==> forall a :: a in AttachmentsOf(e) ==> HasKey(c, db, a))
  }

  /** Blob rows stay and Hub keys are not taken back. */
  ghost predicate KeysGrow(a: Db, b: Db) {
    a.blobs.Keys == b.blobs.Keys
    && forall key :: key in a.blobs && a.blobs[key].hubKey.Some? ==> b.blobs[key].hubKey.Some?
  }

  predicate AcceptedAsAcked(cap: Capability, e: Event) {
    ResumeOf(e).PendingAppend? || AttachmentsOf(e) == [] || WithinLimits(cap, AttachmentsOf(e))
  }

  /** The append call is out, and only the job's row and blob flags have changed. */
  ghost predicate AtAppend(a: Lane, b: Lane, job: Job) {
    && b.pc.Appending? && b.pc.job == job && b.queue == a.queue
    && KeysGrow(a.db, b.db)
    && job.id in a.db.events && b.db.events.Keys == a.db.events.Keys
    && (forall id :: id in a.db.events && id != job.id ==> b.db.events[id] == a.db.events[id])
    && b.db.events[job.id].recorded == a.db.events[job.id].recorded
  }

  lemma AppendStarts(c: Contract, lane: Lane, job: Job, clock: Clock)
    requires forall a :: a in AttachmentsOf(job.event) ==> HasKey(c, lane.db, a)
    requires job.id in lane.db.events
    ensures AtAppend(lane, StartAppend(c, lane, job, clock), job)
    ensures AtAppend(lane, BlobsDone(c, lane, job, clock), job)
  {
    RefsExistIff(c, lane.db, AttachmentsOf(job.event));
    var marked := lane.(db := MarkedPendingAppend(lane.db, job.id, clock.now));
    forall a | a in AttachmentsOf(job.event) ensures HasKey(c, marked.db, a) {
      assert HasKey(c, lane.db, a);
    }
    RefsExistIff(c, marked.db, AttachmentsOf(job.event));
  }

  /** All blob rows are there, and the first `next` have their Hub keys. */
  ghost predicate KeyedUpTo(c: Contract, db: Db, attachments: seq<Attachment>, next: nat) {
    && next <= |attachments| && (forall a :: a in attachments ==> LocalKeyOf(c, a) in db.blobs)
    && (forall i :: 0 <= i < next ==> HasKey(c, db, attachments[i]))
  }

  lemma OneMoreKeyed(c: Contract, lane: Lane, job: Job, entries: seq<Prepared>, next: nat) returns (after: Lane)
    requires next < |entries| == |AttachmentsOf(job.event)| && KeyedUpTo(c, lane.db, AttachmentsOf(job.event), next)
    ensures after == AfterConfirm(c, lane, job, entries, next) && after == lane.(db := after.db)
    ensures KeyedUpTo(c, after.db, AttachmentsOf(job.event), next + 1)
    ensures after.db.events == lane.db.events && KeysGrow(lane.db, after.db)
  {
    after := AfterConfirm(c, lane, job, entries, next);
    forall i | 0 <= i < next + 1 ensures HasKey(c, after.db, AttachmentsOf(job.event)[i]) {
      if i < next { assert HasKey(c, lane.db, AttachmentsOf(job.event)[i]); }
    }
  }

  /** The Hub knows every blob by its hash and takes those it does not have. */
  ghost predicate AllAccepted(attachments: seq<Attachment>, entries: seq<Prepared>) {
    |entries| == |attachments| && forall i :: 0 <= i < |entries| ==> entries[i].sha == attachments[i].sha && entries[i].granted
  }

  /** Nothing but blob flags has changed since `a`. */
  ghost predicate OnlyKeyed(a: Lane, b: Lane) { b.queue == a.queue && b.db.events == a.db.events && KeysGrow(a.db, b.db) }

  ghost predicate AtMissing(c: Contract, a: Lane, b: Lane, job: Job, entries: seq<Prepared>, next: nat) {
    && b.pc.Uploading? && b.pc.job == job && b.pc.entries == entries && next <= b.pc.next < |entries|
    && KeyedUpTo(c, b.db, AttachmentsOf(job.event), b.pc.next) && OnlyKeyed(a, b)
  }

  lemma AppendStartsFrom(c: Contract, a: Lane, lane: Lane, job: Job, now: Clock) returns (last: Lane)
    requires OnlyKeyed(a, lane) && job.id in a.db.events
    requires KeyedUpTo(c, lane.db, AttachmentsOf(job.event), |AttachmentsOf(job.event)|)
    ensures last == BlobsDone(c, lane, job, now) && AtAppend(a, last, job)
  {
    AppendStarts(c, lane, job, now);
    last := BlobsDone(c, lane, job, now);
  }

  /** The loop over the entries ends at the append call or at a missing blob. */
  lemma {:induction false} UploadsStop(c: Contract, a: Lane, lane: Lane, job: Job, entries: seq<Prepared>, next: nat, now: Clock)
      returns (last: Lane)
    requires AllAccepted(AttachmentsOf(job.event), entries) && OnlyKeyed(a, lane) && job.id in a.db.events
    requires next <= |entries| && KeyedUpTo(c, lane.db, AttachmentsOf(job.event), next)
    ensures last == Uploads(c, lane, job, entries, next, now)
    ensures AtAppend(a, last, job) || AtMissing(c, a, last, job, entries, next)
    decreases |entries| - next
  {
    if next == |entries| {
      last := AppendStartsFrom(c, a, lane, job, now);
    } else {
      assert AttachmentsOf(job.event)[next] in AttachmentsOf(job.event);
      if entries[next].missing {
        last := lane.(pc := Uploading(job, entries, next));
      } else {
        var after := OneMoreKeyed(c, lane, job, entries, next);
        last := UploadsStop(c, a, after, job, entries, next + 1, now);
      }
    }
  }

  lemma PutConfirms(c: Contract, lane: Lane, now: Clock)
    requires AtUpload(c, lane)
    ensures var job, entries, next := lane.pc.job, lane.pc.entries, lane.pc.next;
      OnPut(c, lane, PutStatus(200, None), now) == Uploads(c, AfterConfirm(c, lane, job, entries, next), job, entries, next + 1, now)
  {
  }

  /** Each accepted upload takes the loop on, at the latest to the append call. */
  lemma {:induction false} PutsReachAppend(c: Contract, a: Lane, lane: Lane, job: Job, entries: seq<Prepared>, clock: int -> Clock, n: nat)
    requires AllAccepted(AttachmentsOf(job.event), entries) && job.id in a.db.events
    requires AtAppend(a, lane, job) || AtMissing(c, a, lane, job, entries, |entries| - Min(n, |entries|))
    ensures AtAppend(a, PutAll(c, lane, clock, n), job)
    decreases n
  {
    if lane.pc.Uploading? {
      var next := lane.pc.next;
      assert AttachmentsOf(job.event)[next] in AttachmentsOf(job.event);
      var after := OneMoreKeyed(c, lane, job, entries, next);
      var one := UploadsStop(c, a, after, job, entries, next + 1, clock(n));
      PutConfirms(c, lane, clock(n));
      PutsReachAppend(c, a, one, job, entries, clock, n - 1);
    }
  }

  function Verdict(cap: Capability, e: Event): State {
    if AcceptedAsAcked(cap, e) then Acked else DeadLetter
  }

  /** The head of the queue has its verdict and nothing else has changed. */
  ghost predicate Closes(a: Lane, b: Lane, cap: Capability)
    requires a.queue != []
  {
    && b.pc.Idle? && b.queue == a.queue[1..] && KeysGrow(a.db, b.db)
    && b.db.events.Keys == a.db.events.Keys
    && (forall id :: id in a.db.events && id != a.queue[0].id ==> b.db.events[id] == a.db.events[id])
    && a.queue[0].id in b.db.events && b.db.events[a.queue[0].id].state == Verdict(cap, a.queue[0].event)
  }

  /** An event without uploads goes straight to its append call … */
  lemma AppendOnlyCloses(c: Contract, lane: Lane, fate: Fate)
    requires lane.pc.Idle? && lane.queue != [] && fate.cap.version == 1
    requires lane.queue[0].id in lane.db.events && lane.db.events[lane.queue[0].id] == lane.queue[0].event
    requires Ready(c, lane.db, lane.queue[0].event)
    requires ResumeOf(lane.queue[0].event).PendingAppend? || AttachmentsOf(lane.queue[0].event) == []
    ensures Closes(lane, Accepted(c, lane, fate), fate.cap)
  {
    var head := lane.queue[0];
    AppendStarts(c, lane.(queue := lane.queue[1..]), Job(head.id, head.event, ResumeOf(head.event)), fate.clock(-1));
  }

  /** … and one with uploads gets there behind them. */
  lemma UploadsClose(c: Contract, lane: Lane, fate: Fate)
    requires lane.pc.Idle? && lane.queue != [] && fate.cap.version == 1
    requires lane.queue[0].id in lane.db.events && lane.db.events[lane.queue[0].id] == lane.queue[0].event
    requires Ready(c, lane.db, lane.queue[0].event)
    requires !ResumeOf(lane.queue[0].event).PendingAppend? && AttachmentsOf(lane.queue[0].event) != []
    requires WithinLimits(fate.cap, AttachmentsOf(lane.queue[0].event))
    ensures Closes(lane, Accepted(c, lane, fate), fate.cap)
  {
    var head := lane.queue[0];
    var job := Job(head.id, head.event, ResumeOf(head.event));
    var begun := lane.(queue := lane.queue[1..], pc := Preparing(job));
    var entries := Accepting(c, AttachmentsOf(head.event), fate.missing);
    assert Begin(c, lane, Some(fate.cap), fate.clock(-1)) == begun;
    var started := UploadsStop(c, begun, begun, job, entries, 0, fate.clock(0));
    PutsReachAppend(c, begun, started, job, entries, fate.clock, |entries|);
  }

  /** An accepted event ends acknowledged, or as a dead letter when it breaks the Hub's
      limits; every other row stays as it is. */
  lemma AcceptedCloses(c: Contract, lane: Lane, fate: Fate)
    requires lane.pc.Idle? && lane.queue != [] && fate.cap.version == 1
    requires lane.queue[0].id in lane.db.events && lane.db.events[lane.queue[0].id] == lane.queue[0].event
    requires Ready(c, lane.db, lane.queue[0].event)
    ensures Closes(lane, Accepted(c, lane, fate), fate.cap)
  {
    var e := lane.queue[0].event;
    if ResumeOf(e).PendingAppend? || AttachmentsOf(e) == [] {
      AppendOnlyCloses(c, lane, fate);
    } else if WithinLimits(fate.cap, AttachmentsOf(e)) {
      UploadsClose(c, lane, fate);
    }
  }

  ghost predicate Listed(lane: Lane) {
    && (forall i :: 0 <= i < |lane.queue| ==>
         lane.queue[i].id in lane.db.events && lane.db.events[lane.queue[i].id] == lane.queue[i].event)
    && (forall i, j :: 0 <= i < j < |lane.queue| ==> lane.queue[i].id != lane.queue[j].id)
  }

  ghost predicate QueueReady(c: Contract, lane: Lane) {
    Listed(lane) && forall i :: 0 <= i < |lane.queue| ==> Ready(c, lane.db, lane.queue[i].event)
  }

  lemma StaysReady(c: Contract, a: Db, b: Db, e: Event)
    requires KeysGrow(a, b) && Ready(c, a, e)
    ensures Ready(c, b, e)
  {
    forall x | x in AttachmentsOf(e) && ResumeOf(e).PendingAppend? ensures HasKey(c, b, x) {
      assert HasKey(c, a, x);
    }
  }

  lemma TailReady(c: Contract, a: Lane, b: Lane, cap: Capability)
    requires a.queue != [] && QueueReady(c, a) && Closes(a, b, cap)
    ensures QueueReady(c, b)
  {
    forall i | 0 <= i < |b.queue| ensures Ready(c, b.db, b.queue[i].event) {
      assert b.queue[i] == a.queue[i + 1];
      StaysReady(c, a.db, b.db, b.queue[i].event);
    }
  }

  function QueuedIds(lane: Lane): set<Id> { set entry | entry in lane.queue :: entry.id }

  /** Every listed event has its verdict and nothing else has changed. */
  ghost predicate Closed(a: Lane, b: Lane, fates: Id -> Fate) {
    && b.pc.Idle? && b.queue == [] && KeysGrow(a.db, b.db)
    && b.db.events.Keys == a.db.events.Keys
    && (forall id :: id in a.db.events && id !in QueuedIds(a) ==> b.db.events[id] == a.db.events[id])
    && (forall i :: 0 <= i < |a.queue| ==>
          a.queue[i].id in b.db.events
          && b.db.events[a.queue[i].id].state == Verdict(fates(a.queue[i].id).cap, a.queue[i].event))
  }

  ghost predicate Compatible(fates: Id -> Fate) { forall id :: fates(id).cap.version == 1 }

  lemma ClosedStep(a: Lane, b: Lane, d: Lane, fates: Id -> Fate)
    requires a.queue != [] && Listed(a) && Closes(a, b, fates(a.queue[0].id).cap) && Closed(b, d, fates)
    ensures Closed(a, d, fates)
  {
    forall i | 0 <= i < |a.queue|
      ensures a.queue[i].id in d.db.events
              && d.db.events[a.queue[i].id].state == Verdict(fates(a.queue[i].id).cap, a.queue[i].event)
    {
      if i > 0 { assert b.queue[i - 1] == a.queue[i]; }
    }
    assert a.queue[0] in a.queue && a.queue[0].id in QueuedIds(a);
    forall id | id in QueuedIds(b) ensures id in QueuedIds(a) {
      var entry :| entry in b.queue && entry.id == id;
      assert entry in a.queue;
    }
  }

  /** One turn of the loop takes the head and keeps what is good, and what holds from the
      next lane to the end holds from this one. */
  ghost predicate CarriesAt(one: Lane -> Lane, good: Lane -> bool, reaches: (Lane, Lane) -> bool, lane: Lane, last: Lane) {
    good(lane) ==>
      if lane.queue == [] then reaches(lane, lane)
      else good(one(lane)) && one(lane).queue == lane.queue[1..] && (reaches(one(lane), last) ==> reaches(lane, last))
  }

  ghost predicate Carries(one: Lane -> Lane, good: Lane -> bool, reaches: (Lane, Lane) -> bool) {
    forall lane, last :: CarriesAt(one, good, reaches, lane, last)
  }

  lemma {:induction false} EachReaches(lane: Lane, one: Lane -> Lane, good: Lane -> bool, reaches: (Lane, Lane) -> bool)
    requires Carries(one, good, reaches) && good(lane)
    ensures reaches(lane, Each(lane, |lane.queue|, one))
    decreases |lane.queue|
  {
    assert CarriesAt(one, good, reaches, lane, Each(lane, |lane.queue|, one));
    if lane.queue != [] { EachReaches(one(lane), one, good, reaches); }
  }

  lemma HeadCloses(c: Contract, lane: Lane, fates: Id -> Fate) returns (next: Lane)
    requires lane.pc.Idle? && lane.queue != [] && Compatible(fates) && QueueReady(c, lane)
    ensures next == HeadAccepted(c, fates)(lane)
    ensures Closes(lane, next, fates(lane.queue[0].id).cap) && QueueReady(c, next)
  {
    next := Accepted(c, lane, fates(lane.queue[0].id));
    AcceptedCloses(c, lane, fates(lane.queue[0].id));
    TailReady(c, lane, next, fates(lane.queue[0].id).cap);
  }

  /** A pass closes exactly the events it was given. */
  lemma PassCloses(c: Contract, lane: Lane, fates: Id -> Fate)
    requires lane.pc.Idle? && Compatible(fates) && QueueReady(c, lane)
    ensures Closed(lane, AcceptedAll(c, lane, fates, |lane.queue|), fates)
  {
    var one := HeadAccepted(c, fates);
    var good := (l: Lane) => l.pc.Idle? && QueueReady(c, l);
    var reaches := (l: Lane, last: Lane) => Closed(l, last, fates);
    forall l, last ensures CarriesAt(one, good, reaches, l, last) {
      if good(l) && l.queue != [] {
        var next := HeadCloses(c, l, fates);
        if reaches(next, last) { ClosedStep(l, next, last, fates); }
      }
    }
    EachReaches(lane, one, good, reaches);
  }

  function OpenIds(db: Db): set<Id> { set id | id in db.events && Open(db.events[id]) }

  /** Retry times have passed and every open event can make progress. */
  ghost predicate Drainable(c: Contract, db: Db, now: int) {
    forall id :: id in db.events && Open(db.events[id]) ==> IsDue(db.events[id], now) && Ready(c, db, db.events[id])
  }

  lemma PolledIsReady(c: Contract, lane: Lane, now: int, list: seq<Id>)
    requires Drainable(c, lane.db, now) && IsOldest(Due(lane.db, now), CreatedAt(lane.db), 20, list)
    ensures forall id :: id in list ==> id in lane.db.events
    ensures QueueReady(c, Poll(lane, list))
  {
    var polled := Poll(lane, list);
    forall i | 0 <= i < |polled.queue| ensures Ready(c, polled.db, polled.queue[i].event) {
      assert polled.queue[i].id == list[i] && list[i] in list;
      assert Open(lane.db.events[list[i]]);
    }
  }

  /** What was asked of a queue, said of the list it was made from. */
  lemma ListedAreClosed(lane: Lane, list: seq<Id>, after: Lane, fates: Id -> Fate)
    requires lane.pc.Idle? && (forall id :: id in list ==> id in lane.db.events)
    requires Closed(Poll(lane, list), after, fates)
    ensures forall id :: id in lane.db.events && id in list ==> !Open(after.db.events[id])
    ensures forall id :: id in lane.db.events && id !in list ==> after.db.events[id] == lane.db.events[id]
  {
    var polled := Poll(lane, list);
    forall id | id in lane.db.events && id in list ensures !Open(after.db.events[id]) {
      var i :| 0 <= i < |list| && list[i] == id;
      assert polled.queue[i].id == id;
    }
    forall id | id in QueuedIds(polled) ensures id in list {
      var i :| 0 <= i < |polled.queue| && polled.queue[i].id == id;
      assert list[i] == id;
    }
  }

  /** Every open event was listed or is as it was. */
  lemma PassVerdicts(c: Contract, lane: Lane, pass: Pass) returns (after: Lane)
    requires lane.pc.Idle? && Compatible(pass.fates) && Drainable(c, lane.db, pass.now)
    requires IsOldest(Due(lane.db, pass.now), CreatedAt(lane.db), 20, pass.list)
    ensures (forall id :: id in pass.list ==> id in lane.db.events) && after == OnePass(c, lane, pass)
    ensures after.pc.Idle? && KeysGrow(lane.db, after.db) && after.db.events.Keys == lane.db.events.Keys
    ensures forall id :: id in lane.db.events && id in pass.list ==> !Open(after.db.events[id])
    ensures forall id :: id in lane.db.events && id !in pass.list ==> after.db.events[id] == lane.db.events[id]
  {
    PolledIsReady(c, lane, pass.now, pass.list);
    PassCloses(c, Poll(lane, pass.list), pass.fates);
    after := OnePass(c, lane, pass);
    ListedAreClosed(lane, pass.list, after, pass.fates);
  }

  /** One pass over any oldest-first list of twenty takes twenty off the backlog, or all. */
  lemma PassShrinksBacklog(c: Contract, lane: Lane, pass: Pass)
    requires lane.pc.Idle? && Compatible(pass.fates) && Drainable(c, lane.db, pass.now)
    requires IsOldest(Due(lane.db, pass.now), CreatedAt(lane.db), 20, pass.list)
    ensures forall id :: id in pass.list ==> id in lane.db.events
    ensures var after := OnePass(c, lane, pass);
      && after.pc.Idle? && Drainable(c, after.db, pass.now)
      && OpenIds(after.db) == OpenIds(lane.db) - ToSet(pass.list)
      && |OpenIds(after.db)| == |OpenIds(lane.db)| - Min(20, |OpenIds(lane.db)|)
  {
    var after := PassVerdicts(c, lane, pass);
    DueIsOpen(c, lane.db, pass.now);
    assert OpenIds(after.db) == OpenIds(lane.db) - ToSet(pass.list);
    forall id | id in after.db.events && Open(after.db.events[id]) ensures Ready(c, after.db, after.db.events[id]) {
      StaysReady(c, lane.db, after.db, lane.db.events[id]);
    }
    DistinctLength(pass.list);
    assert ToSet(pass.list) <= OpenIds(lane.db);
  }

  lemma DueIsOpen(c: Contract, db: Db, now: int)
    requires Drainable(c, db, now)
    ensures Due(db, now) == OpenIds(db)
  {
  }

  /** A sequence of passes, each over some oldest-first list of what is then due, each
      with a clock and a Hub of its own, none before `from`. */
  ghost predicate Passes(c: Contract, lane: Lane, passes: seq<Pass>, from: int, last: Lane)
    decreases |passes|
  {
    if passes == [] then last == lane
    else
      && passes[0].now >= from && Compatible(passes[0].fates)
      && IsOldest(Due(lane.db, passes[0].now), CreatedAt(lane.db), 20, passes[0].list)
      && (forall id :: id in passes[0].list ==> id in lane.db.events)
      && Passes(c, OnePass(c, lane, passes[0]), passes[1..], from, last)
  }

  lemma DrainableLater(c: Contract, db: Db, now: int, later: int)
    requires Drainable(c, db, now) && now <= later
    ensures Drainable(c, db, later)
  {
  }

  /** Nothing becomes due that was not: open rows are left as they were. */
  lemma StillDrainable(c: Contract, lane: Lane, pass: Pass, from: int)
    requires lane.pc.Idle? && Compatible(pass.fates) && Drainable(c, lane.db, from) && from <= pass.now
    requires IsOldest(Due(lane.db, pass.now), CreatedAt(lane.db), 20, pass.list)
    ensures forall id :: id in pass.list ==> id in lane.db.events
    ensures Drainable(c, OnePass(c, lane, pass).db, from)
  {
    DrainableLater(c, lane.db, from, pass.now);
    var after := PassVerdicts(c, lane, pass);
    forall id | id in after.db.events && Open(after.db.events[id])
      ensures IsDue(after.db.events[id], from) && Ready(c, after.db, after.db.events[id])
    {
      assert after.db.events[id] == lane.db.events[id];
      StaysReady(c, lane.db, after.db, lane.db.events[id]);
    }
  }

  /** With n open events, ceil(n / 20) accepted passes leave none open. */
  lemma {:induction false} BacklogDrains(c: Contract, lane: Lane, passes: seq<Pass>, from: int, last: Lane)
    requires lane.pc.Idle? && Drainable(c, lane.db, from)
    requires Passes(c, lane, passes, from, last)
    requires |passes| >= (|OpenIds(lane.db)| + 19) / 20
    ensures OpenIds(last.db) == {}
    decreases |passes|
  {
    if passes != [] {
      DrainableLater(c, lane.db, from, passes[0].now);
      PassShrinksBacklog(c, lane, passes[0]);
      StillDrainable(c, lane, passes[0], from);
      BacklogDrains(c, OnePass(c, lane, passes[0]), passes[1..], from, last);
    }
  }

  /** Why the keys are needed: an event that resumes at its append while some attachment
      has no Hub key sends nothing, confirms nothing, and waits to resume at the same
      place. */
  lemma ResumeWithoutKeyIsStuck(c: Contract, lane: Lane, cap: Option<Capability>, clock: Clock, a: Attachment)
    requires lane.queue != [] && lane.queue[0].id in lane.db.events
    requires ResumeOf(lane.queue[0].event).PendingAppend?
    requires a in AttachmentsOf(lane.queue[0].event) && !HasKey(c, lane.db, a)
    ensures var lane', id := Begin(c, lane, cap, clock), lane.queue[0].id;
      && lane'.pc.Idle? && lane'.sent == lane.sent && lane'.db.blobs == lane.db.blobs
      && lane'.db.events[id].state.RetryWait? && lane'.db.events[id].resume.PendingAppend?
  {
    RefsExistIff(c, lane.db, AttachmentsOf(lane.queue[0].event));
  }

  /** An event resuming at its append is acknowledged by an accepting Hub exactly when
      every one of its attachments has a Hub key. */
  lemma ResumeClosesIffKeys(c: Contract, lane: Lane, fate: Fate)
    requires lane.pc.Idle? && lane.queue != [] && lane.queue[0].id in lane.db.events
    requires lane.db.events[lane.queue[0].id] == lane.queue[0].event && fate.cap.version == 1
    requires ResumeOf(lane.queue[0].event).PendingAppend? && Open(lane.queue[0].event)
    ensures Accepted(c, lane, fate).db.events.Keys == lane.db.events.Keys
    ensures Accepted(c, lane, fate).db.events[lane.queue[0].id].state.Acked? <==>
      forall a :: a in AttachmentsOf(lane.queue[0].event) ==> HasKey(c, lane.db, a)
  {
    var head := lane.queue[0];
    if a :| a in AttachmentsOf(head.event) && !HasKey(c, lane.db, a) {
      ResumeWithoutKeyIsStuck(c, lane, Some(fate.cap), fate.clock(-1), a);
    } else {
      AppendStarts(c, lane.(queue := lane.queue[1..]), Job(head.id, head.event, ResumeOf(head.event)), fate.clock(-1));
    }
  }
}
