/** The lane outbox: the `events`, `blobs` and `event_blobs` tables, the statements
    that change them as functions on table values, and the invariant they keep.
    Each SQLite statement or transaction is one atomic change. */
module Outbox {
  import opened Prelude

  type Id = string
  type Key = string

  datatype Attachment = Attachment(filename: string, mime: Option<string>, size: nat, sha: string)

  /** The recorded message body and the attachments `eventAttachments` finds in it. */
  datatype Payload = Payload(body: string, attachments: seq<Attachment>)

  datatype Direction = Inbound | Outbound
  datatype SourceKind = Channel | Mesh
  datatype Correlation = Correlation(eventType: Option<string>, fields: string)

  /** `AuditEventInput`: `staged` are the files to spool, `payload` what is sent later. */
  datatype Input = Input(
    direction: Direction, source: SourceKind, driver: Option<string>, payload: Payload,
    staged: seq<Attachment>, correlation: Correlation, dedup: Option<string>)

  /** The columns that no statement updates after the insert. */
  datatype Recorded = Recorded(
    inboundId: Option<string>, direction: Direction, source: SourceKind, driver: Option<string>,
    payload: Payload, blobKeys: seq<Key>, correlation: Correlation, dedup: Option<string>, createdAt: int)

  datatype State = PendingBlobs | PendingAppend | RetryWait | Acked | DeadLetter

  datatype Event = Event(
    recorded: Recorded, state: State, resume: State, attempts: nat, nextAttemptAt: int,
    lastError: Option<string>, updatedAt: int, ackedAt: Option<int>)

  datatype Blob = Blob(sha: string, size: nat, refs: nat, confirmed: bool, hubKey: Option<Key>)

  datatype Db = Db(events: map<Id, Event>, blobs: map<Key, Blob>, links: set<(Id, Key)>)

  datatype ErrorClass = Permanent | Transient | TransientOperator | WaitApproval

  /** The parts of the shared contracts package the client relies on. `localKey` is
      `deriveBlobKey`, which is also how the spool names a file; `hubKey` is the key
      the Hub answers for an attachment in `mesh.audit.prepare_blobs`. */
  datatype Contract = Contract(
    localKey: (string, string) -> Key,
    hubKey: (string, string) -> Key,
    errorClass: int -> ErrorClass,
    missingBlobs: int)

  const EmptyDb := Db(map[], map[], {})

  // ---- reading ----

  ghost function Referencing(db: Db, key: Key): set<Id> {
    set id | id in db.events && key in db.events[id].recorded.blobKeys
  }

  function Due(db: Db, now: int): set<Id> {
    set id | id in db.events && IsDue(db.events[id], now)
  }

  predicate IsDue(e: Event, now: int) {
    e.state.PendingBlobs? || e.state.PendingAppend? || (e.state.RetryWait? && e.nextAttemptAt <= now)
  }

  function CreatedAt(db: Db): Id -> int {
    id => if id in db.events then db.events[id].recorded.createdAt else 0
  }

  function UpdatedAt(db: Db): Id -> int {
    id => if id in db.events then db.events[id].updatedAt else 0
  }

  function InState(db: Db, state: State): set<Id> {
    set id | id in db.events && db.events[id].state == state
  }

  predicate BlobsConfirmed(db: Db, e: Event) {
    forall key :: key in e.recorded.blobKeys ==> key in db.blobs && db.blobs[key].confirmed
  }

  predicate HasDedup(db: Db, key: string) {
    exists id :: id in db.events && db.events[id].recorded.dedup == Some(key)
  }

  // ---- record ----

  function Distinct(keys: seq<Key>): seq<Key> {
    if keys == [] then []
    else
      var front := Distinct(keys[..|keys| - 1]);
      if keys[|keys| - 1] in front then front else front + [keys[|keys| - 1]]
  }

  lemma {:induction false} DistinctIsASet(keys: seq<Key>)
    ensures NoDuplicates(Distinct(keys))
    ensures forall key :: key in Distinct(keys) <==> key in keys
  {
    if keys != [] {
      var front := keys[..|keys| - 1];
      DistinctIsASet(front);
      assert keys == front + [keys[|keys| - 1]];
    }
  }

  function SpooledKeys(c: Contract, staged: seq<Attachment>): seq<Key> {
    seq(|staged|, i requires 0 <= i < |staged| => c.localKey(staged[i].sha, staged[i].filename))
  }

  /** The rows `INSERT … ON CONFLICT` leaves behind: a row that exists keeps its counts. */
  function InsertBlobs(c: Contract, blobs: map<Key, Blob>, staged: seq<Attachment>): (r: map<Key, Blob>)
    ensures forall key :: key in blobs ==> key in r && r[key] == blobs[key]
    ensures forall key :: key in r && key !in blobs ==> r[key].refs == 0 && !r[key].confirmed && r[key].hubKey == None
    ensures forall key :: key in r <==> key in blobs || key in SpooledKeys(c, staged)
  {
    if staged == [] then blobs
    else
      var n := |staged| - 1;
      var before := InsertBlobs(c, blobs, staged[..n]);
      var key := c.localKey(staged[n].sha, staged[n].filename);
      assert SpooledKeys(c, staged) == SpooledKeys(c, staged[..n]) + [key];
      if key in before then before
      else before[key := Blob(staged[n].sha, staged[n].size, 0, false, None)]
  }

  function Referenced(blobs: map<Key, Blob>, keys: seq<Key>): map<Key, Blob> {
    map key | key in blobs ::
      if key in keys then blobs[key].(refs := blobs[key].refs + 1) else blobs[key]
  }

  function RecordedOf(c: Contract, input: Input, inboundId: Option<string>, now: int): Recorded {
    Recorded(inboundId, input.direction, input.source, input.driver, input.payload,
             Distinct(SpooledKeys(c, input.staged)), input.correlation, input.dedup, now)
  }

  function NewEvent(r: Recorded): Event {
    Event(r, PendingBlobs, PendingBlobs, 0, 0, None, r.createdAt, None)
  }

  /** The unique columns: a clash rolls the whole transaction back. */
  predicate Clashes(db: Db, id: Id, dedup: Option<string>) {
    id in db.events || (dedup.Some? && HasDedup(db, dedup.value))
  }

  function Committed(c: Contract, db: Db, id: Id, input: Input, inboundId: Option<string>, now: int): Db {
    var r := RecordedOf(c, input, inboundId, now);
    if Clashes(db, id, input.dedup) then db
    else
      Db(db.events[id := NewEvent(r)],
         Referenced(InsertBlobs(c, db.blobs, input.staged), r.blobKeys),
         db.links + (set key | key in r.blobKeys :: (id, key)))
  }

  // ---- one-row updates ----

  function WithEvent(db: Db, id: Id, e: Event): Db {
    if id in db.events then db.(events := db.events[id := e]) else db
  }

  function Confirmed(db: Db, key: Key, hubKey: Key): Db {
    if key in db.blobs then
      db.(blobs := db.blobs[key := db.blobs[key].(confirmed := true, hubKey := Some(hubKey))])
    else db
  }

  function Unconfirmed(db: Db, keys: seq<Key>): Db {
    db.(blobs := map key | key in db.blobs ::
      if key in keys then db.blobs[key].(confirmed := false, hubKey := None) else db.blobs[key])
  }

  function MarkedPendingAppend(db: Db, id: Id, now: int): Db {
    if id !in db.events then db
    else WithEvent(db, id, db.events[id].(state := PendingAppend, resume := PendingAppend,
                                          nextAttemptAt := 0, lastError := None, updatedAt := now))
  }

  function MarkedAcked(db: Db, id: Id, now: int): Db {
    if id !in db.events then db
    else WithEvent(db, id, db.events[id].(state := Acked, ackedAt := Some(now), lastError := None, updatedAt := now))
  }

  function MarkedRetry(db: Db, id: Id, resume: State, code: string, at: int, now: int): Db {
    if id !in db.events then db
    else WithEvent(db, id, db.events[id].(state := RetryWait, resume := resume, nextAttemptAt := at,
                                          lastError := Some(code), updatedAt := now,
                                          attempts := db.events[id].attempts + 1))
  }

  function MarkedDeadLetter(db: Db, id: Id, code: string, now: int): Db {
    if id !in db.events then db
    else WithEvent(db, id, db.events[id].(state := DeadLetter, resume := PendingAppend, nextAttemptAt := 0,
                                          lastError := Some(code), updatedAt := now,
                                          attempts := db.events[id].attempts + 1))
  }

  predicate Replayable(db: Db, id: Id) { id in db.events && db.events[id].state.DeadLetter? }

  function ReplayTarget(db: Db, e: Event): State {
    if BlobsConfirmed(db, e) then PendingAppend else PendingBlobs
  }

  /** Every listed dead letter returns to the queue; every other row is untouched. */
  function Replayed(db: Db, ids: set<Id>, now: int): Db {
    db.(events := map id | id in db.events ::
      if id in ids && Replayable(db, id) then
        db.events[id].(state := ReplayTarget(db, db.events[id]), resume := ReplayTarget(db, db.events[id]),
                       nextAttemptAt := 0, updatedAt := now)
      else db.events[id])
  }

  // ---- the invariant ----

  ghost predicate RowOk(e: Event) {
    && NoDuplicates(e.recorded.blobKeys)
    && (e.resume.PendingBlobs? || e.resume.PendingAppend?)
    && (e.state.PendingBlobs? || e.state.PendingAppend? ==> e.resume == e.state)
  }

  ghost predicate RowsOk(db: Db) {
    forall id :: id in db.events ==> RowOk(db.events[id])
  }

  ghost predicate LinksOk(db: Db) {
    && (forall id, key :: (id, key) in db.links <==> id in db.events && key in db.events[id].recorded.blobKeys)
    && (forall id, key :: id in db.events && key in db.events[id].recorded.blobKeys ==> key in db.blobs)
  }

  ghost predicate CountsOk(db: Db) {
    forall key :: key in db.blobs ==> db.blobs[key].refs == |Referencing(db, key)|
  }

  ghost predicate FlagsOk(db: Db) {
    forall key :: key in db.blobs ==> (db.blobs[key].confirmed <==> db.blobs[key].hubKey.Some?)
  }

  ghost predicate DedupOk(db: Db) {
    forall a, b :: (a in db.events && b in db.events && db.events[a].recorded.dedup.Some?
                    && db.events[a].recorded.dedup == db.events[b].recorded.dedup) ==> a == b
  }

  ghost predicate DbOk(db: Db) {
    RowsOk(db) && LinksOk(db) && CountsOk(db) && FlagsOk(db) && DedupOk(db)
  }

  /** The same events with the same recorded columns. */
  ghost predicate SameRecords(a: Db, b: Db) {
    && a.events.Keys == b.events.Keys
    && a.links == b.links
    && a.blobs.Keys == b.blobs.Keys
    && (forall id :: id in a.events ==> a.events[id].recorded == b.events[id].recorded)
    && (forall key :: key in a.blobs ==> a.blobs[key].refs == b.blobs[key].refs)
  }

  lemma SameRecordsKeepsTables(a: Db, b: Db)
    requires SameRecords(a, b) && LinksOk(a) && CountsOk(a) && DedupOk(a)
    ensures LinksOk(b) && CountsOk(b) && DedupOk(b)
  {
    forall key | key in b.blobs ensures b.blobs[key].refs == |Referencing(b, key)| {
      assert Referencing(a, key) == Referencing(b, key);
    }
    forall id, key ensures (id, key) in b.links <==> id in b.events && key in b.events[id].recorded.blobKeys {
      assert (id, key) in a.links <==> id in a.events && key in a.events[id].recorded.blobKeys;
    }
  }

  lemma ReferencingAfterInsert(db: Db, next: Db, id: Id, e: Event, key: Key)
    requires id !in db.events && next.events == db.events[id := e]
    ensures Referencing(next, key) == Referencing(db, key) + (if key in e.recorded.blobKeys then {id} else {})
  {
  }

  lemma UnlinkedIsUnreferenced(db: Db, key: Key)
    requires LinksOk(db) && key !in db.blobs
    ensures Referencing(db, key) == {}
  {
  }

  lemma CommitCountsOne(c: Contract, db: Db, id: Id, input: Input, inboundId: Option<string>, now: int, key: Key)
    requires LinksOk(db) && CountsOk(db) && !Clashes(db, id, input.dedup)
    requires key in Committed(c, db, id, input, inboundId, now).blobs
    ensures var next := Committed(c, db, id, input, inboundId, now); next.blobs[key].refs == |Referencing(next, key)|
  {
    var next := Committed(c, db, id, input, inboundId, now);
    ReferencingAfterInsert(db, next, id, NewEvent(RecordedOf(c, input, inboundId, now)), key);
    if key !in db.blobs { UnlinkedIsUnreferenced(db, key); }
    assert InsertBlobs(c, db.blobs, input.staged)[key].refs == |Referencing(db, key)|;
    assert id !in Referencing(db, key);
  }

  lemma CommitCounts(c: Contract, db: Db, id: Id, input: Input, inboundId: Option<string>, now: int)
    requires LinksOk(db) && CountsOk(db) && !Clashes(db, id, input.dedup)
    ensures CountsOk(Committed(c, db, id, input, inboundId, now))
  {
    var next := Committed(c, db, id, input, inboundId, now);
    forall key | key in next.blobs ensures next.blobs[key].refs == |Referencing(next, key)| {
      CommitCountsOne(c, db, id, input, inboundId, now, key);
    }
  }

  /** A commit, rolled back or not, keeps reference counts, links and the unique key. */
  lemma CommitKeepsTables(c: Contract, db: Db, id: Id, input: Input, inboundId: Option<string>, now: int)
    requires DbOk(db)
    ensures DbOk(Committed(c, db, id, input, inboundId, now))
  {
    if !Clashes(db, id, input.dedup) {
      CommitCounts(c, db, id, input, inboundId, now);
      DistinctIsASet(SpooledKeys(c, input.staged));
      var next := Committed(c, db, id, input, inboundId, now);
      assert LinksOk(next) by {
        forall e, key ensures (e, key) in next.links <==> e in next.events && key in next.events[e].recorded.blobKeys {
          assert (e, key) in db.links <==> e in db.events && key in db.events[e].recorded.blobKeys;
        }
      }
      assert DedupOk(next) by {
        forall a, b | a in next.events && b in next.events && next.events[a].recorded.dedup.Some?
          && next.events[a].recorded.dedup == next.events[b].recorded.dedup
          ensures a == b
        {
          if a != b && (a == id || b == id) {
            assert false;
          }
        }
      }
    }
  }

  lemma EventUpdateKeepsTables(db: Db, id: Id, e: Event)
    requires DbOk(db) && id in db.events && e.recorded == db.events[id].recorded && RowOk(e)
    ensures DbOk(WithEvent(db, id, e))
  {
    SameRecordsKeepsTables(db, WithEvent(db, id, e));
  }

  lemma ConfirmKeepsTables(db: Db, key: Key, hubKey: Key)
    requires DbOk(db)
    ensures DbOk(Confirmed(db, key, hubKey))
  {
    SameRecordsKeepsTables(db, Confirmed(db, key, hubKey));
  }

  lemma UnconfirmKeepsTables(db: Db, keys: seq<Key>)
    requires DbOk(db)
    ensures DbOk(Unconfirmed(db, keys))
  {
    SameRecordsKeepsTables(db, Unconfirmed(db, keys));
  }

  lemma ReplayKeepsTables(db: Db, ids: set<Id>, now: int)
    requires DbOk(db)
    ensures DbOk(Replayed(db, ids, now))
  {
    SameRecordsKeepsTables(db, Replayed(db, ids, now));
  }

  /** Where a replay leaves each row: a listed dead letter goes back to its append exactly
      when all its blobs are confirmed, and to its blobs otherwise, with its attempts and its
      last error; everything else stays. */
  lemma ReplayResumes(db: Db, ids: set<Id>, now: int, id: Id)
    requires id in db.events
    ensures id in Replayed(db, ids, now).events && Replayed(db, ids, now).blobs == db.blobs
    ensures var was, e := db.events[id], Replayed(db, ids, now).events[id];
      if id in ids && was.state == DeadLetter then
        && e == was.(state := e.state, resume := e.state, nextAttemptAt := 0, updatedAt := now)
        && (e.state == PendingAppend || e.state == PendingBlobs)
        && (e.state == PendingAppend <==> forall key :: key in was.recorded.blobKeys ==> key in db.blobs && db.blobs[key].confirmed)
      else e == was
  {
  }

  /** Waiting for a phase, or for a retry whose time has come. */
  predicate Waits(e: Event, now: int) {
    e.state == PendingBlobs || e.state == PendingAppend || (e.state == RetryWait && e.nextAttemptAt <= now)
  }

  /** Only such rows are listed, and none is left out for a younger one. */
  lemma DueListIs(db: Db, now: int, limit: nat, list: seq<Id>)
    requires IsOldest(Due(db, now), CreatedAt(db), limit, list)
    ensures |list| <= limit && forall id :: id in list ==> id in db.events && Waits(db.events[id], now)
    ensures forall id :: id in db.events && Waits(db.events[id], now) && id !in list ==>
      |list| == limit && forall other :: other in list ==> db.events[other].recorded.createdAt <= db.events[id].recorded.createdAt
  {
    var due := Due(db, now);
    forall id | id in db.events && Waits(db.events[id], now) && id !in list
      ensures |list| == limit && forall other :: other in list ==> db.events[other].recorded.createdAt <= db.events[id].recorded.createdAt
    {
      assert id in due && id !in ToSet(list);
      DistinctLength(list);
      if |ToSet(list)| == |due| { SubsetOfSameSize(ToSet(list), due); }
    }
  }

  // ---- the summary ----

  datatype Summary = Summary(pending: nat, retry: nat, deadLetter: nat, acked: nat)

  function SummaryOf(db: Db): Summary {
    Summary(|InState(db, PendingBlobs) + InState(db, PendingAppend)|, |InState(db, RetryWait)|,
            |InState(db, DeadLetter)|, |InState(db, Acked)|)
  }

  lemma StatesPartition(db: Db)
    ensures forall a, b :: a != b ==> InState(db, a) !! InState(db, b)
    ensures InState(db, PendingBlobs) + InState(db, PendingAppend) + InState(db, RetryWait)
            + InState(db, DeadLetter) + InState(db, Acked) == db.events.Keys
  {
    forall id | id in db.events.Keys ensures id in InState(db, db.events[id].state) {
    }
  }

  lemma FiveDisjoint(a: set<Id>, b: set<Id>, c: set<Id>, d: set<Id>, e: set<Id>)
    requires a !! b && a !! c && a !! d && a !! e && b !! c && b !! d && b !! e && c !! d && c !! e && d !! e
    ensures |a + b| + |c| + |d| + |e| == |a + b + c + d + e|
  {
    DisjointSize(a + b, c);
    DisjointSize(a + b + c, d);
    DisjointSize(a + b + c + d, e);
  }

  /** The four counts of the summary are what they are called, and cover every event exactly
      once. */
  lemma SummaryCountsEveryEvent(db: Db)
    ensures var s := SummaryOf(db); s.pending + s.retry + s.deadLetter + s.acked == |db.events|
    ensures SummaryOf(db).pending == |set id | id in db.events && (db.events[id].state == PendingBlobs || db.events[id].state == PendingAppend)|
    ensures SummaryOf(db).retry == |set id | id in db.events && db.events[id].state == RetryWait|
    ensures SummaryOf(db).deadLetter == |set id | id in db.events && db.events[id].state == DeadLetter|
    ensures SummaryOf(db).acked == |set id | id in db.events && db.events[id].state == Acked|
  {
    assert InState(db, PendingBlobs) + InState(db, PendingAppend)
      == set id | id in db.events && (db.events[id].state == PendingBlobs || db.events[id].state == PendingAppend);
    StatesPartition(db);
    FiveDisjoint(InState(db, PendingBlobs), InState(db, PendingAppend), InState(db, RetryWait),
                 InState(db, DeadLetter), InState(db, Acked));
    assert |db.events| == |db.events.Keys|;
  }
}
