/** From `record` to the Hub: which input an event's columns come from, and so what the
    Hub's record of an acknowledged event says. */
module AuditPayload {
  import opened Prelude
  import opened Outbox
  import opened AuditLane
  import opened AuditInvariant
  import opened AuditProtocol

  /** The row's columns are the input's; its blobs are the staged files, each once. */
  ghost predicate IsFrom(c: Contract, r: Recorded, input: Input) {
    && r.payload == input.payload && r.direction == input.direction && r.source == input.source
    && r.driver == input.driver && r.correlation == input.correlation && r.dedup == input.dedup
    && (r.inboundId.Some? <==> input.direction.Inbound?)
    && NoDuplicates(r.blobKeys)
    && (forall key :: key in r.blobKeys <==> exists a :: a in input.staged && c.localKey(a.sha, a.filename) == key)
  }

  lemma KeysAreStaged(c: Contract, staged: seq<Attachment>, key: Key)
    ensures key in SpooledKeys(c, staged) <==> exists a :: a in staged && c.localKey(a.sha, a.filename) == key
  {
    if a :| a in staged && c.localKey(a.sha, a.filename) == key {
      var i :| 0 <= i < |staged| && staged[i] == a;
      assert SpooledKeys(c, staged)[i] == key;
    }
    if key in SpooledKeys(c, staged) {
      var i :| 0 <= i < |staged| && SpooledKeys(c, staged)[i] == key;
      assert staged[i] in staged;
    }
  }

  /** What the transaction of `record` leaves: a new row that starts at its blobs, with the
      input's columns and the time; all other rows as they were; every staged file listed. */
  lemma CommitRecords(c: Contract, db: Db, id: Id, input: Input, inboundId: Option<string>, now: int)
    requires id !in db.events && (input.dedup.Some? ==> forall e :: e in db.events ==> db.events[e].recorded.dedup != input.dedup)
    requires inboundId.Some? <==> input.direction.Inbound?
    ensures var next := Committed(c, db, id, input, inboundId, now);
      && next.events.Keys == db.events.Keys + {id} && (forall e :: e in db.events ==> next.events[e] == db.events[e])
      && IsFrom(c, next.events[id].recorded, input) && next.events[id].recorded.createdAt == now
      && next.events[id].recorded.inboundId == inboundId
      && next.events[id].state.PendingBlobs? && next.events[id].resume.PendingBlobs? && next.events[id].attempts == 0
      && next.events[id].nextAttemptAt == 0 && next.events[id].lastError.None? && next.events[id].ackedAt.None?
      && forall a :: a in input.staged ==> c.localKey(a.sha, a.filename) in next.blobs
  {
    var keys := SpooledKeys(c, input.staged);
    DistinctIsASet(keys);
    forall key ensures key in keys <==> exists a :: a in input.staged && c.localKey(a.sha, a.filename) == key {
      KeysAreStaged(c, input.staged, key);
    }
  }

  /** A new blob row describes a staged file with its key. */
  ghost predicate StoresFile(c: Contract, staged: seq<Attachment>, key: Key, blob: Blob) {
    exists a :: a in staged && c.localKey(a.sha, a.filename) == key && blob.sha == a.sha && blob.size == a.size
  }

  lemma {:induction false} InsertedStore(c: Contract, blobs: map<Key, Blob>, staged: seq<Attachment>, key: Key)
    requires key in InsertBlobs(c, blobs, staged) && key !in blobs
    ensures StoresFile(c, staged, key, InsertBlobs(c, blobs, staged)[key])
  {
    var n := |staged| - 1;
    var before := InsertBlobs(c, blobs, staged[..n]);
    if key in before {
      InsertedStore(c, blobs, staged[..n], key);
      var a :| a in staged[..n] && c.localKey(a.sha, a.filename) == key && before[key].sha == a.sha && before[key].size == a.size;
      assert a in staged;
    } else {
      assert staged[n] in staged;
    }
  }

  /** … and the blobs: an old row is referenced once more if the event lists it, a new one
      describes its file, is referenced once and not confirmed. */
  lemma CommitStores(c: Contract, db: Db, id: Id, input: Input, inboundId: Option<string>, now: int, key: Key)
    requires id !in db.events && (input.dedup.Some? ==> forall e :: e in db.events ==> db.events[e].recorded.dedup != input.dedup)
    requires key in Committed(c, db, id, input, inboundId, now).blobs
    ensures var blob, listed := Committed(c, db, id, input, inboundId, now).blobs[key], exists a :: a in input.staged && c.localKey(a.sha, a.filename) == key;
      if key in db.blobs then blob == db.blobs[key].(refs := db.blobs[key].refs + if listed then 1 else 0)
      else listed && StoresFile(c, input.staged, key, blob) && blob.refs == 1 && !blob.confirmed && blob.hubKey.None?
  {
    DistinctIsASet(SpooledKeys(c, input.staged));
    KeysAreStaged(c, input.staged, key);
    if key !in db.blobs { InsertedStore(c, db.blobs, input.staged, key); }
  }

  /** What decides a `record` call: without capacity it is refused; a known dedup key, other
      than the empty one, returns the event that has it; both leave the tables alone. So does
      a file that cannot be stored. Everything else waits for its files or commits. */
  lemma RecordDecides(c: Contract, s: Sys, call: nat, admitted: bool, stored: bool, minted: Minted)
    requires call in s.calls
    ensures var after, dedup := OnCheck(c, s, call, admitted, minted), s.calls[call].input.dedup;
      && (!admitted ==> after.lane == s.lane && after.finished == s.finished[call := Finished(s.calls[call].input, Refused)])
      && (admitted && dedup.Some? && dedup.value != "" && (exists id :: id in s.lane.db.events && s.lane.db.events[id].recorded.dedup == dedup) ==>
            after.lane == s.lane && call in after.finished && after.finished[call].outcome.Returned?
            && after.finished[call].outcome.id in s.lane.db.events
            && s.lane.db.events[after.finished[call].outcome.id].recorded.dedup == dedup)
      && (s.calls[call].input.staged != [] ==> after.lane == s.lane)
    ensures !stored ==> OnIngest(c, s, call, stored, minted).lane == s.lane
    ensures !stored ==> OnIngest(c, s, call, stored, minted).finished == s.finished[call := Finished(s.calls[call].input, Refused)]
    ensures stored && s.calls[call].ingested + 1 < |s.calls[call].input.staged| ==> OnIngest(c, s, call, stored, minted).lane == s.lane
  {
  }

  /** An operator's replay of everything leaves no dead letter. */
  lemma ReplayOfAllLeavesNone(c: Contract, s: Sys, now: int, id: Id)
    requires id in s.lane.db.events
    ensures id in Next(c, s, Replay(None, now)).lane.db.events && Next(c, s, Replay(None, now)).lane.db.events[id].state != DeadLetter
    ensures s.lane.db.events[id].state != DeadLetter ==> Next(c, s, Replay(None, now)).lane.db.events[id] == s.lane.db.events[id]
  {
    ReplayResumes(s.lane.db, InState(s.lane.db, DeadLetter), now, id);
  }

  // ---- over every run ----

  ghost predicate CameFrom(c: Contract, s: Sys, id: Id, call: nat) {
    && call in s.finished && s.finished[call].outcome == Returned(id)
    && id in s.lane.db.events && IsFrom(c, s.lane.db.events[id].recorded, s.finished[call].input)
  }

  ghost predicate Sourced(c: Contract, s: Sys, id: Id) { exists call :: CameFrom(c, s, id, call) }

  /** Every event came from a call that returned it; a call returned an event of its own, or
      the one that has its dedup key. */
  ghost predicate EventsSourced(c: Contract, s: Sys) {
    && s.calls.Keys !! s.finished.Keys
    && (forall id :: id in s.lane.db.events ==> Sourced(c, s, id))
    && (forall call :: call in s.finished && s.finished[call].outcome.Returned? ==>
         CameFrom(c, s, s.finished[call].outcome.id, call)
         || (s.finished[call].input.dedup.Some? && s.finished[call].outcome.id in s.lane.db.events
             && s.lane.db.events[s.finished[call].outcome.id].recorded.dedup == s.finished[call].input.dedup))
  }

  /** Calls that ended stay as they ended, and recorded columns stay. */
  ghost predicate FinishedStay(a: Sys, b: Sys) {
    && (forall call :: call in a.finished ==> call in b.finished && b.finished[call] == a.finished[call])
    && Evolves(a.lane.db, b.lane.db)
  }

  lemma SourcedStays(c: Contract, a: Sys, b: Sys, id: Id)
    requires FinishedStay(a, b) && Sourced(c, a, id)
    ensures Sourced(c, b, id)
  {
    var call :| CameFrom(c, a, id, call);
    assert CameFrom(c, b, id, call);
  }

  lemma QuietStays(c: Contract, a: Sys, b: Sys)
    requires EventsSourced(c, a) && SameEvents(a, b) && Evolves(a.lane.db, b.lane.db) && b.calls.Keys !! b.finished.Keys
    ensures EventsSourced(c, b)
  {
    forall id | id in b.lane.db.events ensures Sourced(c, b, id) { SourcedStays(c, a, b, id); }
    forall call | call in b.finished && b.finished[call].outcome.Returned? && CameFrom(c, a, b.finished[call].outcome.id, call)
      ensures CameFrom(c, b, b.finished[call].outcome.id, call)
    {
    }
  }

  lemma FinishStays(c: Contract, s: Sys, call: nat, outcome: Outcome)
    requires EventsSourced(c, s) && call in s.calls
    requires outcome.Returned? ==> outcome.id in s.lane.db.events
    requires outcome.Returned? ==> s.calls[call].input.dedup.Some?
    requires outcome.Returned? ==> s.lane.db.events[outcome.id].recorded.dedup == s.calls[call].input.dedup
    ensures EventsSourced(c, Finish(s, call, outcome))
  {
    var next := Finish(s, call, outcome);
    forall id | id in next.lane.db.events ensures Sourced(c, next, id) { SourcedStays(c, s, next, id); }
    forall other | other in next.finished && other != call && next.finished[other].outcome.Returned?
                   && CameFrom(c, s, next.finished[other].outcome.id, other)
      ensures CameFrom(c, next, next.finished[other].outcome.id, other)
    {
    }
  }

  lemma CommitStays(c: Contract, s: Sys, call: nat, minted: Minted)
    requires EventsSourced(c, s) && call in s.calls
    ensures EventsSourced(c, Commit(c, s, call, minted))
  {
    var input := s.calls[call].input;
    if Clashes(s.lane.db, minted.id, input.dedup) {
      FinishStays(c, s, call, Refused);
    } else {
      CommittedStays(c, s, call, minted);
    }
  }

  lemma CommittedStays(c: Contract, s: Sys, call: nat, minted: Minted)
    requires EventsSourced(c, s) && call in s.calls && !Clashes(s.lane.db, minted.id, s.calls[call].input.dedup)
    ensures EventsSourced(c, Commit(c, s, call, minted))
  {
    var input := s.calls[call].input;
    var inboundId := if input.direction.Inbound? then Some(minted.inboundId) else None;
    CommitRecords(c, s.lane.db, minted.id, input, inboundId, minted.now);
    var next := Commit(c, s, call, minted);
    assert CameFrom(c, next, minted.id, call);
    forall id | id in s.lane.db.events ensures Sourced(c, next, id) { SourcedStays(c, s, next, id); }
    forall other | other in s.finished && s.finished[other].outcome.Returned? && CameFrom(c, s, s.finished[other].outcome.id, other)
      ensures CameFrom(c, next, s.finished[other].outcome.id, other)
    {
    }
  }

  lemma WaitStays(c: Contract, s: Sys, call: nat, at: Call)
    requires EventsSourced(c, s) && call in s.calls
    ensures EventsSourced(c, s.(calls := s.calls[call := at]))
  {
    QuietStays(c, s, s.(calls := s.calls[call := at]));
  }

  lemma CheckStays(c: Contract, s: Sys, call: nat, admitted: bool, minted: Minted)
    requires EventsSourced(c, s) && call in s.calls
    ensures EventsSourced(c, OnCheck(c, s, call, admitted, minted))
  {
    var input := s.calls[call].input;
    if !admitted {
      FinishStays(c, s, call, Refused);
    } else if input.dedup.Some? && input.dedup.value != "" && HasDedup(s.lane.db, input.dedup.value) {
      FinishStays(c, s, call, Returned(FindByDedup(s.lane.db, input.dedup.value)));
    } else if input.staged == [] {
      CommitStays(c, s, call, minted);
    } else {
      WaitStays(c, s, call, Call(input, true, 0));
    }
  }

  lemma IngestStays(c: Contract, s: Sys, call: nat, stored: bool, minted: Minted)
    requires EventsSourced(c, s) && call in s.calls
    ensures EventsSourced(c, OnIngest(c, s, call, stored, minted))
  {
    var at := s.calls[call];
    if !stored {
      FinishStays(c, s, call, Refused);
    } else if at.ingested + 1 == |at.input.staged| {
      CommitStays(c, s, call, minted);
    } else {
      WaitStays(c, s, call, at.(ingested := at.ingested + 1));
    }
  }

  lemma RecordStays(c: Contract, s: Sys, step: Step)
    requires EventsSourced(c, s) && (step.RecordCheck? || step.RecordIngest?)
    ensures EventsSourced(c, Next(c, s, step))
  {
    if Enabled(c, s, step) {
      if step.RecordCheck? {
        CheckStays(c, s, step.call, step.admitted, step.minted);
      } else {
        IngestStays(c, s, step.call, step.stored, step.minted);
      }
    }
  }

  lemma CallsApart(c: Contract, s: Sys, step: Step)
    requires s.calls.Keys !! s.finished.Keys && !step.RecordCheck? && !step.RecordIngest?
    ensures Next(c, s, step).calls.Keys !! Next(c, s, step).finished.Keys
  {
  }

  lemma {:induction false} AlwaysSourced(c: Contract, steps: seq<Step>)
    ensures EventsSourced(c, Run(c, Init, steps))
  {
    if steps != [] {
      var s, step := Run(c, Init, steps[..|steps| - 1]), steps[|steps| - 1];
      AlwaysSourced(c, steps[..|steps| - 1]);
      RunKeeps(c, steps[..|steps| - 1], false);
      if step.RecordCheck? || step.RecordIngest? {
        RecordStays(c, s, step);
      } else {
        StepKeeps(c, s, step, false);
        CallsApart(c, s, step);
        QuietStays(c, s, Next(c, s, step));
      }
    }
  }

  /** In every run: what a call sends is the row's, column by column, with one reference for
      each attachment of the payload; and an event is a row of the input it was recorded
      with. */
  lemma CallsCarryTheirRows(c: Contract, steps: seq<Step>, p: AppendParams)
    requires p in Run(c, Init, steps).lane.sent
    ensures var s := Run(c, Init, steps);
      && p.eventId in s.lane.db.events && Sourced(c, s, p.eventId)
      && Carries(p, s.lane.db.events[p.eventId].recorded)
  {
    AcknowledgedMeansRecorded(c, steps);
    AlwaysSourced(c, steps);
  }

  /** What the Hub holds of an acknowledged event is what some `record` call was given and
      returned this event for. */
  ghost predicate HubHolds(p: AppendParams, input: Input) {
    && p.payload == input.payload && p.direction == input.direction && p.source == input.source
    && p.correlation == input.correlation && p.producer == (if input.driver.Some? then input.driver.value else "lane-controller")
    && DescribesAll(input.payload.attachments, p.attachments)
  }

  lemma AcknowledgedIsWhatWasGiven(c: Contract, steps: seq<Step>, id: Id) returns (call: nat)
    requires id in Run(c, Init, steps).lane.db.events && Run(c, Init, steps).lane.db.events[id].state.Acked?
    ensures var s := Run(c, Init, steps);
      && call in s.finished && s.finished[call].outcome == Returned(id)
      && id in s.hub.records && HubHolds(s.hub.records[id], s.finished[call].input)
  {
    AcknowledgedMeansRecorded(c, steps);
    AlwaysSourced(c, steps);
    assert Sourced(c, Run(c, Init, steps), id);
    call :| CameFrom(c, Run(c, Init, steps), id, call);
  }

  /** A call without a dedup key gets an event with its own columns; one with a key gets
      its own or the one that has the key. */
  lemma ReturnedIsOwnOrDuplicate(c: Contract, steps: seq<Step>, call: nat)
    requires var f := Run(c, Init, steps).finished; call in f && f[call].outcome.Returned?
    ensures var s := Run(c, Init, steps); var input, id := s.finished[call].input, s.finished[call].outcome.id;
      && id in s.lane.db.events
      && (IsFrom(c, s.lane.db.events[id].recorded, input)
          || (input.dedup.Some? && s.lane.db.events[id].recorded.dedup == input.dedup && Sourced(c, s, id)))
  {
    AlwaysSourced(c, steps);
  }
}
