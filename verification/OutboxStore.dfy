/** The outbox as the daemon runs it: an object whose tables its methods update in place.
    Every method is proved to do to the tables what the functions of `Outbox` say. */
module OutboxStore {
  import opened Prelude
  import opened Outbox

  class LaneOutbox {
    var events: map<Id, Event>
    var blobs: map<Key, Blob>
    var links: set<(Id, Key)>

    constructor ()
      ensures Tables() == EmptyDb
    {
      events, blobs, links := map[], map[], {};
    }

    function Tables(): Db
      reads this
    {
      Db(events, blobs, links)
    }

    /** The transaction at the end of `record`: spooled blobs, the event, its references. */
    method Commit(c: Contract, id: Id, input: Input, inboundId: Option<string>, now: int) returns (committed: bool)
      modifies this
      ensures committed == !Clashes(old(Tables()), id, input.dedup)
      ensures Tables() == Committed(c, old(Tables()), id, input, inboundId, now)
    {
      if Clashes(Tables(), id, input.dedup) {
        return false;
      }
      InsertSpooled(c, input.staged);
      var r := RecordedOf(c, input, inboundId, now);
      DistinctIsASet(SpooledKeys(c, input.staged));
      events := events[id := NewEvent(r)];
      InsertReferences(id, r.blobKeys);
      return true;
    }

    method InsertSpooled(c: Contract, staged: seq<Attachment>)
      modifies this`blobs
      ensures blobs == InsertBlobs(c, old(blobs), staged)
    {
      for i := 0 to |staged|
        invariant blobs == InsertBlobs(c, old(blobs), staged[..i])
      {
        var key := c.localKey(staged[i].sha, staged[i].filename);
        assert staged[..i + 1][..i] == staged[..i];
        if key !in blobs {
          blobs := blobs[key := Blob(staged[i].sha, staged[i].size, 0, false, None)];
        }
      }
      assert staged[..|staged|] == staged;
    }

    method InsertReferences(id: Id, keys: seq<Key>)
      requires NoDuplicates(keys) && forall key :: key in keys ==> key in blobs
      modifies this`blobs, this`links
      ensures blobs == Referenced(old(blobs), keys)
      ensures links == old(links) + (set key | key in keys :: (id, key))
    {
      for i := 0 to |keys|
        invariant blobs == Referenced(old(blobs), keys[..i])
        invariant links == old(links) + (set key | key in keys[..i] :: (id, key))
      {
        ReferencedOneMore(old(blobs), keys, i);
        links := links + {(id, keys[i])};
        blobs := blobs[keys[i] := blobs[keys[i]].(refs := blobs[keys[i]].refs + 1)];
        assert keys[..i + 1] == keys[..i] + [keys[i]];
      }
      assert keys[..|keys|] == keys;
    }

    method ListDue(now: int, limit: nat) returns (list: seq<Id>)
      ensures IsOldest(Due(Tables(), now), CreatedAt(Tables()), limit, list)
      ensures forall id :: id in list ==> id in events && Waits(events[id], now)
      ensures forall id :: id in events && Waits(events[id], now) && id !in list ==>
        |list| == limit && forall other :: other in list ==> events[other].recorded.createdAt <= events[id].recorded.createdAt
    {
      list := Oldest(Due(Tables(), now), CreatedAt(Tables()), limit);
      DueListIs(Tables(), now, limit, list);
    }

    method MarkBlobConfirmed(key: Key, hubKey: Key)
      modifies this
      ensures Tables() == Confirmed(old(Tables()), key, hubKey)
    {
      if key in blobs {
        blobs := blobs[key := blobs[key].(confirmed := true, hubKey := Some(hubKey))];
      }
    }

    method MarkBlobUnconfirmed(key: Key)
      modifies this
      ensures Tables() == Unconfirmed(old(Tables()), [key])
    {
      if key in blobs {
        blobs := blobs[key := blobs[key].(confirmed := false, hubKey := None)];
      }
      assert blobs == Unconfirmed(old(Tables()), [key]).blobs;
    }

    /** Stops at the first reference that is not confirmed. */
    method AreBlobsConfirmed(e: Event) returns (all: bool)
      ensures all == BlobsConfirmed(Tables(), e)
    {
      var keys := e.recorded.blobKeys;
      for i := 0 to |keys|
        invariant forall j :: 0 <= j < i ==> keys[j] in blobs && blobs[keys[j]].confirmed
      {
        if keys[i] !in blobs || !blobs[keys[i]].confirmed {
          return false;
        }
      }
      return true;
    }

    method Transition(id: Id, state: State, resume: State, at: int, code: Option<string>, now: int, attempt: nat)
      modifies this`events
      ensures id !in old(events) ==> events == old(events)
      ensures id in old(events) ==>
        var e := old(events[id]);
        events == old(events)[id := Event(e.recorded, state, resume, e.attempts + attempt, at, code, now, e.ackedAt)]
      ensures EventsLater(old(events), events)
      ensures DbOk(old(Tables())) && Resumable(state, resume) ==> DbOk(Tables())
    {
      if id in events {
        var e := events[id];
        ghost var next := e.(state := state, resume := resume, nextAttemptAt := at, lastError := code,
                             updatedAt := now, attempts := e.attempts + attempt);
        if DbOk(Tables()) && RowOk(next) { EventUpdateKeepsTables(Tables(), id, next); }
        events := events[id := e.(state := state, resume := resume, nextAttemptAt := at, lastError := code,
                                  updatedAt := now, attempts := e.attempts + attempt)];
      }
    }

    method MarkPendingAppend(id: Id, now: int)
      modifies this
      ensures Tables() == MarkedPendingAppend(old(Tables()), id, now)
    {
      Transition(id, PendingAppend, PendingAppend, 0, None, now, 0);
    }

    method MarkAcked(id: Id, now: int)
      modifies this
      ensures Tables() == MarkedAcked(old(Tables()), id, now)
    {
      if id in events {
        events := events[id := events[id].(state := Acked, ackedAt := Some(now), updatedAt := now, lastError := None)];
      }
    }

    method MarkRetry(id: Id, resume: State, code: string, at: int, now: int)
      modifies this
      ensures Tables() == MarkedRetry(old(Tables()), id, resume, code, at, now)
    {
      Transition(id, RetryWait, resume, at, Some(code), now, 1);
    }

    method MarkDeadLetter(id: Id, code: string, now: int)
      modifies this
      ensures Tables() == MarkedDeadLetter(old(Tables()), id, code, now)
    {
      Transition(id, DeadLetter, PendingAppend, 0, Some(code), now, 1);
    }

    method ReplayOne(id: Id, now: int) returns (moved: bool)
      modifies this`events
      ensures moved == Replayable(old(Tables()), id)
      ensures Tables() == Replayed(old(Tables()), {id}, now)
    {
      moved := id in events && events[id].state.DeadLetter?;
      if moved {
        var confirmed := AreBlobsConfirmed(events[id]);
        var target := if confirmed then PendingAppend else PendingBlobs;
        events := events[id := events[id].(state := target, resume := target, nextAttemptAt := 0, updatedAt := now)];
      }
      assert events == Replayed(old(Tables()), {id}, now).events;
    }

    method AllDeadLetters() returns (list: seq<Id>)
      ensures ToSet(list) == InState(Tables(), DeadLetter) && forall id :: id in list ==> Replayable(Tables(), id)
      ensures IsOldest(InState(Tables(), DeadLetter), UpdatedAt(Tables()), |list|, list)
    {
      var dead := InState(Tables(), DeadLetter);
      list := Oldest(dead, UpdatedAt(Tables()), |dead|);
      DistinctLength(list);
      SubsetOfSameSize(ToSet(list), dead);
    }

    method ReplayListed(ids: seq<Id>, now: int) returns (outcome: Outcome)
      modifies this`events
      ensures Tables() == Replayed(old(Tables()), ToSet(ids), now)
      ensures outcome == Sorted(old(Tables()), ids)
    {
      outcome := Outcome([], []);
      assert events == Replayed(old(Tables()), ToSet(ids[..0]), now).events;
      for i := 0 to |ids|
        invariant Tables() == Replayed(old(Tables()), ToSet(ids[..i]), now)
        invariant outcome == Sorted(old(Tables()), ids[..i])
      {
        var id := ids[i];
        SortedOneMore(old(Tables()), ids, i);
        ReplayedOneMore(old(Tables()), ToSet(ids[..i]), id, now);
        var moved := ReplayOne(id, now);
        outcome := if moved then outcome.(replayed := outcome.replayed + [id])
                   else outcome.(skipped := outcome.skipped + [id]);
      }
      assert ids[..|ids|] == ids;
    }

    /** Row by row over the listed ids, or over every dead letter, oldest update first. */
    method ReplayDeadLetters(ids: Option<seq<Id>>, now: int) returns (outcome: Outcome)
      modifies this`events
      ensures Tables() == Replayed(old(Tables()), if ids.Some? then ToSet(ids.value) else InState(old(Tables()), DeadLetter), now)
      ensures ids.Some? ==> outcome == Sorted(old(Tables()), ids.value)
      ensures ids.None? ==> ToSet(outcome.replayed) == InState(old(Tables()), DeadLetter) && outcome.skipped == []
    {
      if ids.Some? {
        outcome := ReplayListed(ids.value, now);
      } else {
        var dead := AllDeadLetters();
        outcome := ReplayListed(dead, now);
        SortedKeepsAll(old(Tables()), dead);
      }
    }
  }

  /** A pending row resumes where it is; any other resumes at one of the two phases. */
  predicate Resumable(state: State, resume: State) {
    (resume.PendingBlobs? || resume.PendingAppend?) && (state.PendingBlobs? || state.PendingAppend? ==> resume == state)
  }

  /** Rows stay, recorded columns are never written again, attempts are only added to. */
  ghost predicate EventsLater(a: map<Id, Event>, b: map<Id, Event>) {
    a.Keys == b.Keys && forall id :: id in a ==> b[id].recorded == a[id].recorded && b[id].attempts >= a[id].attempts
  }

  datatype Outcome = Outcome(replayed: seq<Id>, skipped: seq<Id>)

  /** The first mention of a dead letter is replayed; everything else is skipped. */
  function Sorted(db: Db, ids: seq<Id>): Outcome {
    if ids == [] then Outcome([], [])
    else
      var n := |ids| - 1;
      var before := Sorted(db, ids[..n]);
      if Replayable(db, ids[n]) && ids[n] !in ids[..n] then before.(replayed := before.replayed + [ids[n]])
      else before.(skipped := before.skipped + [ids[n]])
  }

  lemma SortedOneMore(db: Db, ids: seq<Id>, i: nat)
    requires i < |ids|
    ensures ToSet(ids[..i + 1]) == ToSet(ids[..i]) + {ids[i]}
    ensures ids[i] in ToSet(ids[..i]) <==> ids[i] in ids[..i]
    ensures var before := Sorted(db, ids[..i]);
      Sorted(db, ids[..i + 1]) ==
        if Replayable(db, ids[i]) && ids[i] !in ids[..i] then before.(replayed := before.replayed + [ids[i]])
        else before.(skipped := before.skipped + [ids[i]])
  {
    assert ids[..i + 1] == ids[..i] + [ids[i]];
    assert ids[..i + 1][..i] == ids[..i];
  }

  /** Every listed id is reported exactly as often as it was listed. */
  lemma {:induction false} ReplayReportsAll(db: Db, ids: seq<Id>)
    ensures multiset(Sorted(db, ids).replayed) + multiset(Sorted(db, ids).skipped) == multiset(ids)
  {
    if ids != [] {
      ReplayReportsAll(db, ids[..|ids| - 1]);
      assert ids == ids[..|ids| - 1] + [ids[|ids| - 1]];
    }
  }

  /** The replayed ids are the listed dead letters, each once. */
  lemma {:induction false} ReplayReport(db: Db, ids: seq<Id>)
    ensures NoDuplicates(Sorted(db, ids).replayed)
    ensures forall id :: id in Sorted(db, ids).replayed <==> id in ids && Replayable(db, id)
  {
    if ids != [] {
      ReplayReport(db, ids[..|ids| - 1]);
      assert ids == ids[..|ids| - 1] + [ids[|ids| - 1]];
    }
  }

  lemma {:induction false} SortedKeepsAll(db: Db, ids: seq<Id>)
    requires NoDuplicates(ids) && forall id :: id in ids ==> Replayable(db, id)
    ensures Sorted(db, ids) == Outcome(ids, [])
  {
    if ids != [] {
      var n := |ids| - 1;
      SortedKeepsAll(db, ids[..n]);
      assert ids == ids[..n] + [ids[n]];
    }
  }

  lemma ReferencedOneMore(blobs: map<Key, Blob>, keys: seq<Key>, i: nat)
    requires NoDuplicates(keys) && i < |keys| && keys[i] in blobs
    ensures var before := Referenced(blobs, keys[..i]);
      Referenced(blobs, keys[..i + 1]) == before[keys[i] := before[keys[i]].(refs := before[keys[i]].refs + 1)]
  {
    assert keys[..i + 1] == keys[..i] + [keys[i]];
    assert keys[i] !in keys[..i];
  }

  /** Replaying one id more, after a set of ids, is replaying the larger set. */
  lemma ReplayedOneMore(db: Db, ids: set<Id>, id: Id, now: int)
    ensures Replayed(Replayed(db, ids, now), {id}, now) == Replayed(db, ids + {id}, now)
    ensures Replayable(Replayed(db, ids, now), id) <==> Replayable(db, id) && id !in ids
  {
    assert Replayed(Replayed(db, ids, now), {id}, now).events == Replayed(db, ids + {id}, now).events;
  }
}
