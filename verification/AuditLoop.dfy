/** The audit worker as an object over the outbox it drains. Each method runs from one
    wait for the outside world to the next and is proved to be the corresponding stretch
    of `AuditLane`, so everything proved there holds of it. */
module AuditLoop {
  import opened Prelude
  import opened Outbox
  import opened OutboxStore
  import opened AuditLane
  import opened AuditInvariant

  predicate HasHubKey(blobs: map<Key, Blob>, key: Key) { key in blobs && blobs[key].hubKey.Some? }

  class AuditWorker {
    const outbox: LaneOutbox
    var queue: seq<Snapshot>
    var pc: Pc
    var sent: set<AppendParams>

    constructor (outbox: LaneOutbox)
      ensures this.outbox == outbox && State() == Lane(outbox.Tables(), [], Idle, {})
    {
      this.outbox := outbox;
      queue, pc, sent := [], Idle, {};
    }

    function State(): Lane
      reads this, outbox
    {
      Lane(outbox.Tables(), queue, pc, sent)
    }

    /** `listDue`: at most twenty rows, oldest first. */
    method PollDue(now: int) returns (list: seq<Id>)
      requires pc.Idle? && queue == []
      modifies this
      ensures IsOldest(Due(old(outbox.Tables()), now), CreatedAt(old(outbox.Tables())), 20, list)
      ensures State() == Poll(old(State()), list)
    {
      list := outbox.ListDue(now, 20);
      var events := outbox.events;
      queue := seq(|list|, i requires 0 <= i < |list| && list[i] in events => Snapshot(list[i], events[list[i]]));
    }

    /** The `catch` of `#process`. */
    method GiveUp(c: Contract, job: Job, f: Failure, clock: Clock)
      modifies this, outbox
      ensures State() == Fail(c, old(State()), job, f, clock)
    {
      if ClassOf(c, f).Permanent? {
        outbox.MarkDeadLetter(job.id, CodeOf(f), clock.now);
      } else {
        var resume := job.resume;
        if ReportsMissing(c, f) {
          UnconfirmAll(job.event.recorded.blobKeys);
          resume := PendingBlobs;
        }
        var delay := DelayFor(c, f, job.event.attempts, clock);
        outbox.MarkRetry(job.id, resume, CodeOf(f), clock.now + delay, clock.now);
      }
      pc := Idle;
    }

    method UnconfirmAll(keys: seq<Key>)
      modifies outbox
      ensures outbox.Tables() == Unconfirmed(old(outbox.Tables()), keys)
    {
      assert outbox.Tables() == Unconfirmed(outbox.Tables(), keys[..0]);
      for i := 0 to |keys|
        invariant outbox.Tables() == Unconfirmed(old(outbox.Tables()), keys[..i])
      {
        UnconfirmOneMore(old(outbox.Tables()), keys, i);
        outbox.MarkBlobUnconfirmed(keys[i]);
      }
      assert keys[..|keys|] == keys;
    }

    /** Builds the references from the rows, then calls `mesh.audit.append`. */
    method SendAppend(c: Contract, job: Job, clock: Clock)
      modifies this, outbox
      ensures State() == StartAppend(c, old(State()), job, clock)
      ensures pc.Idle? || (pc.Appending? && pc.job == job)
      ensures pc.Appending? ==> pc.params.eventId == job.id && Carries(pc.params, job.event.recorded) && sent == old(sent) + {pc.params}
      ensures pc.Appending? <==> forall a :: a in AttachmentsOf(job.event) ==> HasHubKey(old(outbox.blobs), LocalKeyOf(c, a))
      ensures pc.Idle? ==> sent == old(sent)
    {
      var attachments := AttachmentsOf(job.event);
      var refs: seq<Ref> := [];
      for i := 0 to |attachments|
        invariant State() == old(State())
        invariant Refs(c, outbox.Tables(), attachments[..i]) == Some(refs)
      {
        var key := LocalKeyOf(c, attachments[i]);
        assert attachments[..i + 1][..i] == attachments[..i];
        if key !in outbox.blobs || outbox.blobs[key].hubKey.None? {
          RefsStop(c, outbox.Tables(), attachments, i + 1);
          assert attachments[i] in attachments;
          GiveUp(c, job, Other, clock);
          return;
        }
        refs := refs + [RefOf(attachments[i], outbox.blobs[key].hubKey.value)];
      }
      assert attachments[..|attachments|] == attachments;
      BuiltCarries(c, outbox.Tables(), job, refs);
      var params := ParamsOf(job.id, job.event.recorded, refs);
      sent := sent + {params};
      pc := Appending(job, params);
    }

    method FinishBlobs(c: Contract, job: Job, clock: Clock)
      modifies this, outbox
      ensures State() == BlobsDone(c, old(State()), job, clock)
    {
      outbox.MarkPendingAppend(job.id, clock.now);
      SendAppend(c, job, clock);
    }

    /** The loop over the prepare answer, up to the next PUT to wait for. */
    method UploadFrom(c: Contract, job: Job, entries: seq<Prepared>, start: nat, clock: Clock)
      requires start <= |entries| == |AttachmentsOf(job.event)|
      modifies this, outbox
      ensures State() == Uploads(c, old(State()), job, entries, start, clock)
    {
      var next := start;
      while next < |entries|
        invariant start <= next <= |entries|
        invariant Uploads(c, State(), job, entries, next, clock) == Uploads(c, old(State()), job, entries, start, clock)
      {
        var a := AttachmentsOf(job.event)[next];
        if a.sha != entries[next].sha || LocalKeyOf(c, a) !in outbox.blobs {
          GiveUp(c, job, Other, clock);
          return;
        }
        if entries[next].missing {
          if entries[next].granted { pc := Uploading(job, entries, next); } else { GiveUp(c, job, Other, clock); }
          return;
        }
        outbox.MarkBlobConfirmed(LocalKeyOf(c, a), entries[next].blobKey);
        next := next + 1;
      }
      FinishBlobs(c, job, clock);
    }

    method BeginEvent(c: Contract, cap: Option<Capability>, clock: Clock)
      requires queue != []
      modifies this, outbox
      ensures State() == Begin(c, old(State()), cap, clock)
    {
      var head := queue[0];
      queue := queue[1..];
      var job := Job(head.id, head.event, ResumeOf(head.event));
      var attachments := AttachmentsOf(job.event);
      if job.resume.PendingAppend? {
        SendAppend(c, job, clock);
      } else if attachments == [] {
        FinishBlobs(c, job, clock);
      } else if cap.None? || cap.value.version != 1 {
        GiveUp(c, job, Other, clock);
      } else if !WithinLimits(cap.value, attachments) {
        GiveUp(c, job, Http(413, true, None), clock);
      } else {
        pc := Preparing(job);
      }
    }

    method PrepareDone(c: Contract, reply: PrepareReply, clock: Clock)
      requires pc.Preparing?
      modifies this, outbox
      ensures State() == OnPrepared(c, old(State()), reply, clock)
    {
      var job := pc.job;
      match reply {
        case PrepareFailed(f) => GiveUp(c, job, f, clock);
        case PrepareAnswer(entries) =>
          if |entries| != |AttachmentsOf(job.event)| { GiveUp(c, job, Other, clock); }
          else { UploadFrom(c, job, entries, 0, clock); }
      }
    }

    method PutDone(c: Contract, reply: PutReply, clock: Clock)
      requires AtUpload(c, State())
      modifies this, outbox
      ensures State() == OnPut(c, old(State()), reply, clock)
    {
      var job, entries, next := pc.job, pc.entries, pc.next;
      match PutFailure(reply) {
        case Some(f) => GiveUp(c, job, f, clock);
        case None =>
          outbox.MarkBlobConfirmed(LocalKeyOf(c, AttachmentsOf(job.event)[next]), entries[next].blobKey);
          UploadFrom(c, job, entries, next + 1, clock);
      }
    }

    method AppendDone(c: Contract, reply: AppendReply, clock: Clock)
      requires pc.Appending?
      modifies this, outbox
      ensures State() == OnAppended(c, old(State()), reply, clock)
    {
      var job := pc.job;
      match reply {
        case AppendAnswer =>
          outbox.MarkAcked(job.id, clock.now);
          pc := Idle;
        case AppendFailed(f) => GiveUp(c, job, f, clock);
      }
    }
  }

  lemma UnconfirmOneMore(db: Db, keys: seq<Key>, i: nat)
    requires i < |keys|
    ensures Unconfirmed(Unconfirmed(db, keys[..i]), [keys[i]]) == Unconfirmed(db, keys[..i + 1])
  {
    assert keys[..i + 1] == keys[..i] + [keys[i]];
    assert Unconfirmed(Unconfirmed(db, keys[..i]), [keys[i]]).blobs == Unconfirmed(db, keys[..i + 1]).blobs;
  }

  /** Once a reference cannot be built, the whole list cannot. */
  lemma {:induction false} RefsStop(c: Contract, db: Db, attachments: seq<Attachment>, i: nat)
    requires i <= |attachments| && Refs(c, db, attachments[..i]).None?
    ensures Refs(c, db, attachments).None?
    decreases |attachments| - i
  {
    if i == |attachments| {
      assert attachments[..i] == attachments;
    } else {
      assert attachments[..i + 1][..i] == attachments[..i];
      RefsStop(c, db, attachments, i + 1);
    }
  }
}
