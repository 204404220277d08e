/** An event that resumes at its append without a Hub key: a run that leads there, and what
    it takes to get out again. */
module AuditStuck {
  import opened Prelude
  import opened Outbox
  import opened AuditLane
  import opened AuditInvariant
  import opened AuditProtocol
  import opened AuditNaming
  import opened DrainBound

  // ---- a stretch of the worker concerns one event ----

  ghost predicate WorksOn(a: Lane, b: Lane, id: Id) {
    && a.db.events.Keys == b.db.events.Keys
    && (forall e :: e in a.db.events && e != id ==> b.db.events[e] == a.db.events[e])
    && (forall p :: p in b.sent && p.eventId != id ==> p in a.sent)
    && (b.pc.Idle? || b.pc.job.id == id)
    && (b.queue == a.queue || (a.queue != [] && a.queue[0].id == id && b.queue == a.queue[1..]))
  }

  lemma FailWorksOn(c: Contract, lane: Lane, job: Job, f: Failure, clock: Clock)
    ensures WorksOn(lane, Fail(c, lane, job, f, clock), job.id)
  {
  }

  lemma StartWorksOn(c: Contract, lane: Lane, job: Job, clock: Clock)
    ensures WorksOn(lane, StartAppend(c, lane, job, clock), job.id)
  {
    FailWorksOn(c, lane, job, Other, clock);
  }

  lemma {:induction false} UploadsWorkOn(c: Contract, lane: Lane, job: Job, entries: seq<Prepared>, next: nat, clock: Clock)
    requires next <= |entries| == |AttachmentsOf(job.event)|
    ensures WorksOn(lane, Uploads(c, lane, job, entries, next, clock), job.id)
    decreases |entries| - next
  {
    if next == |entries| {
      StartWorksOn(c, lane.(db := MarkedPendingAppend(lane.db, job.id, clock.now)), job, clock);
    } else {
      FailWorksOn(c, lane, job, Other, clock);
      UploadsWorkOn(c, AfterConfirm(c, lane, job, entries, next), job, entries, next + 1, clock);
    }
  }

  lemma BeginWorksOn(c: Contract, lane: Lane, cap: Option<Capability>, clock: Clock)
    requires lane.queue != []
    ensures WorksOn(lane, Begin(c, lane, cap, clock), lane.queue[0].id)
  {
    var head := lane.queue[0];
    var job, rest := Job(head.id, head.event, ResumeOf(head.event)), lane.(queue := lane.queue[1..]);
    var attachments := AttachmentsOf(job.event);
    if job.resume.PendingAppend? {
      StartWorksOn(c, rest, job, clock);
    } else if attachments == [] {
      StartWorksOn(c, rest.(db := MarkedPendingAppend(rest.db, job.id, clock.now)), job, clock);
    } else if cap.None? || cap.value.version != 1 {
      FailWorksOn(c, rest, job, Other, clock);
    } else if !WithinLimits(cap.value, attachments) {
      FailWorksOn(c, rest, job, Http(413, true, None), clock);
    }
  }

  lemma PreparedWorksOn(c: Contract, lane: Lane, reply: PrepareReply, clock: Clock)
    requires lane.pc.Preparing?
    ensures WorksOn(lane, OnPrepared(c, lane, reply, clock), lane.pc.job.id)
  {
    var job := lane.pc.job;
    match reply
    case PrepareFailed(f) => FailWorksOn(c, lane, job, f, clock);
    case PrepareAnswer(entries) =>
      if |entries| == |AttachmentsOf(job.event)| { UploadsWorkOn(c, lane, job, entries, 0, clock); }
      else { FailWorksOn(c, lane, job, Other, clock); }
  }

  lemma PutWorksOn(c: Contract, lane: Lane, reply: PutReply, clock: Clock)
    requires AtUpload(c, lane)
    ensures WorksOn(lane, OnPut(c, lane, reply, clock), lane.pc.job.id)
  {
    var job, entries, next := lane.pc.job, lane.pc.entries, lane.pc.next;
    match PutFailure(reply)
    case Some(f) => FailWorksOn(c, lane, job, f, clock);
    case None => UploadsWorkOn(c, AfterConfirm(c, lane, job, entries, next), job, entries, next + 1, clock);
  }

  lemma AppendedWorksOn(c: Contract, lane: Lane, reply: AppendReply, clock: Clock)
    requires lane.pc.Appending?
    ensures WorksOn(lane, OnAppended(c, lane, reply, clock), lane.pc.job.id)
  {
    if reply.AppendFailed? { FailWorksOn(c, lane, lane.pc.job, reply.failure, clock); }
  }

  // ---- stuck ----

  /** The event's next turn starts at its append, and attachment `a` has no Hub key. */
  ghost predicate Stuck(c: Contract, s: Sys, id: Id, a: Attachment) {
    && id in s.lane.db.events && a in AttachmentsOf(s.lane.db.events[id]) && !HasKey(c, s.lane.db, a)
    && (s.lane.db.events[id].state.PendingAppend? || s.lane.db.events[id].state.RetryWait?)
    && ResumeOf(s.lane.db.events[id]).PendingAppend?
    && (s.lane.pc.Idle? || s.lane.pc.job.id != id)
  }

  /** Not acknowledged, and no append call made for it since. */
  ghost predicate NoProgress(a: Sys, b: Sys, id: Id) {
    && id in b.lane.db.events && !b.lane.db.events[id].state.Acked?
    && forall p :: p in b.lane.sent && p.eventId == id ==> p in a.lane.sent
  }

  lemma OthersLeaveStuck(c: Contract, s: Sys, s': Sys, id: Id, a: Attachment, other: Id)
    requires Stuck(c, s, id, a) && other != id && WorksOn(s.lane, s'.lane, other) && !HasKey(c, s'.lane.db, a)
    ensures Stuck(c, s', id, a) && NoProgress(s, s', id)
  {
  }

  lemma WorkerLeavesStuck(c: Contract, s: Sys, step: Step, id: Id, a: Attachment)
    requires Stuck(c, s, id, a) && Enabled(c, s, step) && (step.PrepareDone? || step.PutDone? || step.AppendDone?)
    requires !HasKey(c, Next(c, s, step).lane.db, a)
    ensures Stuck(c, Next(c, s, step), id, a) && NoProgress(s, Next(c, s, step), id)
  {
    match step {
      case PrepareDone(reply, clock) => PreparedWorksOn(c, s.lane, reply, clock);
      case PutDone(reply, clock) => PutWorksOn(c, s.lane, reply, clock);
      case AppendDone(reply, clock) => AppendedWorksOn(c, s.lane, reply, clock);
    }
    OthersLeaveStuck(c, s, Next(c, s, step), id, a, s.lane.pc.job.id);
  }

  lemma BeginLeavesStuck(c: Contract, s: Sys, cap: Option<Capability>, clock: Clock, id: Id, a: Attachment)
    requires SysOk(c, s, false) && Stuck(c, s, id, a) && Enabled(c, s, BeginEvent(cap, clock))
    requires !HasKey(c, Next(c, s, BeginEvent(cap, clock)).lane.db, a)
    ensures Stuck(c, Next(c, s, BeginEvent(cap, clock)), id, a) && NoProgress(s, Next(c, s, BeginEvent(cap, clock)), id)
  {
    var s' := Next(c, s, BeginEvent(cap, clock));
    BeginWorksOn(c, s.lane, cap, clock);
    if s.lane.queue[0].id == id {
      BeginStep(c, s, cap, clock, false);
      ResumeWithoutKeyIsStuck(c, s.lane, cap, clock, a);
    } else {
      OthersLeaveStuck(c, s, s', id, a, s.lane.queue[0].id);
    }
  }

  lemma CommitLeavesStuck(c: Contract, s: Sys, call: nat, minted: Minted, id: Id, a: Attachment)
    requires Stuck(c, s, id, a) && call in s.calls
    ensures Stuck(c, Commit(c, s, call, minted), id, a) && NoProgress(s, Commit(c, s, call, minted), id)
  {
  }

  lemma RecordLeavesStuck(c: Contract, s: Sys, step: Step, id: Id, a: Attachment)
    requires Stuck(c, s, id, a) && Enabled(c, s, step) && (step.RecordBegin? || step.RecordCheck? || step.RecordIngest?)
    ensures Stuck(c, Next(c, s, step), id, a) && NoProgress(s, Next(c, s, step), id)
  {
    match step
    case RecordBegin(_, _) =>
    case RecordCheck(call, _, minted) => CommitLeavesStuck(c, s, call, minted, id, a);
    case RecordIngest(call, _, minted) => CommitLeavesStuck(c, s, call, minted, id, a);
  }

  lemma ReplayLeavesStuck(c: Contract, s: Sys, ids: Option<set<Id>>, now: int, id: Id, a: Attachment)
    requires Stuck(c, s, id, a)
    ensures Stuck(c, Next(c, s, Replay(ids, now)), id, a) && NoProgress(s, Next(c, s, Replay(ids, now)), id)
  {
    assert Next(c, s, Replay(ids, now)).lane.db.events[id] == s.lane.db.events[id];
  }

  lemma StepLeavesStuck(c: Contract, s: Sys, step: Step, id: Id, a: Attachment)
    requires SysOk(c, s, false) && Stuck(c, s, id, a) && !HasKey(c, Next(c, s, step).lane.db, a)
    ensures Stuck(c, Next(c, s, step), id, a) && NoProgress(s, Next(c, s, step), id)
  {
    if Enabled(c, s, step) {
      match step
      case BeginEvent(cap, clock) => BeginLeavesStuck(c, s, cap, clock, id, a);
      case PrepareDone(_, _) => WorkerLeavesStuck(c, s, step, id, a);
      case PutDone(_, _) => WorkerLeavesStuck(c, s, step, id, a);
      case AppendDone(_, _) => WorkerLeavesStuck(c, s, step, id, a);
      case RecordBegin(_, _) => RecordLeavesStuck(c, s, step, id, a);
      case RecordCheck(_, _, _) => RecordLeavesStuck(c, s, step, id, a);
      case RecordIngest(_, _, _) => RecordLeavesStuck(c, s, step, id, a);
      case Replay(ids, now) => ReplayLeavesStuck(c, s, ids, now, id, a);
      case _ =>
    }
  }

  /** No state of the continuation has a Hub key for the attachment. */
  ghost predicate NeverConfirmed(c: Contract, s: Sys, steps: seq<Step>, a: Attachment) {
    forall n :: 0 <= n <= |steps| ==> !HasKey(c, Run(c, s, steps[..n]).lane.db, a)
  }

  lemma FewerConfirmed(c: Contract, s: Sys, steps: seq<Step>, a: Attachment)
    requires NeverConfirmed(c, s, steps, a) && steps != []
    ensures NeverConfirmed(c, s, steps[..|steps| - 1], a) && !HasKey(c, Run(c, s, steps).lane.db, a)
  {
    var before := steps[..|steps| - 1];
    forall k | 0 <= k <= |before| ensures !HasKey(c, Run(c, s, before[..k]).lane.db, a) { assert before[..k] == steps[..k]; }
    assert steps[..|steps|] == steps;
  }

  lemma OnwardsOk(c: Contract, steps: seq<Step>, more: seq<Step>)
    ensures SysOk(c, Run(c, Run(c, Init, steps), more), false)
  {
    RunKeeps(c, steps, false);
    RunLater(c, Run(c, Init, steps), more);
  }

  /** From any state of any run: until some step confirms the blob again, the event makes
      no further append and is not acknowledged, whatever else happens. */
  lemma {:induction false} StuckUntilConfirmed(c: Contract, steps: seq<Step>, more: seq<Step>, id: Id, a: Attachment)
    requires Stuck(c, Run(c, Init, steps), id, a) && NeverConfirmed(c, Run(c, Init, steps), more, a)
    ensures var s := Run(c, Init, steps); Stuck(c, Run(c, s, more), id, a) && NoProgress(s, Run(c, s, more), id)
    decreases |more|
  {
    var s := Run(c, Init, steps);
    if more != [] {
      var n := |more| - 1;
      FewerConfirmed(c, s, more, a);
      StuckUntilConfirmed(c, steps, more[..n], id, a);
      OnwardsOk(c, steps, more[..n]);
      StepLeavesStuck(c, Run(c, s, more[..n]), more[n], id, a);
    }
  }

  /** So a later acknowledgement or append shows that the blob was confirmed in between. */
  lemma ProgressNeedsConfirmation(c: Contract, steps: seq<Step>, more: seq<Step>, id: Id, a: Attachment)
    requires Stuck(c, Run(c, Init, steps), id, a)
    requires !NoProgress(Run(c, Init, steps), Run(c, Run(c, Init, steps), more), id)
    ensures exists n :: 0 <= n <= |more| && HasKey(c, Run(c, Run(c, Init, steps), more[..n]).lane.db, a)
  {
    if NeverConfirmed(c, Run(c, Init, steps), more, a) {
      StuckUntilConfirmed(c, steps, more, id, a);
    }
  }

  // ---- a run that leads there ----

  lemma MissingNext(c: Contract, s: Sys, key: Key)
    requires s.lane.pc.Appending? && s.lane.pc.job.id in s.lane.db.events && !c.errorClass(c.missingBlobs).Permanent?
    requires key in s.lane.pc.job.event.recorded.blobKeys && key in s.lane.db.blobs
    ensures var s' := Next(c, s, AppendDone(AppendFailed(Rpc(c.missingBlobs, "", None)), Noon));
      && s'.lane.pc == Idle && key in s'.lane.db.blobs && s'.lane.db.blobs[key].hubKey == None
      && s'.lane.sent == s.lane.sent && s'.lane.queue == s.lane.queue
      && s'.lane.db.events.Keys == s.lane.db.events.Keys
      && forall e :: e in s.lane.db.events && e != s.lane.pc.job.id ==> s'.lane.db.events[e] == s.lane.db.events[e]
  {
    FailWorksOn(c, s.lane, s.lane.pc.job, Rpc(c.missingBlobs, "", None), Noon);
  }

  /** Two events share a blob. The first gets as far as its append, and the process dies;
      the second's append is answered "missing blobs". The first is stuck. */
  lemma StuckRun(c: Contract, sha: string, name: string) returns (steps: seq<Step>)
    requires !c.errorClass(c.missingBlobs).Permanent?
    ensures Stuck(c, Run(c, Init, steps), "a", File(sha, name))
  {
    var a := File(sha, name);
    var first := FirstSentRun(c, a, a);
    var s2 := LoseKey(c, Run(c, Init, first), a);
    steps := first + [PollDue(["b", "a"], 0)] + [BeginEvent(Connected, Noon)]
             + [PrepareDone(Present(a, HubKeyOf(c, a)), Noon)]
             + [AppendDone(AppendFailed(Rpc(c.missingBlobs, "", None)), Noon)];
    RunFour(c, Init, first, PollDue(["b", "a"], 0), BeginEvent(Connected, Noon),
            PrepareDone(Present(a, HubKeyOf(c, a)), Noon), AppendDone(AppendFailed(Rpc(c.missingBlobs, "", None)), Noon));
  }

  lemma LoseKey(c: Contract, s: Sys, a: Attachment) returns (s': Sys)
    requires FirstSent(c, s, a, a) && a.size == 0 && !c.errorClass(c.missingBlobs).Permanent?
    ensures s' == Run4(c, s, PollDue(["b", "a"], 0), BeginEvent(Connected, Noon),
                       PrepareDone(Present(a, HubKeyOf(c, a)), Noon),
                       AppendDone(AppendFailed(Rpc(c.missingBlobs, "", None)), Noon))
    ensures Stuck(c, s', "a", a)
  {
    var s3 := ToAppend(c, s, ["b", "a"], a);
    assert SpooledKeys(c, [a])[0] == LocalKeyOf(c, a);
    assert LocalKeyOf(c, a) in Row(c, a).blobKeys;
    MissingNext(c, s3, LocalKeyOf(c, a));
    s' := Next(c, s3, AppendDone(AppendFailed(Rpc(c.missingBlobs, "", None)), Noon));
    assert "a" != "b" && s'.lane.db.events["a"] == s.lane.db.events["a"];
    assert [a][0] in AttachmentsOf(s'.lane.db.events["a"]);
  }
}
