/** Why the Hub's blob names matter: a run in which one event is sent in two versions. */
module AuditNaming {
  import opened Prelude
  import opened Outbox
  import opened AuditLane
  import opened AuditInvariant
  import opened AuditProtocol

  const Connected := Some(Capability(1, true, 1, 0, 0))
  const Noon := Clock(0, 0.0)

  function File(sha: string, name: string): Attachment { Attachment(name, None, 0, sha) }

  function Message(a: Attachment): Input {
    Input(Inbound, Channel, None, Payload("", [a]), [a], Correlation(None, ""), None)
  }

  function Row(c: Contract, a: Attachment): Recorded { RecordedOf(c, Message(a), Some(""), 0) }

  function Present(a: Attachment, key: Key): PrepareReply { PrepareAnswer([Prepared(a.sha, false, false, key)]) }

  lemma RunOne(c: Contract, s: Sys, steps: seq<Step>, step: Step)
    ensures Run(c, s, steps + [step]) == Next(c, Run(c, s, steps), step)
  {
    assert (steps + [step])[..|steps|] == steps;
  }

  lemma CommitOne(c: Contract, db: Db, id: Id, a: Attachment)
    requires id !in db.events
    ensures var db' := Committed(c, db, id, Message(a), Some(""), 0);
      && db'.events == db.events[id := NewEvent(Row(c, a))]
      && LocalKeyOf(c, a) in db'.blobs && db.blobs.Keys <= db'.blobs.Keys
  {
    assert SpooledKeys(c, [a])[0] == LocalKeyOf(c, a);
    assert LocalKeyOf(c, a) in SpooledKeys(c, [a]);
  }

  ghost function Run3(c: Contract, s: Sys, a: Step, b: Step, d: Step): Sys {
    Next(c, Next(c, Next(c, s, a), b), d)
  }

  lemma RunThree(c: Contract, s: Sys, steps: seq<Step>, a: Step, b: Step, d: Step)
    ensures Run(c, s, steps + [a] + [b] + [d]) == Run3(c, Run(c, s, steps), a, b, d)
  {
    RunOne(c, s, steps, a);
    RunOne(c, s, steps + [a], b);
    RunOne(c, s, steps + [a] + [b], d);
  }

  /** The three steps that record one message with one attachment. */
  lemma RecordOne(c: Contract, s: Sys, call: nat, id: Id, a: Attachment) returns (s': Sys)
    requires call !in s.calls && call !in s.finished && id !in s.lane.db.events
    ensures s' == Run3(c, s, RecordBegin(call, Message(a)), RecordCheck(call, true, Minted(id, "", 0)),
                       RecordIngest(call, true, Minted(id, "", 0)))
    ensures s'.lane == s.lane.(db := Committed(c, s.lane.db, id, Message(a), Some(""), 0))
    ensures s'.calls == s.calls && s'.finished.Keys == s.finished.Keys + {call}
    ensures s'.hub == s.hub && s'.vouched == s.vouched
  {
    var begun := Next(c, s, RecordBegin(call, Message(a)));
    var checked := Next(c, begun, RecordCheck(call, true, Minted(id, "", 0)));
    assert checked.calls == s.calls[call := Call(Message(a), true, 0)];
    s' := Next(c, checked, RecordIngest(call, true, Minted(id, "", 0)));
    assert s'.calls == s.calls;
  }

  /** Both messages recorded, nothing sent, both keys held by the Hub. */
  ghost predicate Recorded2(c: Contract, s: Sys, a: Attachment, b: Attachment) {
    && s.lane.db.events == map["a" := NewEvent(Row(c, a)), "b" := NewEvent(Row(c, b))]
    && LocalKeyOf(c, a) in s.lane.db.blobs
    && s.lane.queue == [] && s.lane.pc == Idle && s.lane.sent == {}
    && s.hub.known == {HubKeyOf(c, a), HubKeyOf(c, b)}
  }

  lemma HubNext(c: Contract, s: Sys, known: set<Key>)
    ensures Next(c, s, HubBlobs(known)) == s.(hub := s.hub.(known := known))
  {
  }

  lemma RecordTwo(c: Contract, a: Attachment, b: Attachment) returns (s: Sys)
    requires LocalKeyOf(c, a) == LocalKeyOf(c, b)
    ensures s == Next(c, Run3(c, Run3(c, Init,
              RecordBegin(0, Message(a)), RecordCheck(0, true, Minted("a", "", 0)), RecordIngest(0, true, Minted("a", "", 0))),
              RecordBegin(1, Message(b)), RecordCheck(1, true, Minted("b", "", 0)), RecordIngest(1, true, Minted("b", "", 0))),
              HubBlobs({HubKeyOf(c, a), HubKeyOf(c, b)}))
    ensures Recorded2(c, s, a, b)
  {
    CommitOne(c, EmptyDb, "a", a);
    var one := RecordOne(c, Init, 0, "a", a);
    CommitOne(c, one.lane.db, "b", b);
    var two := RecordOne(c, one, 1, "b", b);
    HubNext(c, two, {HubKeyOf(c, a), HubKeyOf(c, b)});
    s := two.(hub := two.hub.(known := {HubKeyOf(c, a), HubKeyOf(c, b)}));
  }

  /** One present attachment: its row is confirmed and the append goes out. */
  lemma PreparedPresent(c: Contract, lane: Lane, job: Job, a: Attachment)
    requires lane.pc == Preparing(job) && AttachmentsOf(job.event) == [a]
    requires LocalKeyOf(c, a) in lane.db.blobs && job.id in lane.db.events
    ensures var after := OnPrepared(c, lane, Present(a, HubKeyOf(c, a)), Noon);
      var p := ParamsOf(job.id, job.event.recorded, [RefOf(a, HubKeyOf(c, a))]);
      && after.sent == lane.sent + {p}
      && after.queue == lane.queue
      && after.pc == Appending(job, p)
      && after.db.blobs.Keys == lane.db.blobs.Keys
      && after.db.blobs[LocalKeyOf(c, a)].hubKey == Some(HubKeyOf(c, a))
      && after.db.events == MarkedPendingAppend(lane.db, job.id, 0).events
  {
    var entries := [Prepared(a.sha, false, false, HubKeyOf(c, a))];
    var confirmed := AfterConfirm(c, lane, job, entries, 0);
    var marked := confirmed.(db := MarkedPendingAppend(confirmed.db, job.id, 0));
    assert OnPrepared(c, lane, Present(a, HubKeyOf(c, a)), Noon) == Uploads(c, lane, job, entries, 0, Noon);
    assert Uploads(c, lane, job, entries, 0, Noon) == Uploads(c, confirmed, job, entries, 1, Noon);
    assert Uploads(c, confirmed, job, entries, 1, Noon) == StartAppend(c, marked, job, Noon);
    OneRef(c, marked.db, a);
  }

  lemma OneRef(c: Contract, db: Db, a: Attachment)
    requires LocalKeyOf(c, a) in db.blobs && db.blobs[LocalKeyOf(c, a)].hubKey.Some?
    ensures Refs(c, db, [a]) == Some([RefOf(a, db.blobs[LocalKeyOf(c, a)].hubKey.value)])
  {
    assert [a][..0] == [];
    assert Refs(c, db, [a][..0]) == Some([]);
    assert [] + [RefOf(a, db.blobs[LocalKeyOf(c, a)].hubKey.value)] == [RefOf(a, db.blobs[LocalKeyOf(c, a)].hubKey.value)];
  }

  lemma TwoDue(db: Db, list: seq<Id>)
    requires list == ["a", "b"] || list == ["b", "a"]
    requires db.events.Keys == {"a", "b"}
    requires forall id :: id in db.events ==> IsDue(db.events[id], 0) && db.events[id].recorded.createdAt == 0
    ensures IsOldest(Due(db, 0), CreatedAt(db), 20, list)
  {
    assert Due(db, 0) == {"a", "b"};
    assert "a" != "b";
  }

  lemma Fits(a: Attachment)
    requires a.size == 0
    ensures WithinLimits(Connected.value, [a])
  {
    assert [a][..0] == [];
    assert TotalSize([a][..0]) == 0;
  }

  lemma PollNext(c: Contract, s: Sys, list: seq<Id>)
    requires list == ["a", "b"] || list == ["b", "a"]
    requires s.lane.pc == Idle && s.lane.queue == [] && s.lane.db.events.Keys == {"a", "b"}
    requires forall id :: id in s.lane.db.events ==> IsDue(s.lane.db.events[id], 0) && s.lane.db.events[id].recorded.createdAt == 0
    ensures var first, second := Snapshot(list[0], s.lane.db.events[list[0]]), Snapshot(list[1], s.lane.db.events[list[1]]);
      Next(c, s, PollDue(list, 0)) == s.(lane := s.lane.(queue := [first, second]))
  {
    TwoDue(s.lane.db, list);
    assert Poll(s.lane, list).queue == [Snapshot(list[0], s.lane.db.events[list[0]]), Snapshot(list[1], s.lane.db.events[list[1]])];
  }

  lemma BeginNext(c: Contract, s: Sys, id: Id, a: Attachment)
    requires s.lane.pc == Idle && s.lane.queue != [] && a.size == 0
    requires s.lane.queue[0] == Snapshot(id, NewEvent(Row(c, a)))
    ensures Next(c, s, BeginEvent(Connected, Noon)) ==
      s.(lane := s.lane.(queue := s.lane.queue[1..], pc := Preparing(Job(id, NewEvent(Row(c, a)), PendingBlobs))))
  {
    Fits(a);
  }

  lemma PrepareNext(c: Contract, s: Sys, job: Job, a: Attachment)
    requires s.lane.pc == Preparing(job) && AttachmentsOf(job.event) == [a] && HubKeyOf(c, a) in s.hub.known
    requires LocalKeyOf(c, a) in s.lane.db.blobs && job.id in s.lane.db.events
    ensures var s' := Next(c, s, PrepareDone(Present(a, HubKeyOf(c, a)), Noon));
      s'.lane == OnPrepared(c, s.lane, Present(a, HubKeyOf(c, a)), Noon) && s'.hub == s.hub
  {
    assert Honest(c, s, Present(a, HubKeyOf(c, a)));
  }

  /** The head of a two-row pass, taken to its append call. */
  lemma ToAppend(c: Contract, s: Sys, list: seq<Id>, a: Attachment) returns (s': Sys)
    requires list == ["a", "b"] || list == ["b", "a"]
    requires s.lane.pc == Idle && s.lane.queue == [] && s.lane.db.events.Keys == {"a", "b"}
    requires forall id :: id in s.lane.db.events ==> IsDue(s.lane.db.events[id], 0) && s.lane.db.events[id].recorded.createdAt == 0
    requires s.lane.db.events[list[0]] == NewEvent(Row(c, a)) && a.size == 0
    requires HubKeyOf(c, a) in s.hub.known && LocalKeyOf(c, a) in s.lane.db.blobs
    ensures s' == Next(c, Next(c, Next(c, s, PollDue(list, 0)), BeginEvent(Connected, Noon)), PrepareDone(Present(a, HubKeyOf(c, a)), Noon))
    ensures s'.hub == s.hub
    ensures s'.lane.sent == s.lane.sent + {ParamsOf(list[0], Row(c, a), [RefOf(a, HubKeyOf(c, a))])}
    ensures s'.lane.queue == [Snapshot(list[1], s.lane.db.events[list[1]])]
    ensures s'.lane.pc.Appending? && s'.lane.pc.job == Job(list[0], NewEvent(Row(c, a)), PendingBlobs)
    ensures s'.lane.db.blobs.Keys == s.lane.db.blobs.Keys
    ensures s'.lane.db.blobs[LocalKeyOf(c, a)].hubKey == Some(HubKeyOf(c, a))
    ensures s'.lane.db.events == MarkedPendingAppend(s.lane.db, list[0], 0).events
  {
    var s1 := Next(c, s, PollDue(list, 0));
    PollNext(c, s, list);
    var s2 := Next(c, s1, BeginEvent(Connected, Noon));
    BeginNext(c, s1, list[0], a);
    var job := Job(list[0], NewEvent(Row(c, a)), PendingBlobs);
    s' := Next(c, s2, PrepareDone(Present(a, HubKeyOf(c, a)), Noon));
    PrepareNext(c, s2, job, a);
    PreparedPresent(c, s2.lane, job, a);
  }

  /** The first message gets as far as its append call; then the process dies. */
  ghost predicate FirstSent(c: Contract, s: Sys, a: Attachment, b: Attachment) {
    && s.lane.sent == {ParamsOf("a", Row(c, a), [RefOf(a, HubKeyOf(c, a))])}
    && s.lane.queue == [] && s.lane.pc == Idle && s.hub.known == {HubKeyOf(c, a), HubKeyOf(c, b)}
    && s.lane.db.events.Keys == {"a", "b"} && LocalKeyOf(c, a) in s.lane.db.blobs
    && s.lane.db.events["a"].recorded == Row(c, a) && s.lane.db.events["a"].state == PendingAppend
    && s.lane.db.events["b"] == NewEvent(Row(c, b))
  }

  lemma CrashNext(c: Contract, s: Sys)
    ensures Next(c, s, Crash) == s.(calls := map[], lane := s.lane.(queue := [], pc := Idle))
  {
  }

  lemma SendFirst(c: Contract, s: Sys, a: Attachment, b: Attachment) returns (s': Sys)
    requires Recorded2(c, s, a, b) && a.size == 0
    ensures s' == Run4(c, s, PollDue(["a", "b"], 0), BeginEvent(Connected, Noon),
                       PrepareDone(Present(a, HubKeyOf(c, a)), Noon), Crash)
    ensures FirstSent(c, s', a, b)
  {
    var s3 := ToAppend(c, s, ["a", "b"], a);
    s' := s3.(calls := map[], lane := s3.lane.(queue := [], pc := Idle));
    CrashNext(c, s3);
  }

  ghost function Run4(c: Contract, s: Sys, a: Step, b: Step, d: Step, e: Step): Sys {
    Next(c, Next(c, Next(c, Next(c, s, a), b), d), e)
  }

  lemma RunFour(c: Contract, s: Sys, steps: seq<Step>, a: Step, b: Step, d: Step, e: Step)
    ensures Run(c, s, steps + [a] + [b] + [d] + [e]) == Run4(c, Run(c, s, steps), a, b, d, e)
  {
    RunOne(c, s, steps, a);
    RunOne(c, s, steps + [a], b);
    RunOne(c, s, steps + [a] + [b], d);
    RunOne(c, s, steps + [a] + [b] + [d], e);
  }

  /** The second message confirms the shared row under its own key and fails … */
  ghost predicate SecondFailed(c: Contract, s: Sys, a: Attachment, b: Attachment) {
    && ParamsOf("a", Row(c, a), [RefOf(a, HubKeyOf(c, a))]) in s.lane.sent
    && s.lane.pc == Idle && |s.lane.queue| == 1 && s.lane.queue[0].id == "a"
    && s.lane.queue[0].event.recorded == Row(c, a) && s.lane.queue[0].event.state == PendingAppend
    && LocalKeyOf(c, a) in s.lane.db.blobs && s.lane.db.blobs[LocalKeyOf(c, a)].hubKey == Some(HubKeyOf(c, b))
  }

  lemma FailNext(c: Contract, s: Sys)
    requires s.lane.pc.Appending? && s.lane.pc.job.id in s.lane.db.events
    ensures var s' := Next(c, s, AppendDone(AppendFailed(Other), Noon));
      s'.lane == Fail(c, s.lane, s.lane.pc.job, Other, Noon)
      && s'.lane.sent == s.lane.sent && s'.lane.queue == s.lane.queue && s'.lane.pc == Idle
      && s'.lane.db.blobs == s.lane.db.blobs
  {
  }

  lemma FailSecond(c: Contract, s: Sys, a: Attachment, b: Attachment) returns (s': Sys)
    requires FirstSent(c, s, a, b) && LocalKeyOf(c, a) == LocalKeyOf(c, b) && b.size == 0
    ensures s' == Run4(c, s, PollDue(["b", "a"], 0), BeginEvent(Connected, Noon),
                       PrepareDone(Present(b, HubKeyOf(c, b)), Noon), AppendDone(AppendFailed(Other), Noon))
    ensures SecondFailed(c, s', a, b)
  {
    var s3 := ToAppend(c, s, ["b", "a"], b);
    FailNext(c, s3);
    s' := Next(c, s3, AppendDone(AppendFailed(Other), Noon));
  }

  /** … and the first is sent again, now under the other key. */
  lemma SendAgain(c: Contract, s: Sys, a: Attachment, b: Attachment)
    requires SecondFailed(c, s, a, b) && AttachmentsOf(s.lane.queue[0].event) == [a]
    ensures Next(c, s, BeginEvent(Connected, Noon)).lane.sent ==
      s.lane.sent + {ParamsOf("a", Row(c, a), [RefOf(a, HubKeyOf(c, b))])}
  {
    OneRef(c, s.lane.db, a);
  }

  lemma FirstSentRun(c: Contract, a: Attachment, b: Attachment) returns (steps: seq<Step>)
    requires LocalKeyOf(c, a) == LocalKeyOf(c, b) && a.size == 0
    ensures FirstSent(c, Run(c, Init, steps), a, b)
  {
    var s0 := RecordTwo(c, a, b);
    var one := [] + [RecordBegin(0, Message(a))] + [RecordCheck(0, true, Minted("a", "", 0))] + [RecordIngest(0, true, Minted("a", "", 0))];
    RunThree(c, Init, [], RecordBegin(0, Message(a)), RecordCheck(0, true, Minted("a", "", 0)), RecordIngest(0, true, Minted("a", "", 0)));
    var two := one + [RecordBegin(1, Message(b))] + [RecordCheck(1, true, Minted("b", "", 0))] + [RecordIngest(1, true, Minted("b", "", 0))];
    RunThree(c, Init, one, RecordBegin(1, Message(b)), RecordCheck(1, true, Minted("b", "", 0)), RecordIngest(1, true, Minted("b", "", 0)));
    var known := {HubKeyOf(c, a), HubKeyOf(c, b)};
    RunOne(c, Init, two, HubBlobs(known));
    var recorded := two + [HubBlobs(known)];
    var s1 := SendFirst(c, s0, a, b);
    steps := recorded + [PollDue(["a", "b"], 0)] + [BeginEvent(Connected, Noon)]
                 + [PrepareDone(Present(a, HubKeyOf(c, a)), Noon)] + [Crash];
    RunFour(c, Init, recorded, PollDue(["a", "b"], 0), BeginEvent(Connected, Noon),
            PrepareDone(Present(a, HubKeyOf(c, a)), Noon), Crash);
  }

  /** Any two names the spool merges and the Hub does not. */
  lemma SplitRun(c: Contract, sha: string, name: string, sha': string, name': string) returns (steps: seq<Step>)
    requires c.localKey(sha, name) == c.localKey(sha', name') && c.hubKey(sha, name) != c.hubKey(sha', name')
    ensures !OneCallPerEvent(Run(c, Init, steps))
  {
    var a, b := File(sha, name), File(sha', name');
    var first := FirstSentRun(c, a, b);
    var s1 := Run(c, Init, first);
    var s2 := FailSecond(c, s1, a, b);
    var second := first + [PollDue(["b", "a"], 0)] + [BeginEvent(Connected, Noon)]
                  + [PrepareDone(Present(b, HubKeyOf(c, b)), Noon)] + [AppendDone(AppendFailed(Other), Noon)];
    RunFour(c, Init, first, PollDue(["b", "a"], 0), BeginEvent(Connected, Noon),
            PrepareDone(Present(b, HubKeyOf(c, b)), Noon), AppendDone(AppendFailed(Other), Noon));
    SendAgain(c, s2, a, b);
    steps := second + [BeginEvent(Connected, Noon)];
    RunOne(c, Init, second, BeginEvent(Connected, Noon));
    var p := ParamsOf("a", Row(c, a), [RefOf(a, HubKeyOf(c, a))]);
    var q := ParamsOf("a", Row(c, a), [RefOf(a, HubKeyOf(c, b))]);
    assert p in Run(c, Init, steps).lane.sent && q in Run(c, Init, steps).lane.sent;
    assert p.attachments[0] != q.attachments[0];
  }

  /** The exact condition: every run makes one call per event if and only if the Hub's
      blob names agree with the spool's. */
  lemma OneCallIffKeysAgree(c: Contract)
    ensures KeysAgree(c) <==> forall steps :: OneCallPerEvent(Run(c, Init, steps))
  {
    if KeysAgree(c) {
      forall steps ensures OneCallPerEvent(Run(c, Init, steps)) {
        ExactlyOnceEffect(c, steps);
      }
    } else {
      var sha, name, sha', name' :|
        c.localKey(sha, name) == c.localKey(sha', name') && c.hubKey(sha, name) != c.hubKey(sha', name');
      var steps := SplitRun(c, sha, name, sha', name');
    }
  }
}
