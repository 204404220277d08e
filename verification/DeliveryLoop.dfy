/** The reply and drain code as the daemon runs it: each method is one stretch between two
    awaits, working on the ledger object and the event tables in place. */
module DeliveryLoop {
  import opened Prelude
  import opened DeliveryLedger
  import opened Delivery

  /** A request left the process in this stretch, as its last act. */
  ghost predicate SentNow(before: seq<Entry>, after: seq<Entry>) {
    |after| > |before| && WasSent(after[|after| - 1])
  }

  /** No other row has changed. */
  ghost predicate OnlyRow(before: Ledger, after: Ledger, turn: string) {
    forall other :: other in before && other != turn ==> other in after && after[other] == before[other]
  }

  predicate HasSucceeded(rows: Ledger, r: Request, result: Option<string>) {
    r.turn in rows && rows[r.turn].state == SUCCEEDED && rows[r.turn].result == result
  }

  /** How one action of a drain's list fares: its driver is away, refuses or times out, or
      answers, and then the success event is recorded or not. */
  datatype Fate = Away | Refused | Replied(result: Option<string>, recorded: bool)

  /** What a drain alone hands to drivers, of the first `i` listed actions. */
  function HandedOver(list: seq<Request>, fate: nat -> Fate, i: nat): seq<Request>
    requires i <= |list|
  {
    if i == 0 then []
    else HandedOver(list, fate, i - 1) + (if fate(i - 1).Away? then [] else [list[i - 1]])
  }

  ghost function DrainSends(log: seq<Entry>): seq<Request> {
    if log == [] then []
    else DrainSends(log[..|log| - 1]) + (if log[|log| - 1].kind.SentByDrain? then [log[|log| - 1].request] else [])
  }

  lemma SendsAdd(log: seq<Entry>, e: Entry)
    ensures DrainSends(log + [e]) == if e.kind.SentByDrain? then DrainSends(log) + [e.request] else DrainSends(log)
  {
    assert (log + [e])[..|log|] == log;
  }

  class ReplyDaemon {
    const ledger: DeliveryLedger
    var requested: map<string, Request>
    var succeeded: map<string, Request>
    var completed: set<string>
    var processes: map<nat, Process>
    ghost var log: seq<Entry>

    constructor (ledger: DeliveryLedger)
      requires ledger.rows == map[]
      ensures this.ledger == ledger && State() == Fresh
    {
      this.ledger := ledger;
      requested, succeeded, completed, processes, log := map[], map[], {}, map[], [];
    }

    ghost function State(): Lane
      reads this, ledger
    {
      Lane(requested, succeeded, completed, ledger.rows, processes, log)
    }

    /** `record` of the requested event has returned, or thrown. */
    method OnRequestRecorded(p: nat, ok: bool)
      requires p in processes && processes[p].Recording?
      modifies this
      ensures State() == Next(old(State()), RecordRequest(p, ok))
      ensures p in processes <==> ok
      ensures ok ==> old(processes[p].request.turn) in requested
      ensures forall turn :: turn in old(requested) ==> turn in requested && requested[turn] == old(requested)[turn]
    {
      var r := processes[p].request;
      if !ok {
        processes := processes - {p};
        return;
      }
      if r.turn !in requested {
        requested, log := requested[r.turn := r], log + [Entry(RequestRecorded, r)];
      }
      processes := processes[p := Recorded(r)];
    }

    /** From the reservation to the send, or to a stored answer, without a pause. */
    method ReserveThenSend(p: nat, connected: bool, now: int)
      requires p in processes && processes[p].Recorded?
      modifies this, ledger
      ensures State() == Next(old(State()), ReserveAndSend(p, connected, now))
      ensures SentNow(old(log), log) <==> p in processes && processes[p].Waiting?
      ensures SentNow(old(log), log) ==> log[|log| - 1].request == old(processes[p].request)
      ensures p in processes && processes[p].Succeeding? <==> Answered(old(ledger.rows), old(processes[p].request.turn))
      ensures requested == old(requested) && succeeded == old(succeeded) && completed == old(completed)
      ensures old(processes[p].request.turn) in ledger.rows
      ensures forall turn :: turn in old(ledger.rows) ==> turn in ledger.rows && ledger.rows[turn].request == old(ledger.rows)[turn].request
    {
      var r := processes[p].request;
      var duplicate, result := ledger.ReserveAction(r, now);
      if duplicate && result.Some? {
        ledger.Complete(r.turn, result, now);
        processes := processes[p := Succeeding(r, result, None)];
        return;
      }
      if !duplicate { log := log + [Entry(Reserved, r)]; }
      if !connected {
        processes := processes - {p};
        return;
      }
      log := log + [Entry(SentByReply, r)];
      processes := processes[p := Waiting(r, None)];
    }

    /** The driver has answered: the ledger first, then the success event. */
    method OnAnswer(p: nat, result: Option<string>, now: int)
      requires p in processes && processes[p].Waiting?
      modifies this, ledger
      ensures State() == Next(old(State()), Answer(p, result, now))
      ensures log == old(log) && succeeded == old(succeeded) && completed == old(completed)
      ensures OnlyRow(old(ledger.rows), ledger.rows, old(processes[p].request.turn))
      ensures old(processes[p].request.turn) in old(ledger.rows) ==> HasSucceeded(ledger.rows, old(processes[p].request), result)
    {
      var r, rest := processes[p].request, processes[p].rest;
      ledger.Complete(r.turn, result, now);
      processes := processes[p := Succeeding(r, result, rest)];
    }

    /** The driver refused, timed out or went away: a reply throws, a drain goes on. */
    method OnRefusal(p: nat)
      requires p in processes && processes[p].Waiting?
      modifies this
      ensures State() == Next(old(State()), Refuse(p))
      ensures requested == old(requested) && succeeded == old(succeeded) && completed == old(completed) && log == old(log)
    {
      var rest := processes[p].rest;
      processes := if rest.Some? then processes[p := Draining(rest.value)] else processes - {p};
    }

    method OnSuccessRecorded(p: nat, ok: bool)
      requires p in processes && processes[p].Succeeding?
      modifies this
      ensures State() == Next(old(State()), RecordSuccess(p, ok))
      ensures if ok then old(processes[p].request.turn) in succeeded && completed == old(completed) + {old(processes[p].request.turn)}
              else succeeded == old(succeeded) && completed == old(completed) && log == old(log)
      ensures forall turn :: turn in old(succeeded) ==> turn in succeeded && succeeded[turn] == old(succeeded)[turn]
      ensures p in processes <==> old(processes[p].rest).Some?
    {
      var r, rest := processes[p].request, processes[p].rest;
      if ok {
        if r.turn !in succeeded {
          succeeded, log := succeeded[r.turn := r], log + [Entry(SuccessRecorded, r)];
        }
        completed := completed + {r.turn};
      }
      processes := if rest.Some? then processes[p := Draining(rest.value)] else processes - {p};
    }

    /** One drain at a time; the list is made once, before its first send. */
    method DrainStarts(p: nat, now: int) returns (list: seq<Request>)
      requires p !in processes && NoDrain(State()) && ledger.Keyed()
      modifies this`processes
      ensures State() == Next(old(State()), StartDrain(p, list, now))
      ensures IsPendingList(ledger.rows, now - SETTLE_MS, list)
      ensures forall i :: 0 <= i < |list| ==>
        list[i].turn in ledger.rows && ledger.rows[list[i].turn].state == PENDING && ledger.rows[list[i].turn].updatedAt <= now - 5_000
    {
      list := ledger.ListPendingActions(now - SETTLE_MS);
      processes := processes[p := Draining(list)];
    }

    method DrainGoesOn(p: nat, connected: bool)
      requires p in processes && processes[p].Draining?
      modifies this
      ensures State() == Next(old(State()), DrainNext(p, connected))
      ensures p in processes <==> old(processes[p].list) != []
      ensures SentNow(old(log), log) <==> connected && old(processes[p].list) != []
      ensures SentNow(old(log), log) ==> log == old(log) + [Entry(SentByDrain, old(processes[p].list)[0])]
      ensures requested == old(requested) && succeeded == old(succeeded) && completed == old(completed)
    {
      var list := processes[p].list;
      if list == [] {
        processes := processes - {p};
      } else if !connected {
        processes := processes[p := Draining(list[1..])];
      } else {
        HeadHanded(p);
      }
    }

    /** The loop of a drain nobody interferes with: every listed action whose driver is
        there is sent once, as reserved, oldest first; those answered have succeeded and
        the others are pending still. */
    method DrainAlone(p: nat, now: int, fate: nat -> Fate) returns (list: seq<Request>)
      requires p !in processes && NoDrain(State()) && ledger.Keyed()
      modifies this, ledger
      ensures IsPendingList(old(ledger.rows), now - SETTLE_MS, list)
      ensures processes == old(processes) && requested == old(requested)
      ensures DrainSends(log) == DrainSends(old(log)) + HandedOver(list, fate, |list|)
      ensures AllAfter(ledger.rows, list, fate, |list|)
      ensures completed == old(completed) + CompletedOf(list, fate, |list|)
    {
      list := DrainBegins(p, now, fate);
      DrainList(p, now, list, fate);
      processes := processes - {p};
    }

    method DrainBegins(p: nat, now: int, ghost fate: nat -> Fate) returns (list: seq<Request>)
      requires p !in processes && NoDrain(State()) && ledger.Keyed()
      modifies this`processes
      ensures processes == old(processes)[p := Draining(list)]
      ensures IsPendingList(ledger.rows, now - SETTLE_MS, list)
      ensures AllAfter(ledger.rows, list, fate, 0) && DistinctTurns(list)
    {
      list := DrainStarts(p, now);
      NoneYet(ledger.rows, now - SETTLE_MS, list, fate);
    }

    method DrainList(p: nat, now: int, list: seq<Request>, fate: nat -> Fate)
      requires p in processes && processes[p] == Draining(list) && DistinctTurns(list) && AllAfter(ledger.rows, list, fate, 0)
      modifies this, ledger
      ensures processes == old(processes)[p := Draining([])] && requested == old(requested)
      ensures DrainSends(log) == DrainSends(old(log)) + HandedOver(list, fate, |list|)
      ensures AllAfter(ledger.rows, list, fate, |list|)
      ensures completed == old(completed) + CompletedOf(list, fate, |list|)
    {
      for i := 0 to |list|
        invariant processes == old(processes)[p := Draining(list[i..])] && requested == old(requested)
        invariant DrainSends(log) == DrainSends(old(log)) + HandedOver(list, fate, i)
        invariant AllAfter(ledger.rows, list, fate, i)
        invariant completed == old(completed) + CompletedOf(list, fate, i)
      {
        ghost var before := ledger.rows;
        DrainOne(p, now, fate(i));
        OneMoreAfter(before, ledger.rows, list, fate, i);
      }
    }

    /** One turn of that loop, from the head of the list to the next. */
    method DrainOne(p: nat, now: int, fate: Fate)
      requires p in processes && processes[p].Draining? && processes[p].list != []
      requires IsAfter(ledger.rows, processes[p].list[0], Away)
      modifies this, ledger
      ensures processes == old(processes)[p := Draining(old(processes[p].list)[1..])] && requested == old(requested)
      ensures DrainSends(log) == DrainSends(old(log)) + (if fate.Away? then [] else [old(processes[p].list)[0]])
      ensures IsAfter(ledger.rows, old(processes[p].list)[0], fate)
      ensures OnlyRow(old(ledger.rows), ledger.rows, old(processes[p].list)[0].turn)
      ensures completed == if fate.Replied? && fate.recorded then old(completed) + {old(processes[p].list)[0].turn} else old(completed)
    {
      if fate.Away? {
        DrainGoesOn(p, false);
      } else {
        DrainHands(p, now, fate);
      }
    }

    method DrainHands(p: nat, now: int, fate: Fate)
      requires p in processes && processes[p].Draining? && processes[p].list != [] && !fate.Away?
      requires IsAfter(ledger.rows, processes[p].list[0], Away)
      modifies this, ledger
      ensures processes == old(processes)[p := Draining(old(processes[p].list)[1..])] && requested == old(requested)
      ensures DrainSends(log) == DrainSends(old(log)) + [old(processes[p].list)[0]]
      ensures IsAfter(ledger.rows, old(processes[p].list)[0], fate)
      ensures OnlyRow(old(ledger.rows), ledger.rows, old(processes[p].list)[0].turn)
      ensures completed == if fate.Replied? && fate.recorded then old(completed) + {old(processes[p].list)[0].turn} else old(completed)
    {
      HeadHanded(p);
      if fate.Refused? {
        HeadRefused(p);
      } else {
        DrainAnswered(p, now, fate);
      }
    }

    method HeadHanded(p: nat)
      requires p in processes && processes[p].Draining? && processes[p].list != []
      modifies this`log, this`processes
      ensures processes == old(processes)[p := Waiting(old(processes[p].list)[0], Some(old(processes[p].list)[1..]))]
      ensures log == old(log) + [Entry(SentByDrain, old(processes[p].list)[0])]
      ensures DrainSends(log) == DrainSends(old(log)) + [old(processes[p].list)[0]]
    {
      var list := processes[p].list;
      SendsAdd(log, Entry(SentByDrain, list[0]));
      log := log + [Entry(SentByDrain, list[0])];
      processes := processes[p := Waiting(list[0], Some(list[1..]))];
    }

    method HeadRefused(p: nat)
      requires p in processes && processes[p].Waiting? && processes[p].rest.Some?
      modifies this
      ensures processes == old(processes)[p := Draining(old(processes[p].rest).value)]
      ensures requested == old(requested) && completed == old(completed) && log == old(log)
    {
      OnRefusal(p);
    }

    method DrainAnswered(p: nat, now: int, fate: Fate)
      requires p in processes && processes[p].Waiting? && processes[p].rest.Some? && fate.Replied?
      requires IsAfter(ledger.rows, processes[p].request, Away)
      modifies this, ledger
      ensures processes == old(processes)[p := Draining(old(processes[p].rest).value)] && requested == old(requested)
      ensures DrainSends(log) == DrainSends(old(log))
      ensures IsAfter(ledger.rows, old(processes[p].request), fate)
      ensures OnlyRow(old(ledger.rows), ledger.rows, old(processes[p].request.turn))
      ensures completed == if fate.recorded then old(completed) + {old(processes[p].request.turn)} else old(completed)
    {
      SendsAdd(log, Entry(SuccessRecorded, processes[p].request));
      OnAnswer(p, fate.result, now);
      OnSuccessRecorded(p, fate.recorded);
    }
  }

  predicate IsAfter(rows: Ledger, r: Request, fate: Fate) {
    r.turn in rows && rows[r.turn].request == r && rows[r.turn].state == if fate.Replied? then SUCCEEDED else PENDING
  }

  function CompletedOf(list: seq<Request>, fate: nat -> Fate, i: nat): set<string>
    requires i <= |list|
  {
    if i == 0 then {}
    else CompletedOf(list, fate, i - 1) + (if fate(i - 1).Replied? && fate(i - 1).recorded then {list[i - 1].turn} else {})
  }

  /** The first `i` listed actions have had their fate, the others wait for theirs. */
  ghost predicate AllAfter(rows: Ledger, list: seq<Request>, fate: nat -> Fate, i: nat) {
    forall k :: 0 <= k < |list| ==> IsAfter(rows, list[k], if k < i then fate(k) else Away)
  }

  lemma NoneYet(rows: Ledger, olderThan: int, list: seq<Request>, fate: nat -> Fate)
    requires IsPendingList(rows, olderThan, list)
    ensures AllAfter(rows, list, fate, 0) && DistinctTurns(list)
  {
    forall i, k | 0 <= i < |list| && 0 <= k < |list| && i != k ensures list[k].turn != list[i].turn {
      assert Turns(list)[k] == list[k].turn && Turns(list)[i] == list[i].turn;
    }
    forall i | 0 <= i < |list| ensures IsAfter(rows, list[i], Away) { ListedIsPending(rows, olderThan, list, i); }
  }

  lemma OneMoreAfter(before: Ledger, after: Ledger, list: seq<Request>, fate: nat -> Fate, i: nat)
    requires DistinctTurns(list) && i < |list| && AllAfter(before, list, fate, i)
    requires OnlyRow(before, after, list[i].turn) && IsAfter(after, list[i], fate(i))
    ensures AllAfter(after, list, fate, i + 1)
  {
    forall k | 0 <= k < |list| ensures IsAfter(after, list[k], if k < i + 1 then fate(k) else Away) {
      assert IsAfter(before, list[k], if k < i then fate(k) else Away);
    }
  }

  ghost predicate DistinctTurns(list: seq<Request>) {
    forall i, k :: 0 <= i < |list| && 0 <= k < |list| && i != k ==> list[k].turn != list[i].turn
  }
}
