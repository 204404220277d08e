/** A lane's channel server: which connection stands for a driver, and what becomes of the
    requests sent to it. Connections and requests are named by numbers and ids. */
module LaneRegistry {
  import opened Prelude

  /** `destroyed`: nothing can be written any more. `closed`: the close event was handled. */
  datatype Connection = Connection(registration: Option<string>, destroyed: bool, closed: bool, pending: set<string>)

  datatype Outcome = Result(value: string) | Error(message: string) | TimedOut | Disconnected | WriteFailed

  /** `written` is how writing the frame ended, `promise` what arrived for it. */
  datatype Call = Refused | Made(conn: nat, written: Option<bool>, promise: Option<Outcome>)

  datatype Server = Server(drivers: map<string, nat>, conns: map<nat, Connection>, calls: map<string, Call>)

  datatype Event =
    | Accept(c: nat)
    | Register(c: nat, driver: string)
    | Destroy(c: nat)
    | Close(c: nat)
    | Request(id: string, driver: string, capable: bool)
    | Wrote(id: string, ok: bool)
    | Respond(c: nat, id: string, outcome: Outcome)
    | Timeout(id: string)
    | Stop

  const Empty := Server(map[], map[], map[])

  // ---- what each event does ----

  function WithPending(s: Server, c: nat, pending: set<string>): Server
    requires c in s.conns
  {
    s.(conns := s.conns[c := s.conns[c].(pending := pending)])
  }

  /** A pending request is answered once: it leaves the table with its answer. */
  function Settle(s: Server, c: nat, id: string, outcome: Outcome): Server {
    if c !in s.conns || id !in s.conns[c].pending || id !in s.calls || s.calls[id].Refused? then s
    else WithPending(s, c, s.conns[c].pending - {id}).(calls := s.calls[id := s.calls[id].(promise := Some(outcome))])
  }

  function Disconnect(call: Call, id: string, pending: set<string>): Call {
    if id in pending && call.Made? then call.(promise := Some(Disconnected)) else call
  }

  function DisconnectAll(calls: map<string, Call>, pending: set<string>): map<string, Call> {
    map id | id in calls :: Disconnect(calls[id], id, pending)
  }

  function Unregistered(s: Server, c: nat): map<string, nat>
    requires c in s.conns
  {
    var r := s.conns[c].registration;
    if r.Some? && r.value in s.drivers && s.drivers[r.value] == c then s.drivers - {r.value} else s.drivers
  }

  predicate Reachable(s: Server, driver: string) {
    driver in s.drivers && s.drivers[driver] in s.conns && !s.conns[s.drivers[driver]].destroyed
  }

  function DestroyThese(conns: map<nat, Connection>, those: set<nat>): map<nat, Connection> {
    map c | c in conns :: if c in those then conns[c].(destroyed := true) else conns[c]
  }

  /** What can happen: a connection is accepted once, registers once (even after its close
      was handled, the frame may still be queued), closes once; a request id is new. */
  predicate Enabled(s: Server, e: Event) {
    match e
    case Accept(c) => c !in s.conns
    case Register(c, _) => c in s.conns && s.conns[c].registration.None?
    case Destroy(c) => c in s.conns
    case Close(c) => c in s.conns && !s.conns[c].closed
    case Request(id, _, _) => id !in s.calls
    case Wrote(id, _) => id in s.calls && s.calls[id].Made? && s.calls[id].written.None?
    case Respond(c, _, outcome) => c in s.conns && (outcome.Result? || outcome.Error?)
    case Timeout(id) => id in s.calls && s.calls[id].Made?
    case Stop => true
  }

  function Apply(s: Server, e: Event): Server
    requires Enabled(s, e)
  {
    match e
    case Accept(c) => s.(conns := s.conns[c := Connection(None, false, false, {})])
    case Register(c, driver) =>
      s.(conns := s.conns[c := s.conns[c].(registration := Some(driver))], drivers := s.drivers[driver := c])
    case Destroy(c) => s.(conns := s.conns[c := s.conns[c].(destroyed := true)])
    case Close(c) =>
      Server(Unregistered(s, c), s.conns[c := s.conns[c].(destroyed := true, closed := true, pending := {})],
             DisconnectAll(s.calls, s.conns[c].pending))
    case Request(id, driver, capable) =>
      if !Reachable(s, driver) || !capable then s.(calls := s.calls[id := Refused])
      else
        var c := s.drivers[driver];
        WithPending(s, c, s.conns[c].pending + {id}).(calls := s.calls[id := Made(c, None, None)])
    case Wrote(id, ok) =>
      var call := s.calls[id];
      var told := s.(calls := s.calls[id := call.(written := Some(ok))]);
      if ok || call.conn !in s.conns then told else WithPending(told, call.conn, s.conns[call.conn].pending - {id})
    case Respond(c, id, outcome) => Settle(s, c, id, outcome)
    case Timeout(id) => Settle(s, s.calls[id].conn, id, TimedOut)
    case Stop => s.(drivers := map[], conns := DestroyThese(s.conns, s.drivers.Values))
  }

  predicate Feasible(events: seq<Event>)
    decreases |events|, 0
  {
    events == [] || (Feasible(events[..|events| - 1]) && Enabled(Run(events[..|events| - 1]), events[|events| - 1]))
  }

  function Run(events: seq<Event>): Server
    requires Feasible(events)
    decreases |events|, 1
  {
    if events == [] then Empty else Apply(Run(events[..|events| - 1]), events[|events| - 1])
  }

  // ---- the server object ----

  class LaneServer {
    var drivers: map<string, nat>
    var conns: map<nat, Connection>
    var calls: map<string, Call>

    constructor ()
      ensures State() == Empty
    {
      drivers, conns, calls := map[], map[], map[];
    }

    function State(): Server
      reads this
    {
      Server(drivers, conns, calls)
    }

    method RegisterDriver(c: nat, driver: string) returns (superseded: Option<nat>)
      requires Enabled(State(), Register(c, driver))
      modifies this
      ensures State() == Apply(old(State()), Register(c, driver))
      ensures superseded == if driver in old(drivers) && old(drivers)[driver] != c then Some(old(drivers)[driver]) else None
      ensures driver in drivers && drivers[driver] == c && forall other :: other in old(drivers) && other != driver ==> other in drivers && drivers[other] == old(drivers)[other]
      ensures EntriesRegistered(old(State())) ==> EntriesRegistered(State())
      ensures PendingIsOpen(old(State())) ==> PendingIsOpen(State()) && AnswersStay(old(State()), State())
    {
      KeepsInvariants(State(), Register(c, driver));
      conns := conns[c := conns[c].(registration := Some(driver))];
      superseded := if driver in drivers && drivers[driver] != c then Some(drivers[driver]) else None;
      drivers := drivers[driver := c];
    }

    /** The close handler: every pending request is rejected, one after the other, and the
        driver's entry goes only if it is still this connection. */
    method OnClose(c: nat)
      requires Enabled(State(), Close(c))
      modifies this
      ensures State() == Apply(old(State()), Close(c))
      ensures EntriesRegistered(old(State())) ==> EntriesRegistered(State())
      ensures PendingIsOpen(old(State())) ==> PendingIsOpen(State()) && AnswersStay(old(State()), State())
    {
      KeepsInvariants(State(), Close(c));
      var todo := conns[c].pending;
      ghost var done: set<string> := {};
      assert calls == DisconnectAll(calls, done);
      while todo != {}
        invariant todo !! done && todo + done == old(conns)[c].pending
        invariant calls == DisconnectAll(old(calls), done)
        invariant conns == old(conns) && drivers == old(drivers)
        decreases todo
      {
        var id :| id in todo;
        if id in calls && calls[id].Made? { calls := calls[id := calls[id].(promise := Some(Disconnected))]; }
        todo, done := todo - {id}, done + {id};
      }
      assert done == old(conns)[c].pending;
      conns := conns[c := conns[c].(destroyed := true, closed := true, pending := {})];
      var registration := conns[c].registration;
      if registration.Some? && registration.value in drivers && drivers[registration.value] == c {
        drivers := drivers - {registration.value};
      }
    }

    method RequestDriver(id: string, driver: string, capable: bool)
      requires Enabled(State(), Request(id, driver, capable))
      modifies this
      ensures State() == Apply(old(State()), Request(id, driver, capable))
      ensures id in calls && (Returned(calls[id]).Some? <==> !capable || !Reachable(old(State()), driver))
      ensures Returned(calls[id]).None? ==> calls[id].Made? && calls[id].conn in conns && id in conns[calls[id].conn].pending
      ensures EntriesRegistered(old(State())) ==> EntriesRegistered(State())
      ensures PendingIsOpen(old(State())) ==> PendingIsOpen(State()) && AnswersStay(old(State()), State())
    {
      KeepsInvariants(State(), Request(id, driver, capable));
      if driver !in drivers || drivers[driver] !in conns || conns[drivers[driver]].destroyed || !capable {
        calls := calls[id := Refused];
        return;
      }
      var c := drivers[driver];
      conns := conns[c := conns[c].(pending := conns[c].pending + {id})];
      calls := calls[id := Made(c, None, None)];
    }

    method OnResponse(c: nat, id: string, outcome: Outcome)
      requires Enabled(State(), Respond(c, id, outcome))
      modifies this
      ensures State() == Apply(old(State()), Respond(c, id, outcome))
      ensures PendingIsOpen(old(State())) ==>
        if id in old(calls) && Open(old(calls)[id]) && old(calls)[id].conn == c
        then calls == old(calls)[id := old(calls)[id].(promise := Some(outcome))] else State() == old(State())
      ensures forall other :: other in old(calls) && other != id ==> other in calls && calls[other] == old(calls)[other]
      ensures EntriesRegistered(old(State())) ==> EntriesRegistered(State())
      ensures PendingIsOpen(old(State())) ==> PendingIsOpen(State()) && AnswersStay(old(State()), State())
    {
      KeepsInvariants(State(), Respond(c, id, outcome));
      if id !in conns[c].pending || id !in calls || calls[id].Refused? { return; }
      conns := conns[c := conns[c].(pending := conns[c].pending - {id})];
      calls := calls[id := calls[id].(promise := Some(outcome))];
    }

    method AcceptConnection(c: nat)
      requires Enabled(State(), Accept(c))
      modifies this
      ensures State() == Apply(old(State()), Accept(c))
    {
      conns := conns[c := Connection(None, false, false, {})];
    }

    /** Writing the request's frame has ended: a failure takes it out of the table. */
    method OnWritten(id: string, ok: bool)
      requires Enabled(State(), Wrote(id, ok))
      modifies this
      ensures State() == Apply(old(State()), Wrote(id, ok))
      ensures !ok ==> Returned(calls[id]) == Some(WriteFailed)
      ensures forall other :: other in old(calls) && other != id ==> other in calls && calls[other] == old(calls)[other]
      ensures EntriesRegistered(old(State())) ==> EntriesRegistered(State())
      ensures PendingIsOpen(old(State())) ==> PendingIsOpen(State()) && AnswersStay(old(State()), State())
    {
      KeepsInvariants(State(), Wrote(id, ok));
      var c := calls[id].conn;
      calls := calls[id := calls[id].(written := Some(ok))];
      if !ok && c in conns {
        conns := conns[c := conns[c].(pending := conns[c].pending - {id})];
      }
    }

    method OnTimeout(id: string)
      requires Enabled(State(), Timeout(id))
      modifies this
      ensures State() == Apply(old(State()), Timeout(id))
      ensures forall other :: other in old(calls) && other != id ==> other in calls && calls[other] == old(calls)[other]
      ensures EntriesRegistered(old(State())) ==> EntriesRegistered(State())
      ensures PendingIsOpen(old(State())) ==> PendingIsOpen(State()) && AnswersStay(old(State()), State())
    {
      KeepsInvariants(State(), Timeout(id));
      var c := calls[id].conn;
      if c !in conns || id !in conns[c].pending { return; }
      conns := conns[c := conns[c].(pending := conns[c].pending - {id})];
      calls := calls[id := calls[id].(promise := Some(TimedOut))];
    }

    /** Every registered driver's socket is destroyed, one after the other. */
    method StopServer()
      modifies this
      ensures State() == Apply(old(State()), Stop)
    {
      var todo := drivers.Values;
      ghost var done: set<nat> := {};
      assert conns == DestroyThese(conns, done);
      while todo != {}
        invariant todo !! done && todo + done == drivers.Values
        invariant conns == DestroyThese(old(conns), done) && drivers == old(drivers) && calls == old(calls)
        decreases todo
      {
        var c :| c in todo;
        if c in conns { conns := conns[c := conns[c].(destroyed := true)]; }
        todo, done := todo - {c}, done + {c};
      }
      assert done == drivers.Values;
      drivers := map[];
    }
  }

  // ---- the registry, told by its history ----

  /** No later event touches an entry made at `i`: no other registration under the id, no
      close of the connection, no stop. */
  ghost predicate Untouched(events: seq<Event>, i: nat, driver: string, c: nat) {
    forall j :: i < j < |events| ==>
      !(events[j].Register? && events[j].driver == driver) && events[j] != Close(c) && events[j] != Stop
  }

  /** The last connection registered under the id, if it was not closed since. */
  ghost predicate Stands(events: seq<Event>, driver: string, c: nat) {
    exists i :: 0 <= i < |events| && events[i] == Register(c, driver) && Untouched(events, i, driver, c)
  }

  lemma StandsLonger(before: seq<Event>, e: Event, driver: string, c: nat)
    ensures Stands(before + [e], driver, c) <==>
      e == Register(c, driver)
      || (Stands(before, driver, c) && !(e.Register? && e.driver == driver) && e != Close(c) && e != Stop)
  {
    var events := before + [e];
    if Stands(before, driver, c) && !(e.Register? && e.driver == driver) && e != Close(c) && e != Stop {
      var i :| 0 <= i < |before| && before[i] == Register(c, driver) && Untouched(before, i, driver, c);
      assert events[i] == Register(c, driver) && Untouched(events, i, driver, c);
    }
    if e == Register(c, driver) { assert events[|before|] == e && Untouched(events, |before|, driver, c); }
    if Stands(events, driver, c) && e != Register(c, driver) {
      var i :| 0 <= i < |events| && events[i] == Register(c, driver) && Untouched(events, i, driver, c);
      assert events[|before|] == e;
      assert forall j :: 0 <= j < |before| ==> events[j] == before[j];
      assert before[i] == Register(c, driver) && Untouched(before, i, driver, c);
    }
  }

  /** Entries name connections that registered under them. */
  ghost predicate EntriesRegistered(s: Server) {
    forall driver :: driver in s.drivers ==>
      s.drivers[driver] in s.conns && s.conns[s.drivers[driver]].registration == Some(driver)
  }

  lemma RegisteredKept(s: Server, e: Event)
    requires Enabled(s, e) && EntriesRegistered(s)
    ensures EntriesRegistered(Apply(s, e))
  {
  }

  lemma DriversAfter(s: Server, e: Event, driver: string)
    requires Enabled(s, e) && EntriesRegistered(s)
    ensures var next := Apply(s, e).drivers;
      forall c :: (driver in next && next[driver] == c) <==>
        (e == Register(c, driver)
         || (driver in s.drivers && s.drivers[driver] == c && !(e.Register? && e.driver == driver) && e != Close(c) && e != Stop))
  {
  }

  lemma {:induction false} AlwaysRegistered(events: seq<Event>)
    requires Feasible(events)
    ensures EntriesRegistered(Run(events))
  {
    if events != [] {
      AlwaysRegistered(events[..|events| - 1]);
      RegisteredKept(Run(events[..|events| - 1]), events[|events| - 1]);
    }
  }

  /** After any interleaving of events: the entry of a driver id is exactly the last
      connection registered under it whose close has not been handled since. */
  lemma {:induction false} EntryIsLastRegistered(events: seq<Event>, driver: string, c: nat)
    requires Feasible(events)
    ensures (driver in Run(events).drivers && Run(events).drivers[driver] == c) <==> Stands(events, driver, c)
  {
    if events != [] {
      var before, e := events[..|events| - 1], events[|events| - 1];
      EntryIsLastRegistered(before, driver, c);
      AlwaysRegistered(before);
      DriversAfter(Run(before), e, driver);
      StandsLonger(before, e, driver, c);
      assert events == before + [e];
    }
  }

  /** A superseded connection's close leaves its replacement in place, whatever happens in
      between, short of the replacement's own end. */
  lemma ReplacementSurvives(events: seq<Event>, driver: string, old': nat, new': nat)
    requires Feasible(events) && Feasible(events + [Close(old')]) && old' != new'
    requires driver in Run(events).drivers && Run(events).drivers[driver] == new'
    ensures driver in Run(events + [Close(old')]).drivers && Run(events + [Close(old')]).drivers[driver] == new'
  {
    EntryIsLastRegistered(events, driver, new');
    EntryIsLastRegistered(events + [Close(old')], driver, new');
    StandsLonger(events, Close(old'), driver, new');
  }

  // ---- requests ----

  /** What `requestDriver` gave its caller, if it is back. */
  function Returned(call: Call): Option<Outcome> {
    if call.Refused? then Some(Error("not connected or not capable"))
    else if call.written == Some(false) then Some(WriteFailed)
    else if call.written == Some(true) then call.promise
    else None
  }

  predicate Open(call: Call) { call.Made? && call.promise.None? && call.written != Some(false) }

  /** The pending tables hold exactly the requests still waiting for an answer, each with
      its own connection; a closed connection holds none. */
  ghost predicate PendingIsOpen(s: Server) {
    && (forall id :: id in s.calls && Open(s.calls[id]) ==> s.calls[id].conn in s.conns && id in s.conns[s.calls[id].conn].pending)
    && (forall c, id :: c in s.conns && id in s.conns[c].pending ==> id in s.calls && Open(s.calls[id]) && s.calls[id].conn == c)
    && (forall c :: c in s.conns && s.conns[c].closed ==> s.conns[c].destroyed && s.conns[c].pending == {})
  }

  lemma SettleKeeps(s: Server, c: nat, id: string, outcome: Outcome)
    requires PendingIsOpen(s)
    ensures PendingIsOpen(Settle(s, c, id, outcome))
  {
  }

  lemma CloseKeeps(s: Server, c: nat)
    requires PendingIsOpen(s) && Enabled(s, Close(c))
    ensures PendingIsOpen(Apply(s, Close(c)))
  {
  }

  lemma RequestKeeps(s: Server, id: string, driver: string, capable: bool)
    requires PendingIsOpen(s) && id !in s.calls
    ensures PendingIsOpen(Apply(s, Request(id, driver, capable)))
  {
  }

  lemma WroteKeeps(s: Server, id: string, ok: bool)
    requires PendingIsOpen(s) && Enabled(s, Wrote(id, ok))
    ensures PendingIsOpen(Apply(s, Wrote(id, ok)))
  {
  }

  lemma PendingKept(s: Server, e: Event)
    requires Enabled(s, e) && PendingIsOpen(s)
    ensures PendingIsOpen(Apply(s, e))
  {
    match e
    case Close(c) => CloseKeeps(s, c);
    case Respond(c, id, outcome) => SettleKeeps(s, c, id, outcome);
    case Timeout(id) => SettleKeeps(s, s.calls[id].conn, id, TimedOut);
    case Request(id, driver, capable) => RequestKeeps(s, id, driver, capable);
    case Wrote(id, ok) => WroteKeeps(s, id, ok);
    case _ =>
  }

  lemma {:induction false} PendingHoldsOnlyOpen(events: seq<Event>)
    requires Feasible(events)
    ensures PendingIsOpen(Run(events))
  {
    if events != [] {
      PendingHoldsOnlyOpen(events[..|events| - 1]);
      PendingKept(Run(events[..|events| - 1]), events[|events| - 1]);
    }
  }

  /** An answer never changes once given, and neither does what the caller got. */
  ghost predicate AnswersStay(a: Server, b: Server) {
    forall id :: id in a.calls ==>
      && id in b.calls
      && (a.calls[id].Refused? ==> b.calls[id].Refused?)
      && (a.calls[id].Made? ==> b.calls[id].Made? && b.calls[id].conn == a.calls[id].conn)
      && (a.calls[id].Made? && a.calls[id].promise.Some? ==> b.calls[id].promise == a.calls[id].promise)
      && (Returned(a.calls[id]).Some? ==> Returned(b.calls[id]) == Returned(a.calls[id]))
  }

  lemma AnswersKept(s: Server, e: Event)
    requires Enabled(s, e) && PendingIsOpen(s)
    ensures AnswersStay(s, Apply(s, e))
  {
  }

  lemma KeepsInvariants(s: Server, e: Event)
    requires Enabled(s, e)
    ensures EntriesRegistered(s) ==> EntriesRegistered(Apply(s, e))
    ensures PendingIsOpen(s) ==> PendingIsOpen(Apply(s, e)) && AnswersStay(s, Apply(s, e))
  {
    if EntriesRegistered(s) { RegisteredKept(s, e); }
    if PendingIsOpen(s) {
      PendingKept(s, e);
      AnswersKept(s, e);
    }
  }

  lemma {:induction false} SettlesOnce(events: seq<Event>, n: nat)
    requires Feasible(events) && n <= |events|
    ensures Feasible(events[..n]) && AnswersStay(Run(events[..n]), Run(events))
    decreases |events|
  {
    if n == |events| {
      assert events[..n] == events;
    } else {
      var before := events[..|events| - 1];
      assert before[..n] == events[..n];
      SettlesOnce(before, n);
      PendingHoldsOnlyOpen(before);
      AnswersKept(Run(before), events[|events| - 1]);
    }
  }

  /** No request is left waiting for good: if its frame was written, its timer gives it an
      answer whenever it fires; and the end of its connection does as well. */
  lemma NothingHangs(events: seq<Event>, id: string)
    requires Feasible(events) && id in Run(events).calls
    requires Returned(Run(events).calls[id]).None? && Run(events).calls[id].written == Some(true)
    ensures var s := Run(events); var c := s.calls[id].conn;
      && Enabled(s, Timeout(id)) && Returned(Apply(s, Timeout(id)).calls[id]) == Some(TimedOut)
      && Enabled(s, Close(c)) && Returned(Apply(s, Close(c)).calls[id]) == Some(Disconnected)
  {
    PendingHoldsOnlyOpen(events);
  }
}
