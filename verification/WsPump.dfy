/** What the WebSocket client does with the bytes of its data events: the loop that cuts
    frames from a growing buffer, answers control frames and reassembles fragmented
    messages (sections 5.4 and 5.5 of RFC 6455). */
module WsPump {
  import opened Prelude
  import opened WsFrames

  const CLOSE: Opcode := 8
  const PING: Opcode := 9
  const PONG: Opcode := 10

  type Bytes = seq<Byte>

  /** `Closed`: a close frame was answered. `Failed`: an oversized header, socket destroyed. */
  datatype Event = Message(payload: Bytes) | Ponged(payload: Bytes) | Closed | Failed

  datatype State = State(buffer: Bytes, assembling: seq<Bytes>)

  datatype Outcome = Outcome(events: seq<Event>, state: State)

  const Start := State([], [])

  function Concat(pieces: seq<Bytes>): Bytes {
    if pieces == [] then [] else Concat(pieces[..|pieces| - 1]) + pieces[|pieces| - 1]
  }

  predicate IsStop(e: Event) { e.Closed? || e.Failed? }

  predicate IsData(frame: Frame) { frame.opcode != CLOSE && frame.opcode != PING && frame.opcode != PONG }

  /** What one frame other than a close frame makes the client do. */
  function Taken(frame: Frame, assembling: seq<Bytes>): (seq<Event>, seq<Bytes>) {
    if frame.opcode == PING then ([Ponged(frame.payload)], assembling)
    else if frame.opcode == PONG then ([], assembling)
    else if !frame.fin then ([], assembling + [frame.payload])
    else ([Message(Concat(assembling + [frame.payload]))], [])
  }

  function After(now: seq<Event>, later: Outcome): Outcome { Outcome(now + later.events, later.state) }

  lemma AfterBoth(a: seq<Event>, b: seq<Event>, later: Outcome)
    requires StopOf(a).None? && StopOf(b).None?
    ensures After(a, After(b, later)) == After(a + b, later) && StopOf(a + b).None?
  {
    assert a + (b + later.events) == (a + b) + later.events;
    if b == [] { assert a + b == a; }
  }

  /** The reason kept for `onClose`: the first stop, once. */
  function Noted(closed: Option<Event>, events: seq<Event>): Option<Event> {
    if closed.None? && StopOf(events).Some? then StopOf(events) else closed
  }

  lemma NotedLater(closed: Option<Event>, a: seq<Event>, b: seq<Event>)
    requires StopOf(a).None?
    ensures Noted(closed, a + b) == Noted(closed, b) && a + b + [] == a + b
  {
    if b == [] { assert a + b == a; }
  }

  /** The pump, run until it must wait. After a close frame it returns with the following
      bytes still buffered; an oversized header stays in the buffer. */
  function Pump(s: State): (o: Outcome)
    decreases |s.buffer|
  {
    var d := Decode(s.buffer);
    RestIsShorter(s.buffer);
    if d.NotYet? then Outcome([], s)
    else if d.TooLarge? then Outcome([Failed], s)
    else if d.frame.opcode == CLOSE then Outcome([Closed], s.(buffer := d.rest))
    else
      var (now, assembling) := Taken(d.frame, s.assembling);
      After(now, Pump(State(d.rest, assembling)))
  }

  /** One data event. */
  function Feed(s: State, chunk: Bytes): Outcome { Pump(s.(buffer := s.buffer + chunk)) }

  function FeedAll(s: State, chunks: seq<Bytes>): Outcome {
    if chunks == [] then Outcome([], s)
    else
      Then(FeedAll(s, chunks[..|chunks| - 1]), chunks[|chunks| - 1])
  }

  function Then(before: Outcome, chunk: Bytes): Outcome { After(before.events, Feed(before.state, chunk)) }

  /** One turn of the loop. */
  lemma PumpTakes(s: State, frame: Frame, rest: Bytes)
    requires Decode(s.buffer) == Whole(frame, rest) && frame.opcode != CLOSE
    ensures var (now, assembling) := Taken(frame, s.assembling);
      Pump(s) == After(now, Pump(State(rest, assembling)))
  {
  }

  lemma PumpWaits(s: State)
    ensures Decode(s.buffer).NotYet? ==> Pump(s) == Outcome([], s)
    ensures Decode(s.buffer).TooLarge? ==> Pump(s) == Outcome([Failed], s)
    ensures Decode(s.buffer).Whole? && Decode(s.buffer).frame.opcode == CLOSE ==>
      Pump(s) == Outcome([Closed], s.(buffer := Decode(s.buffer).rest))
  {
  }

  // ---- the connection object ----

  class WsConnection {
    var buffer: Bytes
    var assembling: seq<Bytes>
    /** The reason handed to `onClose`, once. */
    var closed: Option<Event>

    constructor (initial: Bytes)
      ensures buffer == initial && assembling == [] && closed == None
    {
      buffer, assembling, closed := initial, [], None;
    }

    function Current(): State
      reads this
    {
      State(buffer, assembling)
    }

    method OnData(chunk: Bytes) returns (events: seq<Event>)
      modifies this
      ensures Outcome(events, Current()) == Feed(old(Current()), chunk)
      ensures closed == Noted(old(closed), events)
    {
      buffer := buffer + chunk;
      events := PumpBuffer();
    }

    method PumpBuffer() returns (events: seq<Event>)
      modifies this
      ensures Outcome(events, Current()) == Pump(old(Current()))
      ensures closed == Noted(old(closed), events)
    {
      events := [];
      ghost var later := Pump(Current());
      var more := true;
      while more
        invariant if more then closed == old(closed) && StopOf(events).None? && later == Pump(Current())
                  else later == Outcome([], Current()) && closed == Noted(old(closed), events)
        invariant Pump(old(Current())) == After(events, later)
        decreases more, |buffer|
      {
        var now;
        now, more := PumpOnce();
        if more { AfterBoth(events, now, Pump(Current())); }
        later := if more then Pump(Current()) else Outcome([], Current());
        NotedLater(old(closed), events, now);
        events := events + now;
      }
    }

    /** One turn of the loop; `more` unless it returned. */
    method PumpOnce() returns (now: seq<Event>, more: bool)
      modifies this
      ensures more ==> Pump(old(Current())) == After(now, Pump(Current())) && StopOf(now).None?
      ensures more ==> closed == old(closed) && |buffer| < |old(buffer)|
      ensures !more ==> Pump(old(Current())) == Outcome(now, Current()) && closed == Noted(old(closed), now)
    {
      PumpWaits(Current());
      var decoded := DecodeFrame(buffer);
      RestIsShorter(buffer);
      if decoded.NotYet? { return [], false; }
      if decoded.TooLarge? {
        Finish(Failed);
        return [Failed], false;
      }
      ghost var was := Current();
      buffer := decoded.rest;
      if decoded.frame.opcode == CLOSE {
        Finish(Closed);
        return [Closed], false;
      }
      PumpTakes(was, decoded.frame, decoded.rest);
      now := Take(decoded.frame);
      more := true;
    }

    method Take(frame: Frame) returns (now: seq<Event>)
      requires frame.opcode != CLOSE
      modifies this`assembling
      ensures (now, assembling) == Taken(frame, old(assembling))
      ensures StopOf(now).None? && |now| <= 1
    {
      if frame.opcode == PING { return [Ponged(frame.payload)]; }
      if frame.opcode == PONG { return []; }
      assembling := assembling + [frame.payload];
      if !frame.fin { return []; }
      now := [Message(Concat(assembling))];
      assembling := [];
    }

    method Finish(reason: Event)
      modifies this`closed
      ensures closed == if old(closed).None? then Some(reason) else old(closed)
    {
      if closed.None? { closed := Some(reason); }
    }
  }

  function StopOf(events: seq<Event>): Option<Event> {
    if events != [] && IsStop(events[|events| - 1]) then Some(events[|events| - 1]) else None
  }

  // ---- independence of chunking ----

  ghost predicate Stopless(events: seq<Event>) { forall e :: e in events ==> !IsStop(e) }

  /** Everything up to and including the first close frame or oversized header. */
  function UpToStop(events: seq<Event>): seq<Event> {
    if events == [] then []
    else if IsStop(events[0]) then [events[0]]
    else [events[0]] + UpToStop(events[1..])
  }

  lemma {:induction false} StoplessPrefix(a: seq<Event>, b: seq<Event>)
    requires Stopless(a)
    ensures UpToStop(a + b) == a + UpToStop(b)
  {
    if a == [] {
      assert a + b == b;
    } else {
      StoplessPrefix(a[1..], b);
      assert (a + b)[1..] == a[1..] + b;
    }
  }

  lemma {:induction false} StoppedPrefix(a: seq<Event>, b: seq<Event>)
    requires !Stopless(a)
    ensures UpToStop(a + b) == UpToStop(a)
  {
    if !IsStop(a[0]) {
      StoppedPrefix(a[1..], b);
      assert (a + b)[1..] == a[1..] + b;
    }
  }

  /** One run of the pump stops at most once, at its end. */
  lemma {:induction false} StopsLast(s: State)
    ensures UpToStop(Pump(s).events) == Pump(s).events
    decreases |s.buffer|
  {
    var d := Decode(s.buffer);
    RestIsShorter(s.buffer);
    PumpWaits(s);
    if d.Whole? && d.frame.opcode != CLOSE {
      var (now, assembling) := Taken(d.frame, s.assembling);
      PumpTakes(s, d.frame, d.rest);
      StopsLast(State(d.rest, assembling));
      TakenGoesOn(d.frame, s.assembling);
      StoplessPrefix(now, Pump(State(d.rest, assembling)).events);
    }
  }

  lemma TakenGoesOn(frame: Frame, assembling: seq<Bytes>)
    ensures Stopless(Taken(frame, assembling).0)
  {
  }

  /** Pumping early and then again on the longer buffer is pumping once, unless the early
      run came to a stop; then the longer buffer gives just the same events. */
  ghost predicate SameEarly(early: Outcome, late: Outcome, more: Bytes) {
    if Stopless(early.events) then late == Then(early, more) else late.events == early.events
  }

  lemma {:induction false} PumpEarly(s: State, more: Bytes)
    ensures SameEarly(Pump(s), Pump(s.(buffer := s.buffer + more)), more)
    decreases |s.buffer|
  {
    var d := Decode(s.buffer);
    RestIsShorter(s.buffer);
    PumpWaits(s);
    if d.NotYet? {
      var late := Pump(s.(buffer := s.buffer + more));
      assert [] + late.events == late.events;
    } else {
      DecodeIsStable(s.buffer, more);
      PumpWaits(s.(buffer := s.buffer + more));
      if d.TooLarge? || d.frame.opcode == CLOSE {
        assert Pump(s).events[0] in Pump(s).events;
      } else {
        PumpTakes(s, d.frame, d.rest);
        PumpTakes(s.(buffer := s.buffer + more), d.frame, d.rest + more);
        var (now, assembling) := Taken(d.frame, s.assembling);
        PumpEarly(State(d.rest, assembling), more);
        EarlyTakes(now, Pump(State(d.rest, assembling)), Pump(State(d.rest + more, assembling)), more);
      }
    }
  }

  lemma EarlyTakes(now: seq<Event>, early: Outcome, late: Outcome, more: Bytes)
    requires Stopless(now) && SameEarly(early, late, more)
    ensures SameEarly(After(now, early), After(now, late), more)
  {
    NowAndLater(now, early.events);
    if Stopless(early.events) {
      var last := Feed(early.state, more).events;
      assert now + (early.events + last) == (now + early.events) + last;
    }
  }

  lemma NowAndLater(now: seq<Event>, later: seq<Event>)
    ensures Stopless(now) ==> (Stopless(now + later) <==> Stopless(later))
  {
    forall e ensures e in now + later <==> e in now || e in later { }
    if Stopless(now + later) {
      forall e | e in later ensures !IsStop(e) { assert e in now + later; }
    }
  }

  /** Fed in pieces and fed at once: equal, or equal up to the first stop. */
  ghost predicate Agree(apart: Outcome, once: Outcome) {
    if Stopless(apart.events) then once == apart else UpToStop(apart.events) == once.events
  }

  lemma AgreeUnstopped(whole: State, chunk: Bytes)
    requires Stopless(Pump(whole).events)
    ensures Agree(Then(Pump(whole), chunk), Pump(whole.(buffer := whole.buffer + chunk)))
  {
    var before := Pump(whole);
    var next := before.state.(buffer := before.state.buffer + chunk);
    PumpEarly(whole, chunk);
    StopsLast(next);
    StoplessPrefix(before.events, Pump(next).events);
  }

  lemma AgreeStopped(whole: State, before: Outcome, chunk: Bytes)
    requires !Stopless(before.events) && UpToStop(before.events) == Pump(whole).events
    ensures Agree(Then(before, chunk), Pump(whole.(buffer := whole.buffer + chunk)))
  {
    UpToStopStops(before.events);
    PumpEarly(whole, chunk);
    StoppedPrefix(before.events, Feed(before.state, chunk).events);
    StillStops(before.events, Feed(before.state, chunk).events);
  }

  lemma {:induction false} FeedTogether(s: State, chunks: seq<Bytes>)
    requires Decode(s.buffer).NotYet?
    ensures Agree(FeedAll(s, chunks), Feed(s, Concat(chunks)))
  {
    if chunks == [] {
      assert s.buffer + [] == s.buffer;
    } else {
      var n := |chunks| - 1;
      FeedTogether(s, chunks[..n]);
      var whole := s.(buffer := s.buffer + Concat(chunks[..n]));
      assert s.buffer + Concat(chunks) == whole.buffer + chunks[n];
      if Stopless(FeedAll(s, chunks[..n]).events) {
        AgreeUnstopped(whole, chunks[n]);
      } else {
        AgreeStopped(whole, FeedAll(s, chunks[..n]), chunks[n]);
      }
    }
  }

  lemma StillStops(a: seq<Event>, b: seq<Event>)
    requires !Stopless(a) || !Stopless(b)
    ensures !Stopless(a + b)
  {
    var e :| (e in a || e in b) && IsStop(e);
    assert e in a + b;
  }

  lemma {:induction false} UpToStopStops(a: seq<Event>)
    requires !Stopless(a)
    ensures !Stopless(UpToStop(a))
  {
    if IsStop(a[0]) {
      assert a[0] in UpToStop(a);
    } else {
      UpToStopStops(a[1..]);
      StillStops([a[0]], UpToStop(a[1..]));
    }
  }

  /** However the same bytes are cut into data events, the same messages and pongs are
      delivered, up to and including the first close frame or oversized header; without
      one, the buffered rest agrees as well. */
  lemma ChunkingDoesNotMatter(one: seq<Bytes>, other: seq<Bytes>)
    requires Concat(one) == Concat(other)
    ensures UpToStop(FeedAll(Start, one).events) == UpToStop(FeedAll(Start, other).events)
    ensures Stopless(FeedAll(Start, one).events) ==> FeedAll(Start, one) == FeedAll(Start, other)
  {
    FeedTogether(Start, one);
    FeedTogether(Start, other);
    forall chunks | chunks in {one, other} ensures UpToStop(FeedAll(Start, chunks).events) == Feed(Start, Concat(one)).events {
      var events := FeedAll(Start, chunks).events;
      if Stopless(events) {
        StoplessPrefix(events, []);
        assert events + [] == events;
      }
    }
    if Stopless(FeedAll(Start, one).events) && !Stopless(FeedAll(Start, other).events) {
      UpToStopStops(FeedAll(Start, other).events);
    }
  }

  /** A frame as it was written: any length form that fits, masked or not. */
  datatype Sent = Sent(frame: Frame, form: Form, mask: Option<Bytes>)

  ghost predicate Sendable(x: Sent) {
    Fits(x.form, |x.frame.payload|) && IsMask(x.mask) && |x.frame.payload| <= MaxSafeInteger
  }

  ghost function OnWire(x: Sent): Bytes
    requires Sendable(x)
  {
    Wire(x.frame, x.form, x.mask)
  }

  /** A whole frame at the front of the buffer is taken, whatever follows it. */
  lemma PumpSent(x: Sent, tail: Bytes, begun: seq<Bytes>)
    requires Sendable(x)
    ensures var (now, assembling) := Taken(x.frame, begun);
      Pump(State(OnWire(x) + tail, begun)) ==
        if x.frame.opcode == CLOSE then Outcome([Closed], State(tail, begun)) else After(now, Pump(State(tail, assembling)))
  {
    DecodeOfWire(x.frame, x.form, x.mask, tail);
    if x.frame.opcode == CLOSE {
      PumpWaits(State(OnWire(x) + tail, begun));
    } else {
      PumpTakes(State(OnWire(x) + tail, begun), x.frame, tail);
    }
  }

  /** Beyond a close frame the cuts do matter: the bytes behind it wait for the next data
      event, so one event delivers the message and the other does not. */
  lemma BytesBehindACloseWait(close: Sent, text: Sent)
    requires Sendable(close) && close.frame.opcode == CLOSE && Sendable(text) && IsData(text.frame) && text.frame.fin
    ensures var (c, t) := (OnWire(close), OnWire(text));
      && FeedAll(Start, [c + t]) == Outcome([Closed], Start.(buffer := t))
      && FeedAll(Start, [c, t]) == Outcome([Closed, Message(text.frame.payload)], Start)
  {
    var c, t := OnWire(close), OnWire(text);
    assert c + [] == c;
    FeedClose(close, t);
    FeedClose(close, []);
    FeedText(text);
    FedOnce(Start, c + t);
    FedOnce(Start, c);
    assert [c, t][..1] == [c];
  }

  lemma FeedClose(close: Sent, tail: Bytes)
    requires Sendable(close) && close.frame.opcode == CLOSE
    ensures Feed(Start, OnWire(close) + tail) == Outcome([Closed], Start.(buffer := tail))
  {
    assert [] + (OnWire(close) + tail) == OnWire(close) + tail;
    PumpSent(close, tail, []);
  }

  lemma FeedText(text: Sent)
    requires Sendable(text) && IsData(text.frame) && text.frame.fin
    ensures Feed(Start, OnWire(text)) == Outcome([Message(text.frame.payload)], Start)
  {
    assert [] + OnWire(text) == OnWire(text) == OnWire(text) + [];
    PumpSent(text, [], []);
    PumpWaits(Start);
    assert Concat([] + [text.frame.payload]) == text.frame.payload;
  }

  lemma FedOnce(s: State, chunk: Bytes)
    ensures FeedAll(s, [chunk]) == Feed(s, chunk)
  {
    assert [chunk][..0] == [];
  }

  /** Behind a stop more bytes only wait. */
  lemma {:induction false} StoppedKeeps(s: State, more: Bytes)
    requires !Stopless(Pump(s).events)
    ensures Pump(s.(buffer := s.buffer + more)) ==
      Outcome(Pump(s).events, Pump(s).state.(buffer := Pump(s).state.buffer + more))
    decreases |s.buffer|
  {
    var d := Decode(s.buffer);
    RestIsShorter(s.buffer);
    PumpWaits(s);
    assert !d.NotYet?;
    DecodeIsStable(s.buffer, more);
    PumpWaits(s.(buffer := s.buffer + more));
    if d.Whole? && d.frame.opcode != CLOSE {
      PumpTakes(s, d.frame, d.rest);
      PumpTakes(s.(buffer := s.buffer + more), d.frame, d.rest + more);
      var (now, assembling) := Taken(d.frame, s.assembling);
      TakenGoesOn(d.frame, s.assembling);
      NowAndLater(now, Pump(State(d.rest, assembling)).events);
      StoppedKeeps(State(d.rest, assembling), more);
    }
  }

  lemma StopIsSeen(events: seq<Event>)
    requires events != [] && IsStop(events[0])
    ensures !Stopless(events)
  {
    assert events[0] in events;
  }

  /** A run that did not stop waits for bytes. */
  lemma {:induction false} UnstoppedWaits(s: State)
    requires Stopless(Pump(s).events)
    ensures Decode(Pump(s).state.buffer).NotYet?
    decreases |s.buffer|
  {
    var d := Decode(s.buffer);
    RestIsShorter(s.buffer);
    PumpWaits(s);
    if d.TooLarge? || (d.Whole? && d.frame.opcode == CLOSE) {
      StopIsSeen(Pump(s).events);
    } else if d.Whole? {
      PumpTakes(s, d.frame, d.rest);
      var (now, assembling) := Taken(d.frame, s.assembling);
      TakenGoesOn(d.frame, s.assembling);
      NowAndLater(now, Pump(State(d.rest, assembling)).events);
      UnstoppedWaits(State(d.rest, assembling));
    }
  }

  /** One pump leaves neither a whole frame nor an oversized header behind. */
  predicate Settles(s: State) { Decode(Pump(s).state.buffer).NotYet? }

  lemma SettledInTwo(s: State, more: Bytes)
    requires Settles(s.(buffer := s.buffer + more))
    ensures Settles(s) && Then(Pump(s), more) == Pump(s.(buffer := s.buffer + more))
  {
    if Stopless(Pump(s).events) {
      UnstoppedWaits(s);
      PumpEarly(s, more);
    } else {
      StoppedKeeps(s, more);
      WaitsOn(Pump(s), more);
    }
  }

  lemma WaitsOn(early: Outcome, more: Bytes)
    requires Decode(early.state.buffer + more).NotYet?
    ensures Decode(early.state.buffer).NotYet?
    ensures Then(early, more) == Outcome(early.events, early.state.(buffer := early.state.buffer + more))
  {
    if !Decode(early.state.buffer).NotYet? { DecodeIsStable(early.state.buffer, more); }
    PumpWaits(early.state.(buffer := early.state.buffer + more));
    assert early.events + [] == early.events;
  }

  lemma {:induction false} FeedSettled(chunks: seq<Bytes>)
    requires Settles(Start.(buffer := Concat(chunks)))
    ensures FeedAll(Start, chunks) == Pump(Start.(buffer := Concat(chunks)))
  {
    if chunks == [] {
      PumpWaits(Start);
    } else {
      var n := |chunks| - 1;
      SettledInTwo(Start.(buffer := Concat(chunks[..n])), chunks[n]);
      FeedSettled(chunks[..n]);
    }
  }

  ghost predicate AllCutsAgree(stream: Bytes) {
    forall one, other :: Concat(one) == stream && Concat(other) == stream ==> FeedAll(Start, one) == FeedAll(Start, other)
  }

  /** All cuts of a stream give the same events and the same state, to the very end, exactly
      when one pump of the whole stream leaves no whole frame and no oversized header
      behind: nothing complete stands behind the first close frame, and no header is too
      large. */
  lemma AllCutsAgreeIff(stream: Bytes)
    ensures AllCutsAgree(stream) <==> Settles(Start.(buffer := stream))
  {
    var whole := Start.(buffer := stream);
    assert [] + stream == stream;
    if Settles(whole) {
      forall one, other | Concat(one) == stream && Concat(other) == stream ensures FeedAll(Start, one) == FeedAll(Start, other) {
        FeedSettled(one);
        FeedSettled(other);
      }
    } else {
      OnceMoreDiffers(stream);
    }
  }

  /** An empty data event behind such a stream makes the difference. */
  lemma OnceMoreDiffers(stream: Bytes)
    requires !Settles(Start.(buffer := stream))
    ensures Concat([stream]) == stream && Concat([stream, []]) == stream
    ensures FeedAll(Start, [stream]) != FeedAll(Start, [stream, []])
  {
    var once := Pump(Start.(buffer := stream));
    assert [stream][..0] == [] && [stream, []][..1] == [stream];
    assert [] + stream == stream && stream + [] == stream;
    FedOnce(Start, stream);
    assert FeedAll(Start, [stream, []]) == Then(once, []);
    assert once.state.buffer + [] == once.state.buffer;
    MovesOn(once.state);
  }

  /** A pump that finds a whole frame or an oversized header is seen. */
  lemma MovesOn(s: State)
    requires !Decode(s.buffer).NotYet?
    ensures Pump(s).events != [] || |Pump(s).state.buffer| < |s.buffer|
  {
    RestIsShorter(s.buffer);
    PumpWaits(s);
    if Decode(s.buffer).Whole? && Decode(s.buffer).frame.opcode != CLOSE {
      var d := Decode(s.buffer);
      PumpTakes(s, d.frame, d.rest);
      PumpShrinks(State(d.rest, Taken(d.frame, s.assembling).1));
    }
  }

  lemma {:induction false} PumpShrinks(s: State)
    ensures |Pump(s).state.buffer| <= |s.buffer|
    decreases |s.buffer|
  {
    var d := Decode(s.buffer);
    RestIsShorter(s.buffer);
    PumpWaits(s);
    if d.Whole? && d.frame.opcode != CLOSE {
      PumpTakes(s, d.frame, d.rest);
      PumpShrinks(State(d.rest, Taken(d.frame, s.assembling).1));
    }
  }

  // ---- messages ----

  ghost predicate AllSendable(sent: seq<Sent>) { forall x :: x in sent ==> Sendable(x) && x.frame.opcode != CLOSE }

  ghost function Stream(sent: seq<Sent>): Bytes
    requires AllSendable(sent)
  {
    if sent == [] then [] else OnWire(sent[0]) + Stream(sent[1..])
  }

  ghost function DataFrames(sent: seq<Sent>): seq<Frame> {
    if sent == [] then []
    else (if IsData(sent[0].frame) then [sent[0].frame] else []) + DataFrames(sent[1..])
  }

  ghost function Pings(sent: seq<Sent>): seq<Bytes> {
    if sent == [] then []
    else (if sent[0].frame.opcode == PING then [sent[0].frame.payload] else []) + Pings(sent[1..])
  }

  function Messages(events: seq<Event>): seq<Bytes> {
    if events == [] then []
    else (if events[0].Message? then [events[0].payload] else []) + Messages(events[1..])
  }

  function Pongs(events: seq<Event>): seq<Bytes> {
    if events == [] then []
    else (if events[0].Ponged? then [events[0].payload] else []) + Pongs(events[1..])
  }

  /** The data frames carry these messages, each cut into the given fragments with FIN on
      the last one; `begun` are fragments of the first message already received. */
  ghost predicate Carries(frames: seq<Frame>, begun: seq<Bytes>, messages: seq<seq<Bytes>>)
    decreases |frames|
  {
    if frames == [] then messages == [] && begun == []
    else if !frames[0].fin then Carries(frames[1..], begun + [frames[0].payload], messages)
    else messages != [] && messages[0] == begun + [frames[0].payload] && Carries(frames[1..], [], messages[1..])
  }

  ghost function Joined(messages: seq<seq<Bytes>>): seq<Bytes> {
    if messages == [] then [] else [Concat(messages[0])] + Joined(messages[1..])
  }

  /** Frame by frame: the bytes of whole frames are used up, every ping is echoed, and the
      messages are the joined fragments, whatever control frames come between them. */
  lemma {:induction false} PumpOfStream(sent: seq<Sent>, begun: seq<Bytes>, messages: seq<seq<Bytes>>)
    requires AllSendable(sent) && Carries(DataFrames(sent), begun, messages)
    ensures var o := Pump(State(Stream(sent), begun));
      o.state == Start && Stopless(o.events) && Messages(o.events) == Joined(messages) && Pongs(o.events) == Pings(sent)
  {
    if sent != [] {
      var x := sent[0];
      assert Sendable(x);
      PumpSent(x, Stream(sent[1..]), begun);
      var (now, assembling) := Taken(x.frame, begun);
      if !IsData(x.frame) {
        assert DataFrames(sent) == DataFrames(sent[1..]);
        PumpOfStream(sent[1..], begun, messages);
      } else {
        assert DataFrames(sent)[1..] == DataFrames(sent[1..]);
        if x.frame.fin {
          PumpOfStream(sent[1..], [], messages[1..]);
        } else {
          PumpOfStream(sent[1..], assembling, messages);
        }
      }
      OneMore(now, Pump(State(Stream(sent[1..]), assembling)).events);
    }
  }

  lemma OneMore(now: seq<Event>, later: seq<Event>)
    requires |now| <= 1 && Stopless(now)
    ensures Stopless(now + later) <==> Stopless(later)
    ensures Messages(now + later) == (if now != [] && now[0].Message? then [now[0].payload] else []) + Messages(later)
    ensures Pongs(now + later) == (if now != [] && now[0].Ponged? then [now[0].payload] else []) + Pongs(later)
  {
    NowAndLater(now, later);
    if now == [] {
      assert now + later == later;
    } else {
      assert (now + later)[1..] == later;
    }
  }

  /** End to end: fragment any messages, put control frames between the fragments, write
      every frame in any form, cut the bytes anywhere: out come the messages, whole and in
      order, and one pong for each ping. */
  lemma MessagesArrive(sent: seq<Sent>, messages: seq<seq<Bytes>>, chunks: seq<Bytes>)
    requires AllSendable(sent) && Carries(DataFrames(sent), [], messages) && Concat(chunks) == Stream(sent)
    ensures var o := FeedAll(Start, chunks);
      o.state == Start && Messages(o.events) == Joined(messages) && Pongs(o.events) == Pings(sent)
  {
    PumpOfStream(sent, [], messages);
    assert Start.buffer + Stream(sent) == Stream(sent);
    FeedTogether(Start, chunks);
    if !Stopless(FeedAll(Start, chunks).events) {
      UpToStopStops(FeedAll(Start, chunks).events);
      assert false;
    }
  }
}
