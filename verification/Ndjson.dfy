/** The newline-delimited JSON decoder that reads channel-driver and lane connections.
    UTF-8 and JSON are a parameter: a function from the bytes of a frame to its value or
    to the reason it has none. */
module Ndjson {
  import opened Prelude

  type Bytes = seq<Byte>

  const NEWLINE: Byte := 10
  const MAX_FRAME_BYTES := 10 * 1024 * 1024

  datatype Malformed = NotUtf8 | NotJson
  datatype Error = FrameTooLarge(frameBytes: nat, maxFrameBytes: nat) | EmptyFrame | Invalid(why: Malformed)

  type Parser<V> = Bytes -> Result<V, Malformed>

  /** What one `push` answers, and the bytes it leaves behind. */
  datatype Pushed<V> = Pushed(answer: Result<seq<V>, Error>, buffer: Bytes)

  function IndexOfNewline(s: Bytes): (r: Option<nat>)
    ensures r.None? ==> NEWLINE !in s
    ensures r.Some? ==> r.value < |s| && s[r.value] == NEWLINE && NEWLINE !in s[..r.value]
  {
    if s == [] then None
    else if s[0] == NEWLINE then Some(0)
    else
      match IndexOfNewline(s[1..])
      case None => None
      case Some(i) =>
        assert s[..i + 1] == [s[0]] + s[1..][..i];
        Some(i + 1)
  }

  /** One frame without its newline: its value, or why it is refused. */
  function Read<V>(parse: Parser<V>, max: nat, frame: Bytes): Result<V, Error> {
    if |frame| > max then Err(FrameTooLarge(|frame|, max))
    else if frame == [] then Err(EmptyFrame)
    else
      match parse(frame)
      case Ok(v) => Ok(v)
      case Err(why) => Err(Invalid(why))
  }

  /** The loop of `push`. A refused frame is gone from the buffer; the values read before
      it in the same push are lost with it. */
  function Drain<V>(parse: Parser<V>, max: nat, buffer: Bytes, values: seq<V>): Pushed<V>
    decreases |buffer|
  {
    match IndexOfNewline(buffer)
    case None =>
      if |buffer| > max then Pushed(Err(FrameTooLarge(|buffer|, max)), buffer) else Pushed(Ok(values), buffer)
    case Some(i) =>
      match Read(parse, max, buffer[..i])
      case Err(e) => Pushed(Err(e), buffer[i + 1..])
      case Ok(v) => Drain(parse, max, buffer[i + 1..], values + [v])
  }

  function Push<V>(parse: Parser<V>, max: nat, buffer: Bytes, chunk: Bytes): Pushed<V> {
    if chunk == [] then Pushed(Ok([]), buffer) else Drain(parse, max, buffer + chunk, [])
  }

  /** Pushes in turn until one throws. */
  function PushAll<V>(parse: Parser<V>, max: nat, buffer: Bytes, chunks: seq<Bytes>): Pushed<V> {
    if chunks == [] then Pushed(Ok([]), buffer)
    else
      var before := PushAll(parse, max, buffer, chunks[..|chunks| - 1]);
      if before.answer.Err? then before
      else
        var last := Push(parse, max, before.buffer, chunks[|chunks| - 1]);
        if last.answer.Err? then last else Pushed(Ok(before.answer.value + last.answer.value), last.buffer)
  }

  class NdjsonDecoder<V> {
    var buffer: Bytes
    const maxFrameBytes: nat
    const parse: Parser<V>

    constructor (parse: Parser<V>, maxFrameBytes: nat := MAX_FRAME_BYTES)
      ensures buffer == [] && this.maxFrameBytes == maxFrameBytes && this.parse == parse
    {
      buffer, this.maxFrameBytes, this.parse := [], maxFrameBytes, parse;
    }

    method PushChunk(chunk: Bytes) returns (answer: Result<seq<V>, Error>)
      modifies this
      ensures Pushed(answer, buffer) == Push(parse, maxFrameBytes, old(buffer), chunk)
      ensures Settled(maxFrameBytes, old(buffer)) && answer.Ok? ==> Settled(maxFrameBytes, buffer)
    {
      if chunk == [] { return Ok([]); }
      buffer := buffer + chunk;
      var values: seq<V> := [];
      while true
        invariant Drain(parse, maxFrameBytes, buffer, values) == Push(parse, maxFrameBytes, old(buffer), chunk)
        decreases |buffer|
      {
        var delimiter := IndexOfNewline(buffer);
        if delimiter.None? {
          if |buffer| > maxFrameBytes { return Err(FrameTooLarge(|buffer|, maxFrameBytes)); }
          return Ok(values);
        }
        var frame := buffer[..delimiter.value];
        buffer := buffer[delimiter.value + 1..];
        if |frame| > maxFrameBytes { return Err(FrameTooLarge(|frame|, maxFrameBytes)); }
        if |frame| == 0 { return Err(EmptyFrame); }
        var value := parse(frame);
        if value.Err? { return Err(Invalid(value.error)); }
        values := values + [value.value];
      }
    }
  }

  // ---- what a push means: the lines of the stream ----

  /** Between pushes the buffer is the start of one frame: no newline, within the limit. */
  predicate Settled(max: nat, buffer: Bytes) { NEWLINE !in buffer && |buffer| <= max }

  predicate IsLine(line: Bytes) { NEWLINE !in line }

  ghost predicate AreLines(lines: seq<Bytes>) { forall line :: line in lines ==> IsLine(line) }

  function Joined(lines: seq<Bytes>): Bytes {
    if lines == [] then [] else lines[0] + [NEWLINE] + Joined(lines[1..])
  }

  ghost predicate AllReadable<V>(parse: Parser<V>, max: nat, lines: seq<Bytes>) {
    forall line :: line in lines ==> Read(parse, max, line).Ok?
  }

  function ValuesOf<V>(parse: Parser<V>, max: nat, lines: seq<Bytes>): seq<V>
    requires AllReadable(parse, max, lines)
  {
    if lines == [] then [] else [Read(parse, max, lines[0]).value] + ValuesOf(parse, max, lines[1..])
  }

  function FirstUnreadable<V>(parse: Parser<V>, max: nat, lines: seq<Bytes>): (k: nat)
    requires !AllReadable(parse, max, lines)
    ensures k < |lines| && Read(parse, max, lines[k]).Err? && AllReadable(parse, max, lines[..k])
  {
    if Read(parse, max, lines[0]).Err? then 0
    else
      var k := FirstUnreadable(parse, max, lines[1..]);
      assert lines[..k + 1] == [lines[0]] + lines[1..][..k];
      k + 1
  }

  /** Every stream is lines and an unfinished rest. */
  lemma {:induction false} LinesOf(stream: Bytes) returns (lines: seq<Bytes>, rest: Bytes)
    ensures AreLines(lines) && IsLine(rest) && stream == Joined(lines) + rest
    decreases |stream|
  {
    match IndexOfNewline(stream)
    case None => lines, rest := [], stream;
    case Some(i) =>
      var more;
      more, rest := LinesOf(stream[i + 1..]);
      lines := [stream[..i]] + more;
      assert stream == stream[..i] + [NEWLINE] + stream[i + 1..];
  }

  function Framed(line: Bytes, more: Bytes): Bytes { line + [NEWLINE] + more }

  lemma {:induction false} NewlineAfterLine(line: Bytes, more: Bytes)
    requires IsLine(line)
    ensures IndexOfNewline(Framed(line, more)) == Some(|line|)
    ensures Framed(line, more)[..|line|] == line && Framed(line, more)[|line| + 1..] == more
  {
    if line != [] {
      NewlineAfterLine(line[1..], more);
      assert Framed(line, more)[1..] == Framed(line[1..], more);
    }
  }

  lemma JoinedFirst(lines: seq<Bytes>, more: Bytes)
    requires lines != []
    ensures Joined(lines) + more == Framed(lines[0], Joined(lines[1..]) + more)
  {
    assert lines[0] + [NEWLINE] + Joined(lines[1..]) + more == lines[0] + [NEWLINE] + (Joined(lines[1..]) + more);
  }

  lemma DrainFramed<V>(parse: Parser<V>, max: nat, line: Bytes, more: Bytes, values: seq<V>)
    requires IsLine(line)
    ensures Drain(parse, max, Framed(line, more), values) ==
      if Read(parse, max, line).Ok? then Drain(parse, max, more, values + [Read(parse, max, line).value])
      else Pushed(Err(Read(parse, max, line).error), more)
  {
    NewlineAfterLine(line, more);
  }

  /** Readable lines are read through, whatever stands behind them … */
  lemma {:induction false} DrainLines<V>(parse: Parser<V>, max: nat, lines: seq<Bytes>, more: Bytes, values: seq<V>)
    requires AreLines(lines) && AllReadable(parse, max, lines)
    ensures Drain(parse, max, Joined(lines) + more, values) == Drain(parse, max, more, values + ValuesOf(parse, max, lines))
  {
    if lines == [] {
      assert Joined(lines) + more == more && values + [] == values;
    } else {
      var v := Read(parse, max, lines[0]).value;
      JoinedFirst(lines, more);
      DrainFramed(parse, max, lines[0], Joined(lines[1..]) + more, values);
      DrainLines(parse, max, lines[1..], more, values + [v]);
      assert values + [v] + ValuesOf(parse, max, lines[1..]) == values + ([v] + ValuesOf(parse, max, lines[1..]));
    }
  }

  /** … and the first line that is not readable is the answer. */
  lemma {:induction false} DrainBadLine<V>(parse: Parser<V>, max: nat, lines: seq<Bytes>, more: Bytes, values: seq<V>)
    requires AreLines(lines) && !AllReadable(parse, max, lines)
    ensures var k := FirstUnreadable(parse, max, lines);
      Drain(parse, max, Joined(lines) + more, values) ==
        Pushed(Err(Read(parse, max, lines[k]).error), Joined(lines[k + 1..]) + more)
  {
    JoinedFirst(lines, more);
    DrainFramed(parse, max, lines[0], Joined(lines[1..]) + more, values);
    var line := Read(parse, max, lines[0]);
    if line.Ok? {
      DrainBadLine(parse, max, lines[1..], more, values + [line.value]);
      assert lines[1..][FirstUnreadable(parse, max, lines[1..]) + 1..] == lines[FirstUnreadable(parse, max, lines) + 1..];
    }
  }

  /** A push succeeds exactly when every line is readable and the rest is not too long;
      its answer is then the lines' values, and the rest stays buffered. */
  lemma DrainReadsLines<V>(parse: Parser<V>, max: nat, lines: seq<Bytes>, rest: Bytes)
    requires AreLines(lines) && IsLine(rest)
    ensures var r := Drain(parse, max, Joined(lines) + rest, []);
      && (r.answer.Ok? <==> AllReadable(parse, max, lines) && |rest| <= max)
      && (r.answer.Ok? ==> r == Pushed(Ok(ValuesOf(parse, max, lines)), rest))
  {
    if AllReadable(parse, max, lines) {
      DrainLines(parse, max, lines, rest, []);
      assert IndexOfNewline(rest).None?;
      assert [] + ValuesOf(parse, max, lines) == ValuesOf(parse, max, lines);
    } else {
      DrainBadLine(parse, max, lines, rest, []);
    }
  }

  // ---- independence of chunking ----

  function Concat(chunks: seq<Bytes>): Bytes {
    if chunks == [] then [] else Concat(chunks[..|chunks| - 1]) + chunks[|chunks| - 1]
  }

  /** Two refusals of the same kind; how many bytes had arrived may differ. */
  predicate SameKind(a: Error, b: Error) { a == b || (a.FrameTooLarge? && b.FrameTooLarge?) }

  ghost predicate Agree<V>(apart: Pushed<V>, once: Pushed<V>) {
    if apart.answer.Ok? then once == apart else once.answer.Err? && SameKind(apart.answer.error, once.answer.error)
  }

  lemma {:induction false} DrainKeepsValues<V>(parse: Parser<V>, max: nat, buffer: Bytes, values: seq<V>)
    ensures var r := Drain(parse, max, buffer, []);
      Drain(parse, max, buffer, values) == if r.answer.Ok? then Pushed(Ok(values + r.answer.value), r.buffer) else r
    decreases |buffer|
  {
    match IndexOfNewline(buffer)
    case None => assert values + [] == values;
    case Some(i) =>
      var line := Read(parse, max, buffer[..i]);
      if line.Ok? {
        DrainKeepsValues(parse, max, buffer[i + 1..], values + [line.value]);
        DrainKeepsValues(parse, max, buffer[i + 1..], [line.value]);
        var r := Drain(parse, max, buffer[i + 1..], []);
        assert [] + [line.value] == [line.value];
        if r.answer.Ok? { ConcatIsAssociative(values, [line.value], r.answer.value); }
      }
  }

  lemma NewlineStays(buffer: Bytes, more: Bytes)
    requires IndexOfNewline(buffer).Some?
    ensures var i := IndexOfNewline(buffer).value;
      IndexOfNewline(buffer + more) == Some(i) && (buffer + more)[..i] == buffer[..i] && (buffer + more)[i + 1..] == buffer[i + 1..] + more
  {
    var i := IndexOfNewline(buffer).value;
    var behind := buffer[i + 1..] + more;
    assert buffer + more == Framed(buffer[..i], behind);
    NewlineAfterLine(buffer[..i], behind);
  }

  /** Stopping early and going on with more bytes is one longer run. */
  lemma {:induction false} DrainEarly<V>(parse: Parser<V>, max: nat, buffer: Bytes, more: Bytes, values: seq<V>)
    ensures var early, late := Drain(parse, max, buffer, values), Drain(parse, max, buffer + more, values);
      if early.answer.Ok? then late == Drain(parse, max, early.buffer + more, early.answer.value)
      else late.answer.Err? && SameKind(early.answer.error, late.answer.error)
    decreases |buffer|
  {
    match IndexOfNewline(buffer)
    case None =>
      if |buffer| > max { TooLongStays(parse, max, buffer, more, values); }
    case Some(i) =>
      NewlineStays(buffer, more);
      var line := Read(parse, max, buffer[..i]);
      if line.Ok? { DrainEarly(parse, max, buffer[i + 1..], more, values + [line.value]); }
  }

  lemma TooLongStays<V>(parse: Parser<V>, max: nat, buffer: Bytes, more: Bytes, values: seq<V>)
    requires IsLine(buffer) && |buffer| > max
    ensures var late := Drain(parse, max, buffer + more, values);
      late.answer.Err? && late.answer.error.FrameTooLarge?
  {
    forall i | 0 <= i < |buffer| ensures (buffer + more)[i] != NEWLINE {
      assert (buffer + more)[i] == buffer[i];
    }
  }

  lemma SettledDrains<V>(parse: Parser<V>, max: nat, buffer: Bytes)
    requires Settled(max, buffer)
    ensures Drain(parse, max, buffer, []) == Pushed(Ok([]), buffer)
  {
    assert IndexOfNewline(buffer).None?;
  }

  lemma {:induction false} DrainSettles<V>(parse: Parser<V>, max: nat, buffer: Bytes, values: seq<V>)
    ensures var r := Drain(parse, max, buffer, values); r.answer.Ok? ==> Settled(max, r.buffer)
    decreases |buffer|
  {
    match IndexOfNewline(buffer)
    case None =>
    case Some(i) =>
      var line := Read(parse, max, buffer[..i]);
      if line.Ok? { DrainSettles(parse, max, buffer[i + 1..], values + [line.value]); }
  }

  lemma {:induction false} PushesAgree<V>(parse: Parser<V>, max: nat, buffer: Bytes, chunks: seq<Bytes>)
    requires Settled(max, buffer)
    ensures Agree(PushAll(parse, max, buffer, chunks), Drain(parse, max, buffer + Concat(chunks), []))
    ensures PushAll(parse, max, buffer, chunks).answer.Ok? ==> Settled(max, PushAll(parse, max, buffer, chunks).buffer)
  {
    if chunks == [] {
      assert buffer + [] == buffer;
      SettledDrains(parse, max, buffer);
    } else {
      var n := |chunks| - 1;
      PushesAgree(parse, max, buffer, chunks[..n]);
      var before := PushAll(parse, max, buffer, chunks[..n]);
      var whole := buffer + Concat(chunks[..n]);
      assert buffer + Concat(chunks) == whole + chunks[n];
      DrainEarly(parse, max, whole, chunks[n], []);
      if before.answer.Ok? {
        LastPush(parse, max, before.buffer, chunks[n]);
        DrainKeepsValues(parse, max, before.buffer + chunks[n], before.answer.value);
      }
    }
  }

  lemma LastPush<V>(parse: Parser<V>, max: nat, buffer: Bytes, chunk: Bytes)
    requires Settled(max, buffer)
    ensures Push(parse, max, buffer, chunk) == Drain(parse, max, buffer + chunk, [])
    ensures Push(parse, max, buffer, chunk).answer.Ok? ==> Settled(max, Push(parse, max, buffer, chunk).buffer)
  {
    if chunk == [] {
      assert buffer + chunk == buffer;
      SettledDrains(parse, max, buffer);
    }
    DrainSettles(parse, max, buffer + chunk, []);
  }

  /** Any cuts: all pushes succeed exactly when one push of the whole does, with the same
      values in total and the same bytes left; otherwise both refuse for the same kind of
      reason. */
  lemma ChunkingDoesNotMatter<V>(parse: Parser<V>, max: nat, chunks: seq<Bytes>)
    ensures Agree(PushAll(parse, max, [], chunks), Push(parse, max, [], Concat(chunks)))
    ensures PushAll(parse, max, [], chunks).answer.Ok? <==> Push(parse, max, [], Concat(chunks)).answer.Ok?
    ensures PushAll(parse, max, [], chunks).answer.Ok? ==> Settled(max, PushAll(parse, max, [], chunks).buffer)
  {
    PushesAgree(parse, max, [], chunks);
    LastPush(parse, max, [], Concat(chunks));
  }

  // ---- frames ----

  /** `encodeFrame`, given the value's JSON document. */
  function EncodeFrame(document: Bytes, max: nat): Result<Bytes, Error> {
    if |document| > max then Err(FrameTooLarge(|document|, max)) else Ok(document + [NEWLINE])
  }

  /** JSON text of a value: never empty, no raw newline, and parses back. */
  ghost predicate CodecLaws<V(!new)>(parse: Parser<V>, stringify: V -> Bytes) {
    forall v :: stringify(v) != [] && IsLine(stringify(v)) && parse(stringify(v)) == Ok(v)
  }

  ghost predicate AllEncode<V>(stringify: V -> Bytes, max: nat, values: seq<V>) {
    forall i :: 0 <= i < |values| ==> EncodeFrame(stringify(values[i]), max).Ok?
  }

  ghost function Frames<V>(stringify: V -> Bytes, max: nat, values: seq<V>): Bytes
    requires AllEncode(stringify, max, values)
  {
    if values == [] then [] else EncodeFrame(stringify(values[0]), max).value + Frames(stringify, max, values[1..])
  }

  lemma {:induction false} DrainFrames<V(!new)>(parse: Parser<V>, stringify: V -> Bytes, max: nat, values: seq<V>, before: seq<V>)
    requires CodecLaws(parse, stringify) && AllEncode(stringify, max, values)
    ensures Drain(parse, max, Frames(stringify, max, values), before) == Pushed(Ok(before + values), [])
  {
    if values == [] {
      assert before + values == before;
    } else {
      var line := stringify(values[0]);
      DrainFramed(parse, max, line, Frames(stringify, max, values[1..]), before);
      DrainFrames(parse, stringify, max, values[1..], before + [values[0]]);
      assert before + [values[0]] + values[1..] == before + values;
    }
  }

  /** Round trip: encoded frames, cut anywhere, come out as the values, nothing left over. */
  lemma FramesArrive<V(!new)>(parse: Parser<V>, stringify: V -> Bytes, max: nat, values: seq<V>, chunks: seq<Bytes>)
    requires CodecLaws(parse, stringify) && AllEncode(stringify, max, values)
    requires Concat(chunks) == Frames(stringify, max, values)
    ensures PushAll(parse, max, [], chunks) == Pushed(Ok(values), [])
  {
    PushesAgree(parse, max, [], chunks);
    DrainFrames(parse, stringify, max, values, []);
    assert [] + Concat(chunks) == Concat(chunks) && [] + values == values;
  }
}
