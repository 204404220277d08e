/** The in-memory diagnostic buffer: two bounds, oldest dropped first, and a count of what
    was dropped. Specified against everything recorded since the last `clear`. */
module DiagnosticRing {
  import opened Prelude

  const RING_WINDOW_SECONDS := 60 * 60
  const RING_MAX_BYTES := 5 * 1024 * 1024

  /** `at` in milliseconds; `size` is the byte length of the record's JSON text. */
  datatype Record = Record(at: int, text: string, size: nat)

  datatype Bounds = Bounds(windowSeconds: nat, maxBytes: nat)

  function Sum(records: seq<Record>): nat {
    if records == [] then 0 else records[0].size + Sum(records[1..])
  }

  predicate TooOld(b: Bounds, r: Record, now: int) { r.at < now - b.windowSeconds * 1000 }

  // ---- what the buffer should hold ----

  ghost predicate Fits(b: Bounds, records: seq<Record>, now: int) {
    Sum(records) <= b.maxBytes && forall r :: r in records ==> !TooOld(b, r, now)
  }

  /** From position `k` on is the longest part of the history's end that fits. */
  ghost predicate LongestFit(b: Bounds, history: seq<Record>, k: nat, now: int) {
    && k <= |history| && Fits(b, history[k..], now)
    && forall j :: 0 <= j < k ==> !Fits(b, history[j..], now)
  }

  // ---- what it does ----

  /** Everything recorded since the last `clear`, and how much of it is gone. */
  datatype Ring = Ring(history: seq<Record>, dropped: nat)

  predicate Bounded(b: Bounds, ring: Ring) {
    ring.dropped <= |ring.history| && Sum(ring.history[ring.dropped..]) <= b.maxBytes
  }

  /** The loop looks at the oldest record's age and at the total size. */
  function Rotated(b: Bounds, history: seq<Record>, dropped: nat, now: int): (k: nat)
    requires dropped <= |history|
    ensures dropped <= k <= |history| && Sum(history[k..]) <= b.maxBytes
    ensures k < |history| ==> !TooOld(b, history[k], now)
    decreases |history| - dropped
  {
    if dropped == |history| then dropped
    else if !TooOld(b, history[dropped], now) && Sum(history[dropped..]) <= b.maxBytes then dropped
    else Rotated(b, history, dropped + 1, now)
  }

  datatype Op = Put(record: Record) | Look(now: int) | Clear

  function Next(b: Bounds, ring: Ring, op: Op): (next: Ring)
    requires ring.dropped <= |ring.history|
    ensures next.dropped <= |next.history|
  {
    match op
    case Put(r) => var history := ring.history + [r]; Ring(history, Rotated(b, history, ring.dropped, r.at))
    case Look(now) => ring.(dropped := Rotated(b, ring.history, ring.dropped, now))
    case Clear => Ring([], 0)
  }

  const Empty := Ring([], 0)

  function Run(b: Bounds, ops: seq<Op>): (ring: Ring)
    ensures ring.dropped <= |ring.history|
  {
    if ops == [] then Empty else Next(b, Run(b, ops[..|ops| - 1]), ops[|ops| - 1])
  }

  class DiagnosticRing {
    const bounds: Bounds
    var records: seq<Record>
    var sizes: seq<nat>
    var bytes: nat
    var dropped: nat
    ghost var history: seq<Record>

    constructor (windowSeconds: nat := RING_WINDOW_SECONDS, maxBytes: nat := RING_MAX_BYTES)
      ensures Valid() && Abstract() == Empty && bounds == Bounds(windowSeconds, maxBytes)
    {
      bounds := Bounds(windowSeconds, maxBytes);
      records, sizes, bytes, dropped, history := [], [], 0, 0, [];
    }

    ghost function Abstract(): Ring
      reads this
    {
      Ring(history, dropped)
    }

    /** The parallel lists and the two counters agree with the history. */
    ghost predicate Mirrors()
      reads this
    {
      && dropped <= |history| && records == history[dropped..]
      && |sizes| == |records| && (forall i :: 0 <= i < |sizes| ==> sizes[i] == records[i].size)
      && bytes == Sum(records)
    }

    ghost predicate Valid()
      reads this
    {
      Mirrors() && Bounded(bounds, Abstract())
    }

    method Record(record: Record)
      requires Valid()
      modifies this
      ensures Valid() && Abstract() == Next(bounds, old(Abstract()), Put(record))
    {
      history := history + [record];
      SumAdd(records, record);
      records, sizes, bytes := records + [record], sizes + [record.size], bytes + record.size;
      Rotate(record.at);
    }

    method Rotate(now: int)
      requires Mirrors()
      modifies this`records, this`sizes, this`bytes, this`dropped
      ensures Valid() && dropped == Rotated(bounds, history, old(dropped), now)
    {
      var oldestAllowed := now - bounds.windowSeconds * 1000;
      while |records| > 0
        invariant Mirrors()
        invariant Rotated(bounds, history, dropped, now) == Rotated(bounds, history, old(dropped), now)
        decreases |records|
      {
        var tooOld := records[0].at < oldestAllowed;
        var tooBig := bytes > bounds.maxBytes;
        if !tooOld && !tooBig { break; }
        DropOldest();
      }
    }

    method DropOldest()
      requires Mirrors() && |records| > 0
      modifies this`records, this`sizes, this`bytes, this`dropped
      ensures Mirrors() && dropped == old(dropped) + 1 && |records| == old(|records|) - 1
    {
      bytes := bytes - sizes[0];
      records, sizes, dropped := records[1..], sizes[1..], dropped + 1;
    }

    method Snapshot(now: int) returns (kept: seq<Record>, droppedSoFar: nat, keptBytes: nat)
      requires Valid()
      modifies this
      ensures Valid() && Abstract() == Next(bounds, old(Abstract()), Look(now))
      ensures kept == history[dropped..] && droppedSoFar == dropped && keptBytes == Sum(kept)
      ensures droppedSoFar + |kept| == |history| && keptBytes <= bounds.maxBytes
    {
      Rotate(now);
      kept, droppedSoFar, keptBytes := records, dropped, bytes;
    }

    method ClearAll()
      modifies this
      ensures Valid() && Abstract() == Next(bounds, Empty, Clear)
    {
      records, sizes, bytes, dropped, history := [], [], 0, 0, [];
    }
  }

  lemma {:induction false} SumAdd(records: seq<Record>, r: Record)
    ensures Sum(records + [r]) == Sum(records) + r.size
  {
    if records != [] {
      SumAdd(records[1..], r);
      assert (records + [r])[1..] == records[1..] + [r];
    }
  }

  // ---- longest fit, for a clock that never goes back ----

  /** `Clear` looks at no clock. */
  predicate HasTime(op: Op) { !op.Clear? }

  function TimeOf(op: Op): int
    requires HasTime(op)
  {
    if op.Put? then op.record.at else op.now
  }

  ghost predicate NonDecreasing(ops: seq<Op>) {
    forall i, j :: 0 <= i < j < |ops| && HasTime(ops[i]) && HasTime(ops[j]) ==> TimeOf(ops[i]) <= TimeOf(ops[j])
  }

  /** Recorded in order, nothing later than `now`. */
  ghost predicate InOrder(history: seq<Record>, now: int) {
    && (forall i, j :: 0 <= i < j < |history| ==> history[i].at <= history[j].at)
    && (forall i :: 0 <= i < |history| ==> history[i].at <= now)
  }

  lemma {:induction false} SumOfSuffix(records: seq<Record>, k: nat)
    requires k <= |records|
    ensures Sum(records[k..]) <= Sum(records)
  {
    if k > 0 {
      SumOfSuffix(records[1..], k - 1);
      assert records[1..][k - 1..] == records[k..];
    }
  }

  /** What did not fit does not fit later, nor with one more record behind it. */
  lemma StillTooMuch(b: Bounds, records: seq<Record>, more: seq<Record>, now: int, later: int)
    requires !Fits(b, records, now) && now <= later && |more| <= 1
    ensures !Fits(b, records + more, later)
  {
    if Sum(records) > b.maxBytes {
      if more == [] { assert records + more == records; } else { SumAdd(records, more[0]); assert more == [more[0]]; }
    } else {
      var r :| r in records && TooOld(b, r, now);
      assert r in records + more;
    }
  }

  /** Dropping from the front one by one, starting where nothing longer fits, ends at the
      longest part that fits. */
  lemma {:induction false} RotatedIsLongest(b: Bounds, history: seq<Record>, dropped: nat, now: int)
    requires dropped <= |history| && InOrder(history, now)
    requires forall j :: 0 <= j < dropped ==> !Fits(b, history[j..], now)
    ensures LongestFit(b, history, Rotated(b, history, dropped, now), now)
    decreases |history| - dropped
  {
    var rest := history[dropped..];
    if rest != [] {
      assert rest[0] == history[dropped];
      if !TooOld(b, history[dropped], now) && Sum(rest) <= b.maxBytes {
        forall r | r in rest ensures !TooOld(b, r, now) {
          var i :| 0 <= i < |rest| && rest[i] == r;
          assert r == history[dropped + i];
        }
      } else {
        assert !Fits(b, rest, now) by { assert rest[0] in rest; }
        RotatedIsLongest(b, history, dropped + 1, now);
      }
    }
  }

  /** The clock a run has reached: any time no earlier than those it saw. */
  ghost predicate Reached(ops: seq<Op>, now: int) {
    forall i :: 0 <= i < |ops| && HasTime(ops[i]) ==> TimeOf(ops[i]) <= now
  }

  ghost predicate Exact(b: Bounds, ring: Ring, now: int) {
    InOrder(ring.history, now) && LongestFit(b, ring.history, ring.dropped, now)
  }

  lemma NextIsExact(b: Bounds, ring: Ring, op: Op, now: int)
    requires HasTime(op) && Exact(b, ring, now) && now <= TimeOf(op)
    ensures Exact(b, Next(b, ring, op), TimeOf(op))
  {
    var more := if op.Put? then [op.record] else [];
    var history := ring.history + more;
    if op.Look? { assert history == ring.history; }
    forall j | 0 <= j < ring.dropped ensures !Fits(b, history[j..], TimeOf(op)) {
      StillTooMuch(b, ring.history[j..], more, now, TimeOf(op));
      assert history[j..] == ring.history[j..] + more;
    }
    RotatedIsLongest(b, history, ring.dropped, TimeOf(op));
  }

  /** A time the run has just reached: of its last operation that looked at the clock. */
  ghost function LastTime(ops: seq<Op>): Option<int> {
    if ops == [] then None
    else if HasTime(ops[|ops| - 1]) then Some(TimeOf(ops[|ops| - 1]))
    else LastTime(ops[..|ops| - 1])
  }

  /** After every operation of every run with a non-decreasing clock, the buffer holds
      exactly the longest end of the history that both bounds allow. */
  lemma {:induction false} HoldsLongestFit(b: Bounds, ops: seq<Op>)
    requires NonDecreasing(ops)
    ensures LastTime(ops).None? ==> Run(b, ops) == Empty
    ensures LastTime(ops).Some? ==> Reached(ops, LastTime(ops).value) && Exact(b, Run(b, ops), LastTime(ops).value)
  {
    if ops != [] {
      var n := |ops| - 1;
      var ring, op := Run(b, ops[..n]), ops[n];
      HoldsLongestFit(b, ops[..n]);
      if op.Clear? {
        assert Sum([]) == 0 && Next(b, ring, op).history[0..] == [];
        assert forall i :: 0 <= i < n ==> ops[i] == ops[..n][i];
      } else {
        var before := if LastTime(ops[..n]).Some? then LastTime(ops[..n]).value else TimeOf(op);
        LastTimeIsOne(ops[..n]);
        assert Exact(b, ring, before) by { assert Empty.history[0..] == []; }
        NextIsExact(b, ring, op, before);
      }
    }
  }

  lemma {:induction false} LastTimeIsOne(ops: seq<Op>)
    ensures LastTime(ops).Some? ==> exists i :: 0 <= i < |ops| && HasTime(ops[i]) && TimeOf(ops[i]) == LastTime(ops).value
  {
    if ops != [] && !HasTime(ops[|ops| - 1]) {
      LastTimeIsOne(ops[..|ops| - 1]);
      if LastTime(ops).Some? {
        var i :| 0 <= i < |ops| - 1 && HasTime(ops[..|ops| - 1][i]) && TimeOf(ops[..|ops| - 1][i]) == LastTime(ops).value;
        assert ops[i] == ops[..|ops| - 1][i];
      }
    }
  }

  /** Whatever the clock does: nothing is forgotten, only counted, the size limit holds
      after every operation, and the age limit for the oldest record. */
  lemma {:induction false} CountsEverything(b: Bounds, ops: seq<Op>)
    ensures var ring := Run(b, ops);
      && Bounded(b, ring) && ring.history == RecordedSinceClear(ops)
      && ring.dropped + |ring.history[ring.dropped..]| == |RecordedSinceClear(ops)|
    ensures ops != [] && HasTime(ops[|ops| - 1]) && Run(b, ops).dropped < |Run(b, ops).history| ==>
      !TooOld(b, Run(b, ops).history[Run(b, ops).dropped], TimeOf(ops[|ops| - 1]))
  {
    if ops != [] {
      CountsEverything(b, ops[..|ops| - 1]);
    }
  }

  function RecordedSinceClear(ops: seq<Op>): seq<Record> {
    if ops == [] || ops[|ops| - 1].Clear? then []
    else RecordedSinceClear(ops[..|ops| - 1]) + (if ops[|ops| - 1].Put? then [ops[|ops| - 1].record] else [])
  }

  /** A clock that goes back can keep a record the window excludes: a younger-looking one
      in front of it hides its age. */
  lemma ClockGoingBackKeepsOld()
    ensures var b, ops := Bounds(1, 100), [Put(Record(9000, "a", 1)), Put(Record(0, "b", 1)), Look(5000)];
      var ring := Run(b, ops);
      ring.dropped == 0 && !Fits(b, ring.history, 5000)
  {
    var b, ops := Bounds(1, 100), [Put(Record(9000, "a", 1)), Put(Record(0, "b", 1)), Look(5000)];
    var first, second := Record(9000, "a", 1), Record(0, "b", 1);
    RunThree(b, ops);
    assert [] + [first] == [first];
    StaysWhole(b, [first], 9000);
    assert [first] + [second] == [first, second];
    StaysWhole(b, [first, second], 0);
    StaysWhole(b, [first, second], 5000);
    assert TooOld(b, [first, second][1], 5000);
  }

  lemma RunThree(b: Bounds, ops: seq<Op>)
    requires |ops| == 3
    ensures Run(b, ops) == Next(b, Next(b, Next(b, Empty, ops[0]), ops[1]), ops[2])
  {
    assert ops[..2][..1] == ops[..1] && ops[..1][..0] == [];
    assert Run(b, ops[..1]) == Next(b, Empty, ops[0]);
    assert Run(b, ops[..2]) == Next(b, Run(b, ops[..1]), ops[1]);
  }

  /** Nothing is dropped while the oldest record is young and the total is small. */
  lemma StaysWhole(b: Bounds, history: seq<Record>, now: int)
    requires history != [] && !TooOld(b, history[0], now) && Sum(history) <= b.maxBytes
    ensures Rotated(b, history, 0, now) == 0
  {
    assert history[0..] == history;
  }
}
