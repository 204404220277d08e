/** For which clocks the diagnostic buffer keeps its window: records are looked at only when
    they are the oldest, so a younger-looking one in front can hide an old one. */
module RingClock {
  import opened Prelude
  import opened DiagnosticRing

  /** The same operation at the same time; what is recorded may differ. */
  predicate SameTime(a: Op, b: Op) {
    a.Put? == b.Put? && a.Look? == b.Look? && (HasTime(a) ==> TimeOf(a) == TimeOf(b))
  }

  ghost predicate SameClock(ops: seq<Op>, others: seq<Op>) {
    |ops| == |others| && forall i :: 0 <= i < |ops| ==> SameTime(ops[i], others[i])
  }

  predicate Within(b: Bounds, at: int, now: int) { at >= now - b.windowSeconds * 1000 }

  /** Nothing older than the window is retained. */
  ghost predicate AllWithin(b: Bounds, ring: Ring, now: int) {
    forall k :: ring.dropped <= k < |ring.history| ==> Within(b, ring.history[k].at, now)
  }

  /** So it is right after every operation that looks at the clock. */
  ghost predicate CleanThroughout(b: Bounds, ops: seq<Op>) {
    forall n :: 0 <= n < |ops| && HasTime(ops[n]) ==> AllWithin(b, Run(b, ops[..n + 1]), TimeOf(ops[n]))
  }

  ghost predicate NoClear(ops: seq<Op>, i: int, n: int)
    requires 0 <= i && n <= |ops|
  {
    forall m :: i <= m < n ==> !ops[m].Clear?
  }

  /** Record `i` is inside the window at every look from its own up to operation `n`. */
  ghost predicate StaysWithin(b: Bounds, ops: seq<Op>, i: int, n: int)
    requires 0 <= i <= n < |ops| && HasTime(ops[i])
  {
    forall m :: i <= m <= n && HasTime(ops[m]) ==> Within(b, TimeOf(ops[i]), TimeOf(ops[m]))
  }

  /** A record that stays inside the window until `n`, one recorded behind it that does not. */
  ghost predicate Hides(b: Bounds, ops: seq<Op>, i: int, j: int, n: int) {
    && 0 <= i < j <= n < |ops| && ops[i].Put? && ops[j].Put? && HasTime(ops[n]) && NoClear(ops, i, n)
    && StaysWithin(b, ops, i, n) && !Within(b, TimeOf(ops[j]), TimeOf(ops[n]))
  }

  ghost predicate NothingHides(b: Bounds, ops: seq<Op>) { forall i, j, n :: !Hides(b, ops, i, j, n) }

  // ---- the states of a run ----

  ghost predicate StepOk(b: Bounds, ops: seq<Op>, rings: seq<Ring>, m: int) {
    && 0 <= m < |ops| && m + 1 < |rings|
    && rings[m].dropped <= |rings[m].history| && rings[m + 1] == Next(b, rings[m], ops[m])
  }

  ghost predicate IsTrace(b: Bounds, ops: seq<Op>, rings: seq<Ring>) {
    |rings| == |ops| + 1 && rings[0] == Empty && forall m :: 0 <= m < |ops| ==> StepOk(b, ops, rings, m)
  }

  lemma RunStep(b: Bounds, ops: seq<Op>, m: nat)
    requires m < |ops|
    ensures Run(b, ops[..m + 1]) == Next(b, Run(b, ops[..m]), ops[m])
  {
    assert ops[..m + 1][..m] == ops[..m];
  }

  lemma TraceOf(b: Bounds, ops: seq<Op>) returns (rings: seq<Ring>)
    ensures IsTrace(b, ops, rings)
    ensures forall n :: 0 <= n <= |ops| ==> rings[n] == Run(b, ops[..n])
  {
    rings := seq(|ops| + 1, n requires 0 <= n <= |ops| => Run(b, ops[..n]));
    forall m | 0 <= m < |ops| ensures StepOk(b, ops, rings, m) { RunStep(b, ops, m); }
  }

  /** All that is needed to know of one step. */
  lemma OneStep(b: Bounds, ops: seq<Op>, rings: seq<Ring>, m: nat)
    requires StepOk(b, ops, rings, m)
    ensures ops[m].Clear? ==> rings[m + 1].history == []
    ensures ops[m].Put? ==> rings[m + 1].history == rings[m].history + [ops[m].record]
    ensures ops[m].Look? ==> rings[m + 1].history == rings[m].history
    ensures HasTime(ops[m]) ==> rings[m].dropped <= rings[m + 1].dropped <= |rings[m + 1].history|
    ensures HasTime(ops[m]) && rings[m + 1].dropped < |rings[m + 1].history| ==>
      Within(b, rings[m + 1].history[rings[m + 1].dropped].at, TimeOf(ops[m]))
  {
  }

  /** Without a `clear` the history only grows, and so does what was dropped. */
  lemma {:induction false} HistoryGrows(b: Bounds, ops: seq<Op>, rings: seq<Ring>, i: nat, n: nat)
    requires IsTrace(b, ops, rings) && i <= n <= |ops| && NoClear(ops, i, n)
    ensures rings[i].history <= rings[n].history && rings[i].dropped <= rings[n].dropped
    decreases n
  {
    if i < n {
      HistoryGrows(b, ops, rings, i, n - 1);
      assert StepOk(b, ops, rings, n - 1);
      OneStep(b, ops, rings, n - 1);
    }
  }

  /** A record's place in the history, from its own operation on. */
  ghost predicate StandsAt(ops: seq<Op>, rings: seq<Ring>, i: nat, n: nat, k: nat) {
    i < n < |rings| && i < |ops| && ops[i].Put? && k == |rings[i].history| < |rings[n].history| && rings[n].history[k] == ops[i].record
  }

  lemma Stands(b: Bounds, ops: seq<Op>, rings: seq<Ring>, i: nat, n: nat) returns (k: nat)
    requires IsTrace(b, ops, rings) && i < n <= |ops| && ops[i].Put? && NoClear(ops, i, n)
    ensures StandsAt(ops, rings, i, n, k)
  {
    k := |rings[i].history|;
    assert StepOk(b, ops, rings, i);
    OneStep(b, ops, rings, i);
    HistoryGrows(b, ops, rings, i + 1, n);
  }

  /** Every record in the history was put there by one operation. */
  lemma {:induction false} PutFor(b: Bounds, ops: seq<Op>, rings: seq<Ring>, n: nat, k: nat) returns (i: nat)
    requires IsTrace(b, ops, rings) && n <= |ops| && k < |rings[n].history|
    ensures i < n && ops[i].Put? && |rings[i].history| == k && NoClear(ops, i, n)
    decreases n
  {
    assert n > 0;
    assert StepOk(b, ops, rings, n - 1);
    OneStep(b, ops, rings, n - 1);
    if k < |rings[n - 1].history| {
      i := PutFor(b, ops, rings, n - 1, k);
    } else {
      i := n - 1;
    }
  }

  // ---- a clock that hides nothing ----

  ghost predicate CleanAfter(b: Bounds, ops: seq<Op>, rings: seq<Ring>, n: int) {
    0 <= n < |ops| && n + 1 < |rings| && (HasTime(ops[n]) ==> AllWithin(b, rings[n + 1], TimeOf(ops[n])))
  }

  /** If all operations before left the buffer clean and this one does not, the oldest
      record hides another. */
  lemma DirtyHides(b: Bounds, ops: seq<Op>, rings: seq<Ring>, n: nat) returns (i: nat, j: nat)
    requires IsTrace(b, ops, rings) && n < |ops|
    requires (forall m :: 0 <= m < n ==> CleanAfter(b, ops, rings, m)) && !CleanAfter(b, ops, rings, n)
    ensures Hides(b, ops, i, j, n)
  {
    var ring := rings[n + 1];
    assert StepOk(b, ops, rings, n);
    OneStep(b, ops, rings, n);
    var q :| ring.dropped <= q < |ring.history| && !Within(b, ring.history[q].at, TimeOf(ops[n]));
    i := PutFor(b, ops, rings, n + 1, ring.dropped);
    j := PutFor(b, ops, rings, n + 1, q);
    var k := Stands(b, ops, rings, i, n + 1);
    var l := Stands(b, ops, rings, j, n + 1);
    if j <= i { HistoryGrows(b, ops, rings, j, i); }
    forall m | i <= m <= n && HasTime(ops[m]) ensures Within(b, TimeOf(ops[i]), TimeOf(ops[m])) {
      if m < n {
        assert CleanAfter(b, ops, rings, m);
        RetainedAt(b, ops, rings, i, m, n);
      }
    }
  }

  /** A record that is the oldest after operation `n` was retained at every earlier one. */
  lemma RetainedAt(b: Bounds, ops: seq<Op>, rings: seq<Ring>, i: nat, m: nat, n: nat)
    requires IsTrace(b, ops, rings) && i <= m < n < |ops| && ops[i].Put? && NoClear(ops, i, n + 1) && HasTime(ops[m])
    requires |rings[i].history| == rings[n + 1].dropped && CleanAfter(b, ops, rings, m)
    ensures Within(b, TimeOf(ops[i]), TimeOf(ops[m]))
  {
    var k := Stands(b, ops, rings, i, m + 1);
    HistoryGrows(b, ops, rings, m + 1, n + 1);
  }

  lemma {:induction false} CleanSoFar(b: Bounds, ops: seq<Op>, rings: seq<Ring>, n: nat)
    requires IsTrace(b, ops, rings) && NothingHides(b, ops) && n <= |ops|
    ensures forall m :: 0 <= m < n ==> CleanAfter(b, ops, rings, m)
    decreases n
  {
    if n > 0 {
      CleanSoFar(b, ops, rings, n - 1);
      if !CleanAfter(b, ops, rings, n - 1) {
        var i, j := DirtyHides(b, ops, rings, n - 1);
      }
    }
  }

  lemma HidesSame(b: Bounds, ops: seq<Op>, others: seq<Op>, i: int, j: int, n: int)
    requires SameClock(ops, others) && Hides(b, others, i, j, n)
    ensures Hides(b, ops, i, j, n)
  {
    forall m | 0 <= m < |ops| ensures SameTime(ops[m], others[m]) { }
  }

  lemma HidingNothingIsClean(b: Bounds, ops: seq<Op>)
    requires NothingHides(b, ops)
    ensures CleanThroughout(b, ops)
  {
    var rings := TraceOf(b, ops);
    CleanSoFar(b, ops, rings, |ops|);
    forall n | 0 <= n < |ops| && HasTime(ops[n]) ensures AllWithin(b, Run(b, ops[..n + 1]), TimeOf(ops[n])) {
      assert CleanAfter(b, ops, rings, n) && rings[n + 1] == Run(b, ops[..n + 1]);
    }
  }

  // ---- a clock that hides something ----

  function Light(op: Op): Op { if op.Put? then Put(op.record.(size := 0)) else op }

  /** The same run with records that weigh nothing: only age drops them. */
  function Lightened(ops: seq<Op>): seq<Op> { seq(|ops|, i requires 0 <= i < |ops| => Light(ops[i])) }

  ghost predicate Weightless(ops: seq<Op>) { forall i :: 0 <= i < |ops| && ops[i].Put? ==> ops[i].record.size == 0 }

  ghost predicate LightRecords(records: seq<Record>) { forall i :: 0 <= i < |records| ==> records[i].size == 0 }

  lemma {:induction false} WeighsNothing(records: seq<Record>)
    requires LightRecords(records)
    ensures Sum(records) == 0
  {
    if records != [] { WeighsNothing(records[1..]); }
  }

  lemma {:induction false} LightHistory(b: Bounds, ops: seq<Op>, rings: seq<Ring>, n: nat)
    requires IsTrace(b, ops, rings) && Weightless(ops) && n <= |ops|
    ensures LightRecords(rings[n].history)
  {
    if n > 0 {
      LightHistory(b, ops, rings, n - 1);
      assert StepOk(b, ops, rings, n - 1);
      OneStep(b, ops, rings, n - 1);
    }
  }

  lemma {:induction false} RotatedStopsAt(b: Bounds, history: seq<Record>, dropped: nat, now: int, k: nat)
    requires dropped <= k < |history| && Within(b, history[k].at, now) && Sum(history[k..]) <= b.maxBytes
    ensures Rotated(b, history, dropped, now) <= k
    decreases k - dropped
  {
    if dropped < k { RotatedStopsAt(b, history, dropped + 1, now, k); }
  }

  lemma OneStepKeeps(b: Bounds, ops: seq<Op>, rings: seq<Ring>, n: nat, k: nat)
    requires IsTrace(b, ops, rings) && Weightless(ops) && n < |ops| && HasTime(ops[n])
    requires rings[n].dropped <= k < |rings[n + 1].history| && Within(b, rings[n + 1].history[k].at, TimeOf(ops[n]))
    ensures rings[n + 1].dropped <= k
  {
    var history := rings[n + 1].history;
    assert StepOk(b, ops, rings, n);
    LightHistory(b, ops, rings, n + 1);
    WeighsNothing(history[k..]);
    RotatedStopsAt(b, history, rings[n].dropped, TimeOf(ops[n]), k);
  }

  /** A weightless record inside the window throughout is never dropped. */
  lemma {:induction false} NotDropped(b: Bounds, ops: seq<Op>, rings: seq<Ring>, i: nat, n: nat)
    requires IsTrace(b, ops, rings) && Weightless(ops)
    requires i <= n < |ops| && ops[i].Put? && NoClear(ops, i, n + 1) && StaysWithin(b, ops, i, n)
    ensures rings[n + 1].dropped <= |rings[i].history|
    decreases n
  {
    var k := Stands(b, ops, rings, i, n + 1);
    if i < n {
      NotDropped(b, ops, rings, i, n - 1);
    } else {
      assert StepOk(b, ops, rings, n);
    }
    OneStepKeeps(b, ops, rings, n, k);
  }

  lemma HiddenIsRetained(b: Bounds, ops: seq<Op>, rings: seq<Ring>, i: nat, j: nat, n: nat)
    requires IsTrace(b, ops, rings) && Hides(b, ops, i, j, n) && Weightless(ops)
    ensures !AllWithin(b, rings[n + 1], TimeOf(ops[n]))
  {
    NotDropped(b, ops, rings, i, n);
    var k := Stands(b, ops, rings, j, n + 1);
    var l := Stands(b, ops, rings, i, j);
  }

  lemma HiddenIsDirty(b: Bounds, ops: seq<Op>, i: int, j: int, n: int)
    requires Hides(b, ops, i, j, n) && Weightless(ops)
    ensures !CleanThroughout(b, ops)
  {
    var rings := TraceOf(b, ops);
    HiddenIsRetained(b, ops, rings, i, j, n);
    assert rings[n + 1] == Run(b, ops[..n + 1]);
  }

  /** The window bound holds after every operation, whatever is recorded at these times,
      exactly when no record that stays inside the window is followed by one that falls
      out of it: the clock never goes back and then forward again past the window. */
  lemma WindowHoldsIff(b: Bounds, ops: seq<Op>)
    ensures (forall others :: SameClock(ops, others) ==> CleanThroughout(b, others)) <==> NothingHides(b, ops)
  {
    if NothingHides(b, ops) {
      forall others | SameClock(ops, others) ensures CleanThroughout(b, others) {
        forall i, j, n ensures !Hides(b, others, i, j, n) {
          if Hides(b, others, i, j, n) { HidesSame(b, ops, others, i, j, n); }
        }
        HidingNothingIsClean(b, others);
      }
    } else {
      var i, j, n :| Hides(b, ops, i, j, n);
      var light := Lightened(ops);
      assert SameClock(light, ops) && SameClock(ops, light);
      HidesSame(b, light, ops, i, j, n);
      HiddenIsDirty(b, light, i, j, n);
    }
  }
}
