/** One channel id through a reload: who drives it after each lane is reconciled. */
module ReloadSlots {
  import opened Prelude
  import opened Reload

  /** Who holds an id, and which drivers run for it. */
  datatype Slot = Slot(entry: Option<Supervisor>, live: set<Supervisor>)

  ghost function SlotOf(d: Daemon, x: string): Slot {
    Slot(if x in d.channels then Some(d.channels[x]) else None, set s | s in d.running && s.channel.id == x)
  }

  ghost predicate OneWish(channels: seq<ChannelConfig>, x: string, c: ChannelConfig) {
    c in channels && c.enabled && c.id == x && forall other :: other in channels && other.id == x ==> other == c
  }

  ghost predicate NoWish(channels: seq<ChannelConfig>, x: string) {
    forall c :: c in channels && c.enabled ==> c.id != x
  }

  ghost function Added(slot: Slot, s: Supervisor): Slot { Slot(Some(s), slot.live + {s}) }

  /** The starting loops touch nothing but the supervisor table and what runs. */
  ghost predicate SameLanes(a: Daemon, b: Daemon) {
    b == a.(channels := b.channels, running := b.running)
  }

  lemma StartOneSlot(d: Daemon, lane: string, c: ChannelConfig, x: string)
    ensures SlotOf(StartOne(d, lane, c), x) ==
      if c.id == x then Added(SlotOf(d, x), Supervisor(d.clock, lane, c)) else SlotOf(d, x)
  {
    var s := Supervisor(d.clock, lane, c);
    assert SlotOf(StartOne(d, lane, c), x).live == SlotOf(d, x).live + (if c.id == x then {s} else {});
  }

  lemma WishSplit(channels: seq<ChannelConfig>, x: string)
    requires channels != []
    ensures NoWish(channels, x) ==> NoWish(channels[..|channels| - 1], x)
    ensures forall c :: OneWish(channels, x, c) ==>
      OneWish(channels[..|channels| - 1], x, c) || (NoWish(channels[..|channels| - 1], x) && channels[|channels| - 1] == c)
  {
    assert channels == channels[..|channels| - 1] + [channels[|channels| - 1]];
  }

  lemma {:induction false} StartChannelsSlot(d: Daemon, lane: string, channels: seq<ChannelConfig>, x: string)
    ensures SameLanes(d, StartChannels(d, lane, channels))
    ensures NoWish(channels, x) ==> SlotOf(StartChannels(d, lane, channels), x) == SlotOf(d, x)
    ensures forall c :: OneWish(channels, x, c) ==>
      SlotOf(StartChannels(d, lane, channels), x) == Added(SlotOf(d, x), Supervisor(d.clock, lane, c))
  {
    if channels != [] {
      var n := |channels| - 1;
      StartChannelsSlot(d, lane, channels[..n], x);
      WishSplit(channels, x);
      StartOneSlot(StartChannels(d, lane, channels[..n]), lane, channels[n], x);
    }
  }

  lemma {:induction false} StartMissingSlot(d: Daemon, lane: string, channels: seq<ChannelConfig>, x: string)
    ensures SameLanes(d, StartMissing(d, lane, channels))
    ensures NoWish(channels, x) || x in d.channels ==> SlotOf(StartMissing(d, lane, channels), x) == SlotOf(d, x)
    ensures forall c :: OneWish(channels, x, c) && x !in d.channels ==>
      SlotOf(StartMissing(d, lane, channels), x) == Added(SlotOf(d, x), Supervisor(d.clock, lane, c))
  {
    if channels != [] {
      var n := |channels| - 1;
      StartMissingSlot(d, lane, channels[..n], x);
      WishSplit(channels, x);
      StartOneSlot(StartMissing(d, lane, channels[..n]), lane, channels[n], x);
    }
  }

  ghost predicate KeepsEntry(slot: Slot, lane: LaneConfig, x: string) {
    slot.entry.Some? && slot.entry.value.lane == lane.id ==>
      slot.entry.value.channel in lane.channels && slot.entry.value.channel.enabled && slot.entry.value.channel.id == x
  }

  ghost function Freed(slot: Slot, lane: LaneConfig, x: string): Slot {
    if KeepsEntry(slot, lane, x) then slot else Slot(None, slot.live - {slot.entry.value})
  }

  ghost predicate Keyed(d: Daemon) {
    forall x :: x in d.channels ==> d.channels[x].channel.id == x
  }

  /** What reconciling one lane does to one id. */
  lemma ReconcileSlot(d: Daemon, lane: LaneConfig, x: string)
    requires Keyed(d)
    ensures lane.id !in d.controllers && NoWish(lane.channels, x) ==> SlotOf(Reconcile(d, lane), x) == SlotOf(d, x)
    ensures forall c :: lane.id !in d.controllers && OneWish(lane.channels, x, c) ==>
      SlotOf(Reconcile(d, lane), x) == Added(SlotOf(d, x), Supervisor(d.clock, lane.id, c))
    ensures lane.id in d.controllers && (NoWish(lane.channels, x) || Freed(SlotOf(d, x), lane, x).entry.Some?) ==>
      SlotOf(Reconcile(d, lane), x) == Freed(SlotOf(d, x), lane, x)
    ensures forall c :: lane.id in d.controllers && OneWish(lane.channels, x, c) && Freed(SlotOf(d, x), lane, x).entry.None? ==>
      SlotOf(Reconcile(d, lane), x) == Added(Freed(SlotOf(d, x), lane, x), Supervisor(d.clock, lane.id, c))
  {
    if lane.id in d.controllers {
      SyncSlot(d, lane, x);
    } else {
      StartChannelsSlot(Made(d, lane), lane.id, lane.channels, x);
    }
  }

  lemma StopSlot(d: Daemon, lane: LaneConfig, x: string)
    requires Keyed(d)
    ensures SlotOf(StopChannels(d, Stale(d, lane)), x) == Freed(SlotOf(d, x), lane, x)
  {
    var stopped := StopChannels(d, Stale(d, lane));
    assert x in Stale(d, lane) <==> x in d.channels && !KeepsEntry(SlotOf(d, x), lane, x);
    assert SlotOf(stopped, x).live == Freed(SlotOf(d, x), lane, x).live;
  }

  lemma SyncSlot(d: Daemon, lane: LaneConfig, x: string)
    requires Keyed(d) && lane.id in d.controllers
    ensures NoWish(lane.channels, x) || Freed(SlotOf(d, x), lane, x).entry.Some? ==>
      SlotOf(SyncLane(d, lane), x) == Freed(SlotOf(d, x), lane, x)
    ensures forall c :: OneWish(lane.channels, x, c) && Freed(SlotOf(d, x), lane, x).entry.None? ==>
      SlotOf(SyncLane(d, lane), x) == Added(Freed(SlotOf(d, x), lane, x), Supervisor(d.clock, lane.id, c))
  {
    StopSlot(d, lane, x);
    assert SlotOf(Updated(d, lane), x) == SlotOf(StopChannels(d, Stale(d, lane)), x);
    StartMissingSlot(Updated(d, lane), lane.id, lane.channels, x);
  }

  /** The fixed facts about one id in one reload: the lanes in order, which of them are
      kept, the lane that wants the id (`wisher`, or the length for none), the holder at
      the start with its lane's place, and the strays that run for the id. */
  datatype Case = Case(lanes: seq<LaneConfig>, kept: set<string>, x: string, wisher: nat, wish: ChannelConfig,
                       holder: Option<Supervisor>, place: nat, strays: set<Supervisor>, clock: nat)

  ghost predicate CaseOk(k: Case) {
    && k.wisher <= |k.lanes| && k.place <= |k.lanes|
    && (forall i, j :: 0 <= i < j < |k.lanes| ==> k.lanes[i].id != k.lanes[j].id)
    && (forall i :: 0 <= i < |k.lanes| && i != k.wisher ==> NoWish(k.lanes[i].channels, k.x))
    && (k.wisher < |k.lanes| ==> OneWish(k.lanes[k.wisher].channels, k.x, k.wish))
    && (k.holder.None? ==> k.place == |k.lanes|)
    && (k.holder.Some? ==>
          && k.place < |k.lanes| && k.lanes[k.place].id == k.holder.value.lane
          && k.holder.value.lane in k.kept && k.holder.value.channel.id == k.x
          && k.holder.value !in k.strays && k.holder.value.born < k.clock)
    && (forall s :: s in k.strays ==> s.born < k.clock)
  }

  /** The id moves from a kept lane to a lane reconciled before it. */
  predicate Moves(k: Case) { k.holder.Some? && k.wisher < k.place }

  /** The lane that drives the id wants it as it is. */
  predicate Unchanged(k: Case) { k.holder.Some? && k.wisher == k.place && k.holder.value.channel == k.wish }

  ghost predicate Driven(k: Case, slot: Slot)
    requires k.wisher < |k.lanes|
  {
    slot.entry.Some? && slot.entry.value.lane == k.lanes[k.wisher].id && slot.entry.value.channel == k.wish
    && slot.entry.value !in k.strays
  }

  /** The slot after the first i lanes. */
  ghost predicate SlotAt(k: Case, i: nat, slot: Slot)
    requires CaseOk(k)
  {
    if !Moves(k) then
      if k.wisher < i && k.wisher < |k.lanes| then
        Driven(k, slot) && slot.live == {slot.entry.value} + k.strays && (Unchanged(k) ==> slot.entry == k.holder)
      else if k.holder.Some? && i <= k.place then slot.entry == k.holder && slot.live == {k.holder.value} + k.strays
      else slot == Slot(None, k.strays)
    else if i <= k.wisher then slot.entry == k.holder && slot.live == {k.holder.value} + k.strays
    else if k.lanes[k.wisher].id in k.kept then
      if i <= k.place then slot.entry == k.holder && slot.live == {k.holder.value} + k.strays
      else slot == Slot(None, k.strays)
    else Driven(k, slot) && slot.entry != k.holder && slot.live == {k.holder.value, slot.entry.value} + k.strays
  }

  lemma SlotStep(k: Case, d: Daemon, i: nat)
    requires CaseOk(k) && i < |k.lanes| && Keyed(d) && d.clock >= k.clock
    requires k.lanes[i].id in d.controllers <==> k.lanes[i].id in k.kept
    requires SlotAt(k, i, SlotOf(d, k.x))
    ensures SlotAt(k, i + 1, SlotOf(Reconcile(d, k.lanes[i]), k.x))
  {
    var slot := SlotOf(d, k.x);
    var lane := k.lanes[i];
    ReconcileSlot(d, lane, k.x);
    if i == k.wisher {
      assert OneWish(lane.channels, k.x, k.wish);
    } else {
      assert NoWish(lane.channels, k.x);
    }
  }

  /** At the end: the id is driven exactly as wished and nothing else runs for it … */
  ghost predicate RightAtEnd(k: Case, slot: Slot) {
    if k.wisher < |k.lanes| then
      slot.entry.Some? && slot.entry.value.lane == k.lanes[k.wisher].id && slot.entry.value.channel == k.wish
      && slot.live == {slot.entry.value}
    else slot == Slot(None, {})
  }

  /** … exactly when it does not move to an earlier lane and no stray ran before. */
  lemma EndIsRight(k: Case, slot: Slot)
    requires CaseOk(k) && SlotAt(k, |k.lanes|, slot)
    ensures RightAtEnd(k, slot) <==> !Moves(k) && k.strays == {}
  {
    if k.strays != {} {
      var s :| s in k.strays;
      assert s in slot.live;
    }
  }
}
