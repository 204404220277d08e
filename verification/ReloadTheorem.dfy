/** Hot reload against cold start: the exact condition under which they agree, what a
    reload leaves untouched, and that a repeated reload changes nothing. */
module ReloadTheorem {
  import opened Prelude
  import opened Reload
  import opened ReloadSlots

  /** A lane has its objects, matching its configuration, exactly when it is controlled. */
  ghost predicate LaneMatches(d: Daemon, id: string) {
    && (id in d.servers <==> id in d.controllers)
    && (id in d.connections <==> id in d.controllers && d.hub.Some?)
    && (id in d.workers <==> id in d.controllers && !d.controllers[id].config.core.claude)
    && (id in d.claudes <==> id in d.controllers && d.controllers[id].config.core.claude)
    && (id in d.controllers ==> d.controllers[id].config.id == id && d.controllers[id].config.enabled)
    && (id in d.connections ==> d.connections[id].core == d.controllers[id].config.core && d.connections[id].hub == d.hub.value)
    && (id in d.workers ==> d.workers[id].core == d.controllers[id].config.core)
    && (id in d.claudes ==> d.claudes[id].core == d.controllers[id].config.core)
  }

  ghost predicate LanesMatch(d: Daemon) { forall id :: LaneMatches(d, id) }

  ghost predicate ChannelsMatch(d: Daemon) {
    && Keyed(d)
    && (forall x :: x in d.channels ==> d.channels[x].lane in d.controllers && d.channels[x] in d.running)
    && (forall s :: s in d.running ==> s.born < d.clock)
  }

  /** States that `start` and `reload` produce. */
  ghost predicate Sound(d: Daemon) { LanesMatch(d) && ChannelsMatch(d) }

  function Strays(d: Daemon): set<Supervisor> { d.running - d.channels.Values }

  /** Some driven channel moves from a lane whose settings stay, and the Hub's, to a lane
      listed before it. */
  ghost predicate MovesAt(d: Daemon, next: Config, x: string) {
    var lanes := Enabled(next.lanes);
    exists i, j, c :: 0 <= i < j < |lanes| && Wants(lanes[i], x, c)
      && d.hub == next.hub && lanes[j].id in d.controllers && d.controllers[lanes[j].id].config.core == lanes[j].core
      && x in d.channels && d.channels[x].lane == lanes[j].id
  }

  // ---- the enabled lanes, in order ----

  lemma {:induction false} EnabledLanes(lanes: seq<LaneConfig>)
    ensures forall lane :: lane in Enabled(lanes) <==> lane in lanes && lane.enabled
    ensures (forall i, j :: 0 <= i < j < |lanes| ==> lanes[i].id != lanes[j].id) ==>
      forall i, j :: 0 <= i < j < |Enabled(lanes)| ==> Enabled(lanes)[i].id != Enabled(lanes)[j].id
  {
    if lanes != [] {
      EnabledLanes(lanes[..|lanes| - 1]);
      assert lanes == lanes[..|lanes| - 1] + [lanes[|lanes| - 1]];
    }
  }

  // ---- lanes, step by step ----

  ghost predicate OrderedLanes(lanes: seq<LaneConfig>) {
    && (forall i, j :: 0 <= i < j < |lanes| ==> lanes[i].id != lanes[j].id)
    && (forall lane :: lane in lanes ==> lane.enabled)
  }

  /** A lane's controller after some lanes: as configured, or as torn down. */
  ghost predicate LaneAt(t: Daemon, d: Daemon, lane: LaneConfig, done: bool) {
    if done then lane.id in d.controllers && d.controllers[lane.id].config == lane
    else
      && (lane.id in d.controllers <==> lane.id in t.controllers)
      && (lane.id in d.controllers ==> d.controllers[lane.id] == t.controllers[lane.id])
  }

  ghost predicate Progress(t: Daemon, lanes: seq<LaneConfig>, i: nat, d: Daemon) {
    && LanesMatch(d) && d.hub == t.hub && d.clock == t.clock + i
    && (forall k :: 0 <= k < |lanes| ==> LaneAt(t, d, lanes[k], k < i))
    && (forall id :: id in d.controllers ==> IsLane(lanes, id))
  }

  ghost predicate Fits(t: Daemon, lanes: seq<LaneConfig>) {
    && (forall id :: id in t.controllers ==> IsLane(lanes, id))
    && (forall k :: 0 <= k < |lanes| && lanes[k].id in t.controllers ==> t.controllers[lanes[k].id].config.core == lanes[k].core)
  }

  /** What reconciling one lane does to the controllers. */
  ghost predicate OneLaneDone(d: Daemon, r: Daemon, lane: LaneConfig) {
    && LanesMatch(r) && r.hub == d.hub && r.clock == d.clock + 1
    && lane.id in r.controllers && r.controllers[lane.id].config == lane
    && (forall id :: id != lane.id ==> (id in r.controllers <==> id in d.controllers))
    && (forall id :: id != lane.id && id in d.controllers ==> r.controllers[id] == d.controllers[id])
  }

  /** A lane with its core as it was matches its new configuration. */
  lemma StillMatches(d: Daemon, r: Daemon, lane: LaneConfig)
    requires LanesMatch(d) && lane.enabled && lane.id in d.controllers && d.controllers[lane.id].config.core == lane.core
    requires r == r.(servers := d.servers, connections := d.connections, workers := d.workers, claudes := d.claudes, hub := d.hub)
    requires r.controllers == d.controllers[lane.id := d.controllers[lane.id].(config := lane)] && r.clock == d.clock + 1
    ensures OneLaneDone(d, r, lane)
  {
    forall id ensures LaneMatches(r, id) { assert LaneMatches(d, id); }
  }

  lemma UpdateFrame(d: Daemon, lane: LaneConfig)
    requires LanesMatch(d) && lane.enabled && lane.id in d.controllers && d.controllers[lane.id].config.core == lane.core
    ensures OneLaneDone(d, SyncLane(d, lane), lane)
  {
    StartMissingSlot(Updated(d, lane), lane.id, lane.channels, "");
    assert d.controllers[lane.id].config.(channels := lane.channels) == lane by { assert LaneMatches(d, lane.id); }
    StillMatches(d, SyncLane(d, lane), lane);
  }

  lemma CreateFrame(d: Daemon, lane: LaneConfig)
    requires LanesMatch(d) && lane.enabled && lane.id !in d.controllers
    ensures OneLaneDone(d, CreateLane(d, lane), lane)
  {
    StartChannelsSlot(Made(d, lane), lane.id, lane.channels, "");
    forall id ensures LaneMatches(CreateLane(d, lane), id) {
      assert LaneMatches(d, id) && LaneMatches(d, lane.id);
    }
  }

  lemma ProgressStep(t: Daemon, lanes: seq<LaneConfig>, i: nat, d: Daemon)
    requires OrderedLanes(lanes) && Fits(t, lanes) && i < |lanes| && Progress(t, lanes, i, d)
    ensures Progress(t, lanes, i + 1, Reconcile(d, lanes[i]))
    ensures lanes[i].id in d.controllers <==> lanes[i].id in t.controllers
  {
    assert LaneAt(t, d, lanes[i], false);
    if lanes[i].id in d.controllers { UpdateFrame(d, lanes[i]); } else { CreateFrame(d, lanes[i]); }
    ProgressOn(t, lanes, i, d, Reconcile(d, lanes[i]));
  }

  lemma ProgressOn(t: Daemon, lanes: seq<LaneConfig>, i: nat, d: Daemon, r: Daemon)
    requires OrderedLanes(lanes) && i < |lanes| && Progress(t, lanes, i, d) && OneLaneDone(d, r, lanes[i])
    ensures Progress(t, lanes, i + 1, r)
  {
    forall k | 0 <= k < |lanes| ensures LaneAt(t, r, lanes[k], k < i + 1) {
      assert LaneAt(t, d, lanes[k], k < i);
      if k != i { assert lanes[k].id != lanes[i].id; }
    }
  }

  // ---- channels, step by step ----

  lemma ReconcileChannels(d: Daemon, lane: LaneConfig)
    requires ChannelsMatch(d)
    ensures ChannelsMatch(Reconcile(d, lane))
  {
    if lane.id in d.controllers {
      assert ChannelsStarting(Updated(d, lane));
      StartMissingChannels(Updated(d, lane), lane.id, lane.channels);
    } else {
      StartAllChannels(Made(d, lane), lane.id, lane.channels);
    }
  }

  /** While a lane is being started its new supervisors carry the current date. */
  ghost predicate ChannelsStarting(d: Daemon) {
    && Keyed(d)
    && (forall x :: x in d.channels ==> d.channels[x].lane in d.controllers && d.channels[x] in d.running)
    && (forall s :: s in d.running ==> s.born <= d.clock)
  }

  lemma {:induction false} StartAllChannels(d: Daemon, lane: string, channels: seq<ChannelConfig>)
    requires ChannelsStarting(d) && lane in d.controllers
    ensures ChannelsStarting(StartChannels(d, lane, channels)) && SameLanes(d, StartChannels(d, lane, channels))
  {
    if channels != [] { StartAllChannels(d, lane, channels[..|channels| - 1]); }
  }

  lemma {:induction false} StartMissingChannels(d: Daemon, lane: string, channels: seq<ChannelConfig>)
    requires ChannelsStarting(d) && lane in d.controllers
    ensures ChannelsStarting(StartMissing(d, lane, channels)) && SameLanes(d, StartMissing(d, lane, channels))
  {
    if channels != [] { StartMissingChannels(d, lane, channels[..|channels| - 1]); }
  }

  /** The daemon after i lanes. */
  ghost function After(t: Daemon, lanes: seq<LaneConfig>, i: nat): Daemon
    requires i <= |lanes|
  {
    ReconcileAll(t, lanes[..i])
  }

  lemma AfterNext(t: Daemon, lanes: seq<LaneConfig>, i: nat)
    requires i < |lanes|
    ensures After(t, lanes, 0) == t
    ensures After(t, lanes, i + 1) == Reconcile(After(t, lanes, i), lanes[i])
  {
    assert lanes[..i + 1][..i] == lanes[..i];
  }

  lemma {:induction false} ReconcileSome(t: Daemon, lanes: seq<LaneConfig>, i: nat)
    requires OrderedLanes(lanes) && Fits(t, lanes) && Sound(t) && i <= |lanes|
    ensures Progress(t, lanes, i, After(t, lanes, i)) && ChannelsMatch(After(t, lanes, i))
    decreases i
  {
    if i > 0 {
      ReconcileSome(t, lanes, i - 1);
      AfterNext(t, lanes, i - 1);
      ProgressStep(t, lanes, i - 1, After(t, lanes, i - 1));
      ReconcileChannels(After(t, lanes, i - 1), lanes[i - 1]);
    } else {
      assert lanes[..0] == [];
    }
  }

  lemma {:induction false} SlotSome(k: Case, t: Daemon, i: nat)
    requires CaseOk(k) && OrderedLanes(k.lanes) && Fits(t, k.lanes) && Sound(t) && i <= |k.lanes|
    requires k.kept == t.controllers.Keys && k.clock == t.clock && SlotAt(k, 0, SlotOf(t, k.x))
    ensures SlotAt(k, i, SlotOf(After(t, k.lanes, i), k.x))
    decreases i
  {
    if i > 0 {
      SlotSome(k, t, i - 1);
      AfterNext(t, k.lanes, i - 1);
      SlotOneMore(k, t, i - 1);
    } else {
      assert k.lanes[..0] == [];
    }
  }

  lemma SlotOneMore(k: Case, t: Daemon, i: nat)
    requires CaseOk(k) && OrderedLanes(k.lanes) && Fits(t, k.lanes) && Sound(t) && i < |k.lanes|
    requires k.kept == t.controllers.Keys && k.clock == t.clock && SlotAt(k, i, SlotOf(After(t, k.lanes, i), k.x))
    ensures SlotAt(k, i + 1, SlotOf(Reconcile(After(t, k.lanes, i), k.lanes[i]), k.x))
  {
    ReconcileSome(t, k.lanes, i);
    assert LaneAt(t, After(t, k.lanes, i), k.lanes[i], false);
    SlotStep(k, After(t, k.lanes, i), i);
  }

  // ---- the torn-down daemon ----

  ghost predicate ValidLanes(lanes: seq<LaneConfig>) {
    && OrderedLanes(lanes)
    && (forall i, j, c, e :: 0 <= i < |lanes| && 0 <= j < |lanes| && Has(lanes[i], c) && Has(lanes[j], e) && c.id == e.id
          ==> i == j && c == e)
  }

  lemma ValidEnabled(config: Config)
    requires ValidConfig(config)
    ensures ValidLanes(Enabled(config.lanes))
  {
    EnabledLanes(config.lanes);
    var lanes := Enabled(config.lanes);
    forall i, j, c, e | 0 <= i < |lanes| && 0 <= j < |lanes| && Has(lanes[i], c) && Has(lanes[j], e) && c.id == e.id
      ensures i == j && c == e
    {
      assert lanes[i] in lanes && lanes[j] in lanes;
      assert lanes[i] == lanes[j];
    }
  }

  ghost function TornDown(d: Daemon, next: Config): Daemon {
    TearDown(d, Dropped(d, next)).(hub := next.hub)
  }

  lemma TornDownLanes(d: Daemon, next: Config)
    requires LanesMatch(d) && ValidConfig(next)
    ensures LanesMatch(TornDown(d, next)) && Fits(TornDown(d, next), Enabled(next.lanes))
    ensures forall id :: id in TornDown(d, next).controllers <==> id in d.controllers && Survives(d, next, id)
  {
    var t := TornDown(d, next);
    var lanes := Enabled(next.lanes);
    EnabledLanes(next.lanes);
    forall id ensures LaneMatches(t, id) {
      assert LaneMatches(d, id);
    }
    forall id | id in t.controllers ensures IsLane(lanes, id) {
      var survivor :| survivor in next.lanes && survivor.enabled && survivor.id == id && survivor.core == d.controllers[id].config.core;
      assert survivor in lanes;
    }
    forall k | 0 <= k < |lanes| && lanes[k].id in t.controllers ensures t.controllers[lanes[k].id].config.core == lanes[k].core {
      assert lanes[k] in lanes;
      var survivor :| survivor in next.lanes && survivor.id == lanes[k].id && survivor.core == d.controllers[lanes[k].id].config.core;
      SameLane(next.lanes, lanes[k], survivor);
    }
  }

  lemma TornDownChannels(d: Daemon, next: Config)
    requires ChannelsMatch(d)
    ensures ChannelsMatch(TornDown(d, next))
    ensures Strays(TornDown(d, next)) == Strays(d)
    ensures forall x :: x in TornDown(d, next).channels <==> x in d.channels && Survives(d, next, d.channels[x].lane)
    ensures forall x :: x in TornDown(d, next).channels ==> TornDown(d, next).channels[x] == d.channels[x]
  {
    var t := TornDown(d, next);
    forall s ensures s in Strays(t) <==> s in Strays(d) {
      if s in d.running && s in d.channels.Values {
        var x :| x in d.channels && d.channels[x] == s;
        if s.lane !in Dropped(d, next) { assert t.channels[x] == s; }
      }
    }
  }

  lemma SameLane(lanes: seq<LaneConfig>, a: LaneConfig, b: LaneConfig)
    requires (forall i, j :: 0 <= i < j < |lanes| ==> lanes[i].id != lanes[j].id) && a in lanes && b in lanes && a.id == b.id
    ensures a == b
  {
  }

  ghost function StraysFor(d: Daemon, x: string): set<Supervisor> { set s | s in Strays(d) && s.channel.id == x }

  lemma LiveIsHeldOrStray(t: Daemon, x: string)
    requires ChannelsMatch(t)
    ensures SlotOf(t, x).live == (if x in t.channels then {t.channels[x]} else {}) + StraysFor(t, x)
    ensures x in t.channels ==> t.channels[x] !in StraysFor(t, x)
  {
    forall s | s in t.running && s.channel.id == x && s in t.channels.Values ensures x in t.channels && s == t.channels[x] {
      var y :| y in t.channels && t.channels[y] == s;
      assert y == x;
    }
  }

  ghost predicate WishOk(lanes: seq<LaneConfig>, x: string, wisher: nat, wish: ChannelConfig) {
    && wisher <= |lanes|
    && (forall i :: 0 <= i < |lanes| && i != wisher ==> NoWish(lanes[i].channels, x))
    && (wisher < |lanes| ==> OneWish(lanes[wisher].channels, x, wish) && Wants(lanes[wisher], x, wish))
    && (forall i, c :: 0 <= i < |lanes| && Wants(lanes[i], x, c) ==> i == wisher && c == wish)
  }

  lemma WisherFor(lanes: seq<LaneConfig>, x: string) returns (wisher: nat, wish: ChannelConfig)
    requires ValidLanes(lanes)
    ensures WishOk(lanes, x, wisher, wish)
  {
    wisher, wish := |lanes|, ChannelConfig("", false, "");
    if i, c :| 0 <= i < |lanes| && Wants(lanes[i], x, c) {
      wisher, wish := i, c;
      assert Has(lanes[i], c);
    }
    forall i, c | 0 <= i < |lanes| && c in lanes[i].channels && c.enabled && c.id == x ensures i == wisher && c == wish {
      assert Has(lanes[i], c) && Wants(lanes[i], x, c);
    }
    if wisher < |lanes| {
      forall other | other in lanes[wisher].channels && other.id == x ensures other == wish {
        assert Has(lanes[wisher], other) && Has(lanes[wisher], wish);
      }
    }
  }

  lemma HolderFor(t: Daemon, lanes: seq<LaneConfig>, x: string) returns (holder: Option<Supervisor>, place: nat)
    requires ChannelsMatch(t) && Fits(t, lanes)
    ensures holder == if x in t.channels then Some(t.channels[x]) else None
    ensures holder.None? ==> place == |lanes|
    ensures holder.Some? ==> place < |lanes| && lanes[place].id == holder.value.lane
    ensures holder.Some? ==> holder.value.lane in t.controllers && holder.value.channel.id == x && holder.value.born < t.clock
  {
    holder, place := None, |lanes|;
    if x in t.channels {
      holder := Some(t.channels[x]);
      assert IsLane(lanes, t.channels[x].lane);
      place :| 0 <= place < |lanes| && lanes[place].id == t.channels[x].lane;
    }
  }

  /** The case of one id, read off the torn-down daemon. */
  ghost predicate CaseOf(k: Case, t: Daemon, lanes: seq<LaneConfig>, x: string) {
    && k.lanes == lanes && k.kept == t.controllers.Keys && k.clock == t.clock && k.x == x
    && k.strays == StraysFor(t, x)
    && k.holder == (if x in t.channels then Some(t.channels[x]) else None)
    && (k.wisher < |lanes| ==> Wants(lanes[k.wisher], x, k.wish))
    && (forall i, c :: 0 <= i < |lanes| && Wants(lanes[i], x, c) ==> i == k.wisher && c == k.wish)
  }

  lemma CaseMade(t: Daemon, lanes: seq<LaneConfig>, x: string, wisher: nat, wish: ChannelConfig) returns (k: Case)
    requires ChannelsMatch(t) && Fits(t, lanes) && OrderedLanes(lanes) && WishOk(lanes, x, wisher, wish)
    ensures CaseOk(k) && CaseOf(k, t, lanes, x)
  {
    var holder, place := HolderFor(t, lanes, x);
    k := Case(lanes, t.controllers.Keys, x, wisher, wish, holder, place, StraysFor(t, x), t.clock);
    LiveIsHeldOrStray(t, x);
  }

  lemma CaseFor(t: Daemon, lanes: seq<LaneConfig>, x: string) returns (k: Case)
    requires ChannelsMatch(t) && Fits(t, lanes) && ValidLanes(lanes)
    ensures CaseOk(k) && CaseOf(k, t, lanes, x)
  {
    var wisher, wish := WisherFor(lanes, x);
    k := CaseMade(t, lanes, x, wisher, wish);
  }

  lemma CaseStarts(k: Case, t: Daemon, lanes: seq<LaneConfig>, x: string)
    requires ChannelsMatch(t) && CaseOk(k) && CaseOf(k, t, lanes, x)
    ensures SlotAt(k, 0, SlotOf(t, x))
  {
    LiveIsHeldOrStray(t, x);
  }

  // ---- the theorem ----

  lemma ReloadedIsAfter(d: Daemon, next: Config)
    ensures Reloaded(d, next) == After(TornDown(d, next), Enabled(next.lanes), |Enabled(next.lanes)|)
  {
    assert Enabled(next.lanes)[..|Enabled(next.lanes)|] == Enabled(next.lanes);
  }

  lemma DaemonAfterReload(d: Daemon, next: Config)
    requires Sound(d) && ValidConfig(next)
    ensures Sound(Reloaded(d, next)) && Progress(TornDown(d, next), Enabled(next.lanes), |Enabled(next.lanes)|, Reloaded(d, next))
    ensures Reloaded(d, next) == After(TornDown(d, next), Enabled(next.lanes), |Enabled(next.lanes)|)
  {
    var t, lanes := TornDown(d, next), Enabled(next.lanes);
    TornDownLanes(d, next);
    TornDownChannels(d, next);
    ValidEnabled(next);
    assert lanes[..|lanes|] == lanes;
    ReconcileSome(t, lanes, |lanes|);
  }

  /** Lanes, Hub connections and workers always come out as a cold start makes them. */
  lemma LanesComeOutRight(d: Daemon, next: Config)
    requires Sound(d) && ValidConfig(next)
    ensures var v := ViewOf(Reloaded(d, next));
      v.hub == next.hub && NothingElse(v, next.hub, Enabled(next.lanes))
      && forall lane :: lane in Enabled(next.lanes) ==> LaneStarted(v, next.hub, lane)
  {
    DaemonAfterReload(d, next);
    var r, lanes := Reloaded(d, next), Enabled(next.lanes);
    forall lane | lane in lanes ensures LaneStarted(ViewOf(r), next.hub, lane) {
      var k :| 0 <= k < |lanes| && lanes[k] == lane;
      assert LaneAt(TornDown(d, next), r, lanes[k], true);
      assert LaneMatches(r, lane.id);
    }
    forall id ensures id in r.controllers || id in r.servers || id in r.workers || id in r.claudes || id in r.connections
      ==> IsLane(lanes, id) && (id in r.connections ==> next.hub.Some?)
    {
      assert LaneMatches(r, id);
    }
  }

  /** One id is driven as the lanes wish, and nothing else runs for it. */
  ghost predicate SlotRight(r: Daemon, lanes: seq<LaneConfig>, x: string) {
    var slot := SlotOf(r, x);
    && (forall i, c :: 0 <= i < |lanes| && Wants(lanes[i], x, c) ==>
          slot.entry.Some? && slot.entry.value.lane == lanes[i].id && slot.entry.value.channel == c)
    && (slot.entry.Some? ==> exists i, c :: 0 <= i < |lanes| && Wants(lanes[i], x, c))
    && slot.live == (if slot.entry.Some? then {slot.entry.value} else {})
  }

  lemma RightIsRightAtEnd(r: Daemon, k: Case, t: Daemon, lanes: seq<LaneConfig>, x: string)
    requires CaseOk(k) && CaseOf(k, t, lanes, x)
    ensures SlotRight(r, lanes, x) <==> RightAtEnd(k, SlotOf(r, x))
  {
    if k.wisher < |lanes| { assert Wants(lanes[k.wisher], x, k.wish); }
  }

  lemma SlotAtEnd(k: Case, t: Daemon)
    requires Sound(t) && Fits(t, k.lanes) && OrderedLanes(k.lanes) && CaseOk(k) && CaseOf(k, t, k.lanes, k.x)
    ensures SlotAt(k, |k.lanes|, SlotOf(After(t, k.lanes, |k.lanes|), k.x))
  {
    CaseStarts(k, t, k.lanes, k.x);
    SlotSome(k, t, |k.lanes|);
  }

  lemma CaseOutcome(k: Case, t: Daemon)
    requires Sound(t) && Fits(t, k.lanes) && OrderedLanes(k.lanes) && CaseOk(k) && CaseOf(k, t, k.lanes, k.x)
    ensures RightAtEnd(k, SlotOf(After(t, k.lanes, |k.lanes|), k.x)) <==> !Moves(k) && k.strays == {}
  {
    SlotAtEnd(k, t);
    EndIsRight(k, SlotOf(After(t, k.lanes, |k.lanes|), k.x));
  }

  /** Which lanes a reload keeps, by their settings. */
  lemma LaneSurvivesIff(d: Daemon, next: Config, lane: LaneConfig)
    requires ValidConfig(next) && lane in Enabled(next.lanes) && lane.id in d.controllers
    ensures Survives(d, next, lane.id) <==> d.hub == next.hub && lane.core == d.controllers[lane.id].config.core
  {
    EnabledLanes(next.lanes);
    if other :| other in next.lanes && other.enabled && other.id == lane.id { SameLane(next.lanes, lane, other); }
  }

  /** Which lanes and drivers the teardown leaves. */
  ghost predicate IsTornDown(d: Daemon, next: Config, t: Daemon)
    requires ChannelsMatch(d)
  {
    && (forall id :: id in t.controllers <==> id in d.controllers && Survives(d, next, id))
    && (forall x :: x in t.channels <==> x in d.channels && Survives(d, next, d.channels[x].lane))
    && (forall x :: x in t.channels ==> t.channels[x] == d.channels[x])
  }

  lemma MovesIsMovesAt(d: Daemon, next: Config, t: Daemon, k: Case)
    requires ChannelsMatch(d) && IsTornDown(d, next, t) && CaseOk(k) && CaseOf(k, t, k.lanes, k.x) && k.lanes == Enabled(next.lanes)
    requires forall lane :: lane in k.lanes && lane.id in d.controllers ==>
      (Survives(d, next, lane.id) <==> d.hub == next.hub && d.controllers[lane.id].config.core == lane.core)
    ensures Moves(k) ==> MovesAt(d, next, k.x)
  {
    if Moves(k) {
      var j := k.place;
      assert k.lanes[j] in k.lanes && k.holder == Some(d.channels[k.x]);
      assert Wants(k.lanes[k.wisher], k.x, k.wish) && Survives(d, next, k.lanes[j].id);
    }
  }

  lemma MovesAtIsMoves(d: Daemon, next: Config, t: Daemon, k: Case)
    requires ChannelsMatch(d) && IsTornDown(d, next, t) && CaseOk(k) && CaseOf(k, t, k.lanes, k.x) && k.lanes == Enabled(next.lanes)
    requires forall lane :: lane in k.lanes && lane.id in d.controllers ==>
      (Survives(d, next, lane.id) <==> d.hub == next.hub && d.controllers[lane.id].config.core == lane.core)
    ensures MovesAt(d, next, k.x) ==> Moves(k)
  {
    if MovesAt(d, next, k.x) {
      var i, j, c :| 0 <= i < j < |k.lanes| && Wants(k.lanes[i], k.x, c)
        && d.hub == next.hub && k.lanes[j].id in d.controllers && d.controllers[k.lanes[j].id].config.core == k.lanes[j].core
        && k.x in d.channels && d.channels[k.x].lane == k.lanes[j].id;
      assert k.lanes[j] in k.lanes && Survives(d, next, k.lanes[j].id);
      assert k.holder.Some? && k.place == j;
    }
  }

  lemma SlotOutcome(t: Daemon, lanes: seq<LaneConfig>, x: string) returns (k: Case)
    requires Sound(t) && Fits(t, lanes) && ValidLanes(lanes)
    ensures CaseOk(k) && CaseOf(k, t, lanes, x)
    ensures SlotRight(After(t, lanes, |lanes|), lanes, x) <==> !Moves(k) && StraysFor(t, x) == {}
  {
    k := CaseFor(t, lanes, x);
    CaseOutcome(k, t);
    RightIsRightAtEnd(After(t, lanes, |lanes|), k, t, lanes, x);
  }

  /** One id comes out right exactly when it does not move and had no stray driver. */
  lemma ChannelComesOutRight(d: Daemon, next: Config, x: string)
    requires Sound(d) && ValidConfig(next)
    ensures SlotRight(Reloaded(d, next), Enabled(next.lanes), x) <==> !MovesAt(d, next, x) && StraysFor(d, x) == {}
  {
    TornDownLanes(d, next);
    TornDownChannels(d, next);
    ValidEnabled(next);
    DaemonAfterReload(d, next);
    var k := SlotOutcome(TornDown(d, next), Enabled(next.lanes), x);
    forall lane | lane in Enabled(next.lanes) && lane.id in d.controllers
      ensures Survives(d, next, lane.id) <==> d.hub == next.hub && d.controllers[lane.id].config.core == lane.core
    {
      LaneSurvivesIff(d, next, lane);
    }
    MovesIsMovesAt(d, next, TornDown(d, next), k);
    MovesAtIsMoves(d, next, TornDown(d, next), k);
  }

  lemma RightSlotsAreStarted(r: Daemon, lanes: seq<LaneConfig>)
    requires ChannelsMatch(r) && forall x :: SlotRight(r, lanes, x)
    ensures ChannelsStarted(ViewOf(r), lanes)
  {
    forall lane, x, c | lane in lanes && Wants(lane, x, c) ensures x in r.channels && r.channels[x].lane == lane.id && r.channels[x].channel == c {
      var i :| 0 <= i < |lanes| && lanes[i] == lane;
      assert SlotRight(r, lanes, x);
    }
    forall x | x in r.channels ensures exists lane :: lane in lanes && WantsSome(lane, x) {
      assert SlotRight(r, lanes, x);
      var i, c :| 0 <= i < |lanes| && Wants(lanes[i], x, c);
      assert WantsSome(lanes[i], x);
    }
    forall s | s in r.running ensures s in r.channels.Values {
      assert SlotRight(r, lanes, s.channel.id);
      assert s in SlotOf(r, s.channel.id).live;
    }
  }

  lemma StartedSlotsAreRight(r: Daemon, lanes: seq<LaneConfig>, x: string)
    requires ChannelsMatch(r) && ChannelsStarted(ViewOf(r), lanes)
    ensures SlotRight(r, lanes, x)
  {
    LiveIsHeldOrStray(r, x);
    assert Strays(r) == {};
    forall i, c | 0 <= i < |lanes| && Wants(lanes[i], x, c) ensures x in r.channels && r.channels[x].lane == lanes[i].id && r.channels[x].channel == c {
      assert lanes[i] in lanes;
      assert ViewOf(r).channels[x] == (lanes[i].id, c);
    }
    if x in r.channels {
      assert x in ViewOf(r).channels;
      var lane :| lane in lanes && WantsSome(lane, x);
      var c :| Wants(lane, x, c);
      var i :| 0 <= i < |lanes| && lanes[i] == lane;
    }
  }

  /** The condition of a faithful reload: no driver runs unheld, and no driven channel
      moves from a surviving lane to a lane listed before it. */
  ghost predicate ReloadIsSafe(d: Daemon, next: Config) {
    Strays(d) == {} && forall x :: !MovesAt(d, next, x)
  }

  /** Hot reload equals cold start, exactly under that condition. */
  lemma ReloadIsColdStart(d: Daemon, next: Config)
    requires Sound(d) && ValidConfig(next)
    ensures IsColdStart(ViewOf(Reloaded(d, next)), next) <==> ReloadIsSafe(d, next)
  {
    LanesComeOutRight(d, next);
    DaemonAfterReload(d, next);
    var r, lanes := Reloaded(d, next), Enabled(next.lanes);
    forall x ensures SlotRight(r, lanes, x) <==> !MovesAt(d, next, x) && StraysFor(d, x) == {} {
      ChannelComesOutRight(d, next, x);
    }
    assert Strays(d) == {} <==> forall x :: StraysFor(d, x) == {} by {
      assert forall s :: s in Strays(d) ==> s in StraysFor(d, s.channel.id);
    }
    if ReloadIsSafe(d, next) { RightSlotsAreStarted(r, lanes); }
    if IsColdStart(ViewOf(r), next) {
      forall x ensures SlotRight(r, lanes, x) { StartedSlotsAreRight(r, lanes, x); }
    }
  }

  /** A configuration that moves no driven channel to another lane reloads faithfully. */
  lemma KeepingChannelsInTheirLanes(d: Daemon, next: Config)
    requires Sound(d) && ValidConfig(next) && Strays(d) == {}
    requires forall lane, x, c :: lane in next.lanes && Wants(lane, x, c) && x in d.channels ==> d.channels[x].lane == lane.id
    ensures IsColdStart(ViewOf(Reloaded(d, next)), next)
  {
    var lanes := Enabled(next.lanes);
    EnabledLanes(next.lanes);
    forall x ensures !MovesAt(d, next, x) {
      forall i, j, c | 0 <= i < j < |lanes| && Wants(lanes[i], x, c) && x in d.channels ensures d.channels[x].lane != lanes[j].id {
        assert lanes[i] in next.lanes;
        EnabledDistinct(next, i, j);
      }
    }
    ReloadIsColdStart(d, next);
  }

  lemma EnabledDistinct(config: Config, i: nat, j: nat)
    requires ValidConfig(config) && i < j < |Enabled(config.lanes)|
    ensures Enabled(config.lanes)[i].id != Enabled(config.lanes)[j].id
  {
    ValidEnabled(config);
  }

  // ---- what a reload leaves alone ----

  /** The objects of these lanes are the ones that were there before. */
  ghost predicate Untouched(t: Daemon, d: Daemon) {
    forall id :: id in t.controllers ==> SameObjects(t, d, id)
  }

  ghost predicate SameObjects(t: Daemon, d: Daemon, id: string)
    requires id in t.controllers
  {
    && id in d.controllers && d.controllers[id].born == t.controllers[id].born
    && (id in t.servers ==> id in d.servers && d.servers[id] == t.servers[id])
    && (id in t.connections ==> id in d.connections && d.connections[id] == t.connections[id])
    && (id in t.workers ==> id in d.workers && d.workers[id] == t.workers[id])
    && (id in t.claudes ==> id in d.claudes && d.claudes[id] == t.claudes[id])
  }

  lemma ReconcileUntouched(t: Daemon, d: Daemon, lane: LaneConfig)
    requires Untouched(t, d)
    ensures Untouched(t, Reconcile(d, lane))
  {
    if lane.id in d.controllers {
      StartMissingSlot(Updated(d, lane), lane.id, lane.channels, "");
    } else {
      StartChannelsSlot(Made(d, lane), lane.id, lane.channels, "");
    }
    forall id | id in t.controllers ensures SameObjects(t, Reconcile(d, lane), id) {
      assert SameObjects(t, d, id);
    }
  }

  lemma {:induction false} ReconcileAllUntouched(t: Daemon, lanes: seq<LaneConfig>)
    ensures Untouched(t, ReconcileAll(t, lanes))
  {
    if lanes != [] {
      ReconcileAllUntouched(t, lanes[..|lanes| - 1]);
      ReconcileUntouched(t, ReconcileAll(t, lanes[..|lanes| - 1]), lanes[|lanes| - 1]);
    }
  }

  /** A lane whose own settings and Hub settings are unchanged keeps every object it had,
      whatever becomes of its channels. */
  lemma SurvivingLaneIsUntouched(d: Daemon, next: Config, lane: LaneConfig)
    requires Sound(d) && ValidConfig(next) && lane in next.lanes && lane.enabled && lane.id in d.controllers
    requires d.hub == next.hub && lane.core == d.controllers[lane.id].config.core
    ensures SameObjects(d, Reloaded(d, next), lane.id)
  {
    var t := TornDown(d, next);
    EnabledLanes(next.lanes);
    LaneSurvivesIff(d, next, lane);
    TornDownLanes(d, next);
    ReconcileAllUntouched(t, Enabled(next.lanes));
    assert SameObjects(t, Reloaded(d, next), lane.id);
  }

  /** Nothing of the lane is older than `since`, drivers that ran unheld before aside. */
  ghost predicate OnlySince(d: Daemon, id: string, unheld: set<Supervisor>, since: nat) {
    && (id in d.controllers ==> d.controllers[id].born >= since)
    && (id in d.servers ==> d.servers[id] >= since)
    && (id in d.connections ==> d.connections[id].born >= since)
    && (id in d.workers ==> d.workers[id].born >= since)
    && (id in d.claudes ==> d.claudes[id].born >= since)
    && (forall x :: x in d.channels && d.channels[x].lane == id ==> d.channels[x].born >= since)
    && (forall s :: s in d.running && s.lane == id && s !in unheld ==> s.born >= since)
    && d.clock >= since
  }

  lemma {:induction false} StartChannelsSince(d: Daemon, lane: string, channels: seq<ChannelConfig>, id: string, unheld: set<Supervisor>, since: nat)
    requires OnlySince(d, id, unheld, since)
    ensures OnlySince(StartChannels(d, lane, channels), id, unheld, since)
  {
    if channels != [] { StartChannelsSince(d, lane, channels[..|channels| - 1], id, unheld, since); }
  }

  lemma {:induction false} StartMissingSince(d: Daemon, lane: string, channels: seq<ChannelConfig>, id: string, unheld: set<Supervisor>, since: nat)
    requires OnlySince(d, id, unheld, since)
    ensures OnlySince(StartMissing(d, lane, channels), id, unheld, since)
  {
    if channels != [] { StartMissingSince(d, lane, channels[..|channels| - 1], id, unheld, since); }
  }

  lemma ReconcileSince(d: Daemon, lane: LaneConfig, id: string, unheld: set<Supervisor>, since: nat)
    requires OnlySince(d, id, unheld, since)
    ensures OnlySince(Reconcile(d, lane), id, unheld, since)
  {
    if lane.id in d.controllers {
      StartMissingSince(Updated(d, lane), lane.id, lane.channels, id, unheld, since);
    } else {
      StartChannelsSince(Made(d, lane), lane.id, lane.channels, id, unheld, since);
    }
  }

  lemma {:induction false} ReconcileAllSince(d: Daemon, lanes: seq<LaneConfig>, id: string, unheld: set<Supervisor>, since: nat)
    requires OnlySince(d, id, unheld, since)
    ensures OnlySince(ReconcileAll(d, lanes), id, unheld, since)
  {
    if lanes != [] {
      ReconcileAllSince(d, lanes[..|lanes| - 1], id, unheld, since);
      ReconcileSince(ReconcileAll(d, lanes[..|lanes| - 1]), lanes[|lanes| - 1], id, unheld, since);
    }
  }

  /** … and of every other lane nothing is left that was there before: what it has was made
      by this reload. */
  lemma OtherLanesAreMadeAnew(d: Daemon, next: Config, id: string)
    requires Sound(d) && ValidConfig(next)
    requires id in d.controllers && d.hub == next.hub ==>
      forall lane :: lane in next.lanes && lane.enabled && lane.id == id ==> lane.core != d.controllers[id].config.core
    ensures OnlySince(Reloaded(d, next), id, Strays(d), d.clock)
  {
    TornDownLanes(d, next);
    TornDownChannels(d, next);
    var t := TornDown(d, next);
    assert LaneMatches(t, id);
    assert id !in t.controllers;
    ReconcileAllSince(t, Enabled(next.lanes), id, Strays(d), d.clock);
  }

  lemma UnchangedDriverStays(d: Daemon, next: Config, lanes: seq<LaneConfig>, i: nat, x: string)
    requires Sound(d) && ValidConfig(next) && lanes == Enabled(next.lanes) && i < |lanes|
    requires x in d.channels && d.channels[x].lane == lanes[i].id && Survives(d, next, lanes[i].id)
    requires Wants(lanes[i], x, d.channels[x].channel)
    ensures SlotOf(Reloaded(d, next), x).entry == Some(d.channels[x]) && d.channels[x] in SlotOf(Reloaded(d, next), x).live
  {
    TornDownKeeps(d, next, x);
    ValidEnabled(next);
    ReloadedIsAfter(d, next);
    DriverStays(TornDown(d, next), lanes, i, x);
  }

  /** A driver that a lane with unchanged settings still wants as it is keeps running. */
  lemma UnchangedDriverIsUntouched(d: Daemon, next: Config, lane: LaneConfig, x: string)
    requires Sound(d) && ValidConfig(next) && x in d.channels && d.channels[x].lane == lane.id
    requires lane in next.lanes && lane.enabled && Wants(lane, x, d.channels[x].channel)
    requires d.hub == next.hub && lane.core == d.controllers[lane.id].config.core
    ensures x in Reloaded(d, next).channels && Reloaded(d, next).channels[x] == d.channels[x]
    ensures d.channels[x] in Reloaded(d, next).running
  {
    var lanes := Enabled(next.lanes);
    EnabledLanes(next.lanes);
    LaneSurvivesIff(d, next, lane);
    var i :| 0 <= i < |lanes| && lanes[i] == lane;
    UnchangedDriverStays(d, next, lanes, i, x);
  }

  /** What a reload leaves alone, for all lanes and drivers at once. */
  lemma ReloadKeeps(d: Daemon, next: Config)
    requires Sound(d) && ValidConfig(next) && d.hub == next.hub
    ensures forall lane :: lane in next.lanes && lane.enabled && lane.id in d.controllers && lane.core == d.controllers[lane.id].config.core ==>
      SameObjects(d, Reloaded(d, next), lane.id) && SameDrivers(d, Reloaded(d, next), lane)
  {
    forall lane | lane in next.lanes && lane.enabled && lane.id in d.controllers && lane.core == d.controllers[lane.id].config.core
      ensures SameObjects(d, Reloaded(d, next), lane.id) && SameDrivers(d, Reloaded(d, next), lane)
    {
      SurvivingLaneIsUntouched(d, next, lane);
      forall x | x in d.channels && d.channels[x].lane == lane.id && Wants(lane, x, d.channels[x].channel)
        ensures x in Reloaded(d, next).channels && Reloaded(d, next).channels[x] == d.channels[x]
        ensures d.channels[x] in Reloaded(d, next).running
      {
        UnchangedDriverIsUntouched(d, next, lane, x);
      }
    }
  }

  /** The lane's drivers that it still wants as they are stay and run. */
  ghost predicate SameDrivers(d: Daemon, r: Daemon, lane: LaneConfig) {
    forall x :: x in d.channels && d.channels[x].lane == lane.id && Wants(lane, x, d.channels[x].channel) ==>
      x in r.channels && r.channels[x] == d.channels[x] && d.channels[x] in r.running
  }

  lemma TornDownKeeps(d: Daemon, next: Config, x: string)
    requires Sound(d) && ValidConfig(next) && x in d.channels && Survives(d, next, d.channels[x].lane)
    ensures Sound(TornDown(d, next)) && Fits(TornDown(d, next), Enabled(next.lanes))
    ensures x in TornDown(d, next).channels && TornDown(d, next).channels[x] == d.channels[x]
  {
    TornDownLanes(d, next);
    TornDownChannels(d, next);
  }

  lemma DriverStays(t: Daemon, lanes: seq<LaneConfig>, i: nat, x: string)
    requires Sound(t) && Fits(t, lanes) && ValidLanes(lanes) && i < |lanes|
    requires x in t.channels && t.channels[x].lane == lanes[i].id && Wants(lanes[i], x, t.channels[x].channel)
    ensures SlotOf(After(t, lanes, |lanes|), x).entry == Some(t.channels[x])
    ensures t.channels[x] in SlotOf(After(t, lanes, |lanes|), x).live
  {
    var k := CaseFor(t, lanes, x);
    UnchangedCase(k, t, lanes, i, x);
    SlotAtEnd(k, t);
    UnchangedStays(k, SlotOf(After(t, lanes, |lanes|), x));
  }

  lemma UnchangedStays(k: Case, slot: Slot)
    requires CaseOk(k) && SlotAt(k, |k.lanes|, slot) && Unchanged(k) && !Moves(k)
    ensures slot.entry == k.holder && k.holder.value in slot.live
  {
  }

  lemma UnchangedCase(k: Case, t: Daemon, lanes: seq<LaneConfig>, i: nat, x: string)
    requires CaseOk(k) && CaseOf(k, t, lanes, x) && i < |lanes|
    requires x in t.channels && t.channels[x].lane == lanes[i].id && Wants(lanes[i], x, t.channels[x].channel)
    ensures k.holder == Some(t.channels[x]) && Unchanged(k) && !Moves(k)
  {
  }

  // ---- a repeated reload ----

  lemma {:induction false} NothingMissing(d: Daemon, lane: string, channels: seq<ChannelConfig>)
    requires forall c :: c in channels && c.enabled ==> c.id in d.channels
    ensures StartMissing(d, lane, channels) == d
  {
    if channels != [] { NothingMissing(d, lane, channels[..|channels| - 1]); }
  }

  /** The lane is configured and driven as it should be. */
  ghost predicate LaneSettled(d: Daemon, lane: LaneConfig) {
    && lane.id in d.controllers && d.controllers[lane.id].config == lane
    && (forall c :: c in lane.channels && c.enabled ==> c.id in d.channels)
    && (forall x :: x in d.channels && d.channels[x].lane == lane.id ==> Wants(lane, x, d.channels[x].channel))
  }

  lemma SyncIsIdle(d: Daemon, lane: LaneConfig)
    requires LaneSettled(d, lane)
    ensures SyncLane(d, lane) == d.(clock := d.clock + 1)
  {
    assert Stale(d, lane) == {};
    var u := Updated(d, lane);
    assert u.controllers == d.controllers;
    assert u.channels == d.channels;
    assert u.running == d.running;
    assert u == d;
    NothingMissing(d, lane.id, lane.channels);
  }

  lemma LaneIsConfigured(d: Daemon, config: Config, lane: LaneConfig)
    requires IsColdStart(ViewOf(d), config) && lane in Enabled(config.lanes)
    ensures lane.id in d.controllers && d.controllers[lane.id].config == lane
  {
    assert LaneStarted(ViewOf(d), config.hub, lane);
  }

  lemma LaneIsSettled(d: Daemon, lanes: seq<LaneConfig>, i: nat)
    requires ValidLanes(lanes) && i < |lanes| && Keyed(d) && forall x :: SlotRight(d, lanes, x)
    requires lanes[i].id in d.controllers && d.controllers[lanes[i].id].config == lanes[i]
    ensures LaneSettled(d, lanes[i])
  {
    var lane := lanes[i];
    forall c | c in lane.channels && c.enabled ensures c.id in d.channels {
      assert SlotRight(d, lanes, c.id) && Wants(lane, c.id, c);
    }
    forall x | x in d.channels && d.channels[x].lane == lane.id ensures Wants(lane, x, d.channels[x].channel) {
      assert SlotRight(d, lanes, x);
      var j, c :| 0 <= j < |lanes| && Wants(lanes[j], x, c);
      assert lanes[j].id == lane.id;
      assert j == i;
    }
  }

  lemma ReconcileIsIdle(d: Daemon, later: Daemon, lane: LaneConfig)
    requires LaneSettled(d, lane) && later == d.(clock := later.clock)
    ensures Reconcile(later, lane) == later.(clock := later.clock + 1)
  {
    SyncIsIdle(later, lane);
  }

  lemma {:induction false} AllLanesIdle(d: Daemon, lanes: seq<LaneConfig>, i: nat)
    requires i <= |lanes| && forall k :: 0 <= k < |lanes| ==> LaneSettled(d, lanes[k])
    ensures After(d, lanes, i) == d.(clock := d.clock + i)
    decreases i
  {
    if i > 0 {
      AllLanesIdle(d, lanes, i - 1);
      AfterNext(d, lanes, i - 1);
      var before := d.(clock := d.clock + i - 1);
      assert LaneSettled(d, lanes[i - 1]);
      ReconcileIsIdle(d, before, lanes[i - 1]);
    } else {
      assert lanes[..0] == [];
    }
  }

  lemma NothingDropped(d: Daemon, config: Config)
    requires ValidConfig(config) && IsColdStart(ViewOf(d), config)
    ensures TornDown(d, config) == d
  {
    var lanes := Enabled(config.lanes);
    EnabledLanes(config.lanes);
    forall id | id in d.controllers ensures Survives(d, config, id) {
      assert id in ViewOf(d).controllers && IsLane(lanes, id);
      var i :| 0 <= i < |lanes| && lanes[i].id == id;
      assert lanes[i] in lanes;
      LaneIsConfigured(d, config, lanes[i]);
    }
    TearDownNothing(d);
    assert Dropped(d, config) == {};
  }

  lemma TearDownNothing(d: Daemon)
    ensures TearDown(d, {}) == d
  {
    var t := TearDown(d, {});
    assert t.channels == d.channels && t.running == d.running;
    assert t.controllers == d.controllers && t.connections == d.connections && t.servers == d.servers;
    assert t.workers == d.workers && t.claudes == d.claudes;
  }

  /** A daemon that already is what a cold start makes is left as it is, birth dates and all. */
  lemma ReloadOfColdStartIsIdle(d: Daemon, config: Config)
    requires Sound(d) && ValidConfig(config) && IsColdStart(ViewOf(d), config)
    ensures Reloaded(d, config) == d.(clock := Reloaded(d, config).clock)
  {
    var lanes := Enabled(config.lanes);
    ValidEnabled(config);
    NothingDropped(d, config);
    forall x ensures SlotRight(d, lanes, x) { StartedSlotsAreRight(d, lanes, x); }
    forall i | 0 <= i < |lanes| ensures LaneSettled(d, lanes[i]) {
      LaneIsConfigured(d, config, lanes[i]);
      LaneIsSettled(d, lanes, i);
    }
    AllLanesIdle(d, lanes, |lanes|);
    assert lanes[..|lanes|] == lanes;
  }

  /** Reloading twice is reloading once. */
  lemma ReloadTwice(d: Daemon, next: Config)
    requires Sound(d) && ValidConfig(next) && ReloadIsSafe(d, next)
    ensures var r := Reloaded(d, next);
      Reloaded(r, next) == r.(clock := Reloaded(r, next).clock)
  {
    DaemonAfterReload(d, next);
    ReloadIsColdStart(d, next);
    ReloadOfColdStartIsIdle(Reloaded(d, next), next);
  }

  /** A first start is a reload of the empty daemon. */
  lemma StartIsColdStart(config: Config)
    requires ValidConfig(config)
    ensures Sound(Empty) && IsColdStart(ViewOf(Reloaded(Empty, config)), config)
  {
    forall id ensures LaneMatches(Empty, id) { }
    assert Strays(Empty) == {};
    ReloadIsColdStart(Empty, config);
  }
}
