/** The daemon object whose tables `start` and `reload` update entry by entry. Its methods
    are proved to compute the functions of `Reload`. A `Map` of the original is walked in
    any order where the order is the original's insertion order and does not matter. */
module AgentMeshDaemon {
  import opened Prelude
  import opened Reload
  import opened ReloadSlots
  import opened ReloadTheorem

  class AgentMeshDaemon {
    var hub: Option<string>
    var controllers: map<string, Controller>
    var connections: map<string, Connection>
    var servers: map<string, nat>
    var workers: map<string, Resident>
    var claudes: map<string, Resident>
    var channels: map<string, Supervisor>
    var running: set<Supervisor>
    var clock: nat

    constructor ()
      ensures State() == Empty
    {
      hub, controllers, connections, servers, workers, claudes := None, map[], map[], map[], map[], map[];
      channels, running, clock := map[], {}, 0;
    }

    function State(): Daemon
      reads this
    {
      Daemon(hub, controllers, connections, servers, workers, claudes, channels, running, clock)
    }

    method CreateController(lane: LaneConfig)
      modifies this`controllers, this`connections
      ensures controllers == old(controllers)[lane.id := Controller(clock, lane)]
      ensures connections == if hub.Some? then old(connections)[lane.id := Connection(clock, lane.core, hub.value)] else old(connections)
    {
      controllers := controllers[lane.id := Controller(clock, lane)];
      if hub.Some? {
        connections := connections[lane.id := Connection(clock, lane.core, hub.value)];
      }
    }

    method StartResident(lane: LaneConfig)
      modifies this`workers, this`claudes
      ensures workers == if lane.core.claude || lane.id in old(workers) then old(workers) else old(workers)[lane.id := Resident(clock, lane.core)]
      ensures claudes == if lane.core.claude then old(claudes)[lane.id := Resident(clock, lane.core)] else old(claudes)
    {
      if lane.id !in workers && !lane.core.claude {
        workers := workers[lane.id := Resident(clock, lane.core)];
      }
      if lane.core.claude {
        claudes := claudes[lane.id := Resident(clock, lane.core)];
      }
    }

    method StartChannelSupervisors(lane: LaneConfig)
      modifies this`channels, this`running
      ensures State() == StartChannels(old(State()), lane.id, lane.channels)
    {
      for i := 0 to |lane.channels|
        invariant State() == StartChannels(old(State()), lane.id, lane.channels[..i])
      {
        var c := lane.channels[i];
        assert lane.channels[..i + 1][..i] == lane.channels[..i];
        if c.enabled {
          var s := Supervisor(clock, lane.id, c);
          channels := channels[c.id := s];
          running := running + {s};
        }
      }
      assert lane.channels[..|lane.channels|] == lane.channels;
    }

    method StopSupervisor(x: string)
      requires x in channels && Keyed(State())
      modifies this`channels, this`running
      ensures State() == StopChannels(old(State()), {x}) && Keyed(State())
    {
      running := running - {channels[x]};
      channels := channels - {x};
      assert running == StopChannels(old(State()), {x}).running;
      assert channels == StopChannels(old(State()), {x}).channels;
    }

    method SyncChannelSupervisors(lane: LaneConfig)
      requires lane.id in controllers && Keyed(State())
      modifies this`controllers, this`channels, this`running
      ensures State() == SyncLane(old(State()), lane).(clock := clock)
    {
      var todo := channels.Keys;
      ghost var done: set<string> := {};
      ghost var stale := Stale(old(State()), lane);
      StopNothing(State());
      assert done * stale == {};
      while todo != {}
        invariant todo !! done && todo + done == old(channels).Keys
        invariant Keyed(State()) && State() == StopChannels(old(State()), done * stale)
        decreases todo
      {
        var x :| x in todo;
        StopOneMore(old(State()), done * stale, x);
        assert (done + {x}) * stale == done * stale + (if x in stale then {x} else {});
        var s := channels[x];
        if s.lane == lane.id && !(s.channel in lane.channels && s.channel.enabled && s.channel.id == x) {
          StopSupervisor(x);
        }
        todo, done := todo - {x}, done + {x};
      }
      assert done * stale == stale;
      controllers := controllers[lane.id := controllers[lane.id].(config := controllers[lane.id].config.(channels := lane.channels))];
      StartFreeChannels(lane);
    }

    method StartFreeChannels(lane: LaneConfig)
      modifies this`channels, this`running
      ensures State() == StartMissing(old(State()), lane.id, lane.channels)
    {
      for i := 0 to |lane.channels|
        invariant State() == StartMissing(old(State()), lane.id, lane.channels[..i])
      {
        var c := lane.channels[i];
        assert lane.channels[..i + 1][..i] == lane.channels[..i];
        if c.enabled && c.id !in channels {
          var s := Supervisor(clock, lane.id, c);
          channels := channels[c.id := s];
          running := running + {s};
        }
      }
      assert lane.channels[..|lane.channels|] == lane.channels;
    }

    /** Everything a lane has is stopped and forgotten. */
    method RemoveLane(id: string)
      requires Keyed(State())
      modifies this
      ensures State() == TearDown(old(State()), {id})
    {
      workers := workers - {id};
      claudes := claudes - {id};
      ghost var before := State();
      ghost var owned := Owned(before, id);
      var todo := channels.Keys;
      ghost var done: set<string> := {};
      StopNothing(before);
      assert done * owned == {};
      while todo != {}
        invariant todo !! done && todo + done == before.channels.Keys
        invariant Keyed(State()) && State() == StopChannels(before, done * owned)
        decreases todo
      {
        var x :| x in todo;
        StopOneMore(before, done * owned, x);
        assert (done + {x}) * owned == done * owned + (if x in owned then {x} else {});
        if channels[x].lane == id {
          StopSupervisor(x);
        }
        todo, done := todo - {x}, done + {x};
      }
      assert done * owned == owned;
      OwnedIsTornDown(before, id);
      servers := servers - {id};
      connections := connections - {id};
      controllers := controllers - {id};
    }

    /** Hot reload. Which drivers run afterwards is a cold start's choice exactly when
        the condition of `ReloadIsColdStart` holds. */
    method Reload(next: Config)
      requires Sound(State()) && ValidConfig(next)
      modifies this
      ensures State() == Reloaded(old(State()), next)
      ensures Sound(State())
      ensures IsColdStart(ViewOf(State()), next) <==> ReloadIsSafe(old(State()), next)
      ensures old(hub) == next.hub ==>
        forall lane :: lane in next.lanes && lane.enabled && lane.id in old(controllers) && lane.core == old(controllers)[lane.id].config.core ==>
          SameObjects(old(State()), State(), lane.id) && SameDrivers(old(State()), State(), lane)
    {
      ghost var was := State();
      DropLanes(next);
      hub := next.hub;
      ReadyToReconcile(was, next);
      ReconcileLanes(Enabled(next.lanes));
      ReloadedIsAfter(was, next);
      DaemonAfterReload(was, next);
      ReloadIsColdStart(was, next);
      if was.hub == next.hub { ReloadKeeps(was, next); }
    }

    method ReconcileLanes(lanes: seq<LaneConfig>)
      requires Sound(State()) && Fits(State(), lanes) && OrderedLanes(lanes)
      modifies this
      ensures State() == After(old(State()), lanes, |lanes|)
    {
      assert lanes[..0] == [];
      for i := 0 to |lanes|
        invariant State() == After(old(State()), lanes, i)
      {
        ReconcileSome(old(State()), lanes, i);
        AfterNext(old(State()), lanes, i);
        ReconcileOne(lanes[i]);
      }
    }

    method ReconcileOne(lane: LaneConfig)
      requires Keyed(State())
      modifies this
      ensures State() == Reconcile(old(State()), lane)
    {
      if lane.id !in controllers {
        ghost var made := Made(State(), lane);
        CreateController(lane);
        servers := servers[lane.id := clock];
        StartResident(lane);
        assert State() == made;
        StartChannelSupervisors(lane);
      } else {
        SyncChannelSupervisors(lane);
      }
      clock := clock + 1;
      Counted(old(State()), lane);
    }

    method DropLanes(next: Config)
      requires Keyed(State())
      modifies this
      ensures State() == TearDown(old(State()), Dropped(old(State()), next))
    {
      var todo := controllers.Keys;
      ghost var done: set<string> := {};
      ghost var dropped := Dropped(State(), next);
      TearDownNothing(State());
      assert done * dropped == {};
      while todo != {}
        invariant todo !! done && todo + done == old(controllers).Keys
        invariant Keyed(State()) && State() == TearDown(old(State()), done * dropped)
        decreases todo
      {
        var id :| id in todo;
        DropOneMore(old(State()), done, next, id);
        if !Survives(State(), next, id) {
          RemoveLane(id);
        }
        todo, done := todo - {id}, done + {id};
      }
      assert done * dropped == dropped;
    }

    /** A first start goes lane by lane three times: controllers, servers, then the rest. */
    method Start(config: Config)
      requires State() == Empty && ValidConfig(config)
      modifies this
      ensures IsColdStart(ViewOf(State()), config) && Sound(State())
    {
      hub := config.hub;
      ghost var empty := State();
      EmptyIsTornDown(empty, config);
      var lanes := Enabled(config.lanes);
      CreateAll(lanes, empty);
      ServeAll(lanes, empty);
      StartsCounted(empty, lanes, |lanes|);
      StartAll(lanes, empty);
      ReloadedIsAfter(Empty, config);
      StartIsColdStart(config);
      DaemonAfterReload(Empty, config);
    }

    method StartAll(lanes: seq<LaneConfig>, ghost empty: Daemon)
      requires StartingPoint(empty) && ValidLanes(lanes) && SameRest(State(), empty)
      requires LanesKept(After(empty, lanes, |lanes|), State())
      modifies this
      ensures State() == After(empty, lanes, |lanes|)
    {
      assert lanes[..0] == [];
      for i := 0 to |lanes|
        invariant SameRest(State(), After(empty, lanes, i))
        invariant LanesKept(old(State()), State())
      {
        RestFollows(empty, lanes, i, State().(clock := i));
        StartRest(lanes[i], i);
      }
      clock := |lanes|;
      StartsCounted(empty, lanes, |lanes|);
    }

    method StartRest(lane: LaneConfig, now: nat)
      modifies this`workers, this`claudes, this`channels, this`running, this`clock
      ensures State() == RestStarted(old(State()).(clock := now), lane)
    {
      clock := now;
      StartResident(lane);
      StartChannelSupervisors(lane);
    }

    method CreateAll(lanes: seq<LaneConfig>, ghost empty: Daemon)
      requires State() == empty && StartingPoint(empty) && ValidLanes(lanes)
      modifies this
      ensures State() == empty.(controllers := controllers, connections := connections, clock := clock)
      ensures controllers == After(empty, lanes, |lanes|).controllers && connections == After(empty, lanes, |lanes|).connections
    {
      assert lanes[..0] == [];
      for i := 0 to |lanes|
        invariant State() == empty.(controllers := controllers, connections := connections, clock := clock)
        invariant controllers == After(empty, lanes, i).controllers && connections == After(empty, lanes, i).connections
      {
        StartsFresh(empty, lanes, i);
        clock := i;
        CreateController(lanes[i]);
      }
    }

    method ServeAll(lanes: seq<LaneConfig>, ghost empty: Daemon)
      requires StartingPoint(empty) && ValidLanes(lanes) && servers == empty.servers
      modifies this`servers
      ensures servers == After(empty, lanes, |lanes|).servers
    {
      assert lanes[..0] == [];
      for i := 0 to |lanes|
        invariant servers == After(empty, lanes, i).servers
      {
        StartsFresh(empty, lanes, i);
        servers := servers[lanes[i].id := i];
      }
    }
  }

  function Owned(d: Daemon, id: string): set<string> { set x | x in d.channels && d.channels[x].lane == id }

  lemma StopNothing(d: Daemon)
    ensures StopChannels(d, {}) == d
  {
    assert StopChannels(d, {}).running == d.running;
    assert StopChannels(d, {}).channels == d.channels;
  }

  lemma StopOneMore(d: Daemon, ids: set<string>, x: string)
    requires Keyed(d)
    ensures StopChannels(StopChannels(d, ids), {x}) == StopChannels(d, ids + {x})
  {
    var a, b := StopChannels(StopChannels(d, ids), {x}), StopChannels(d, ids + {x});
    assert a.channels == b.channels;
    assert a.running == b.running;
  }

  lemma OwnedIsTornDown(d: Daemon, id: string)
    requires Keyed(d)
    ensures StopChannels(d, Owned(d, id)).channels == TearDown(d, {id}).channels
    ensures StopChannels(d, Owned(d, id)).running == TearDown(d, {id}).running
  {
    forall s | s in d.running && s in d.channels.Values ensures d.channels[s.channel.id] == s && s.channel.id in d.channels {
      var x :| x in d.channels && d.channels[x] == s;
    }
  }

  lemma TearDownOneMore(d: Daemon, drop: set<string>, id: string)
    requires Keyed(d)
    ensures TearDown(TearDown(d, drop), {id}) == TearDown(d, drop + {id})
    ensures Keyed(TearDown(d, drop + {id})) && Keyed(TearDown(d, drop))
  {
    var a, b := TearDown(TearDown(d, drop), {id}), TearDown(d, drop + {id});
    assert a.channels == b.channels;
    TearDownRunning(d, drop, id);
    assert a.controllers == b.controllers && a.connections == b.connections && a.servers == b.servers;
    assert a.workers == b.workers && a.claudes == b.claudes;
  }

  lemma TearDownRunning(d: Daemon, drop: set<string>, id: string)
    ensures TearDown(TearDown(d, drop), {id}).running == TearDown(d, drop + {id}).running
  {
    var once := TearDown(d, drop);
    forall s ensures s in once.channels.Values <==> s in d.channels.Values && s.lane !in drop {
      StillHeld(d, drop, s);
    }
    assert TearDown(once, {id}).running == TearDown(d, drop + {id}).running;
  }

  lemma StillHeld(d: Daemon, drop: set<string>, s: Supervisor)
    ensures s in TearDown(d, drop).channels.Values <==> s in d.channels.Values && s.lane !in drop
  {
    var once := TearDown(d, drop);
    if s in d.channels.Values && s.lane !in drop {
      var x :| x in d.channels && d.channels[x] == s;
      assert once.channels[x] == s;
    }
  }

  lemma StillSurvives(d: Daemon, drop: set<string>, next: Config, id: string)
    requires id in d.controllers && id !in drop
    ensures Survives(TearDown(d, drop), next, id) <==> Survives(d, next, id)
  {
    assert TearDown(d, drop).controllers[id] == d.controllers[id];
  }

  lemma DropOneMore(d: Daemon, done: set<string>, next: Config, id: string)
    requires Keyed(d) && id in d.controllers && id !in done
    ensures var now, after := TearDown(d, done * Dropped(d, next)), TearDown(d, (done + {id}) * Dropped(d, next));
      id in now.controllers && Keyed(after) && after == if Survives(now, next, id) then now else TearDown(now, {id})
  {
    var dropped := Dropped(d, next);
    StillSurvives(d, done * dropped, next, id);
    assert (done + {id}) * dropped == done * dropped + (if id in dropped then {id} else {});
    TearDownOneMore(d, done * dropped, id);
  }

  /** Only the end of a lane's turn moves the date. */
  lemma Counted(d: Daemon, lane: LaneConfig)
    ensures Reconcile(d, lane).clock == d.clock + 1
  {
  }

  lemma ReadyToReconcile(d: Daemon, next: Config)
    requires Sound(d) && ValidConfig(next)
    ensures Sound(TornDown(d, next)) && Fits(TornDown(d, next), Enabled(next.lanes)) && OrderedLanes(Enabled(next.lanes))
  {
    TornDownLanes(d, next);
    TornDownChannels(d, next);
    ValidEnabled(next);
  }

  // ---- the first start ----

  ghost predicate StartingPoint(d: Daemon) {
    d.controllers == map[] && d.servers == map[] && d.connections == map[] && d.workers == map[] && d.claudes == map[]
    && d.channels == map[] && d.running == {} && d.clock == 0
  }

  lemma EmptyIsTornDown(empty: Daemon, config: Config)
    requires empty == Empty.(hub := config.hub) && ValidConfig(config)
    ensures TornDown(Empty, config) == empty && StartingPoint(empty) && ValidLanes(Enabled(config.lanes))
    ensures After(empty, Enabled(config.lanes), 0) == empty
  {
    assert Dropped(Empty, config) == {};
    TearDownNothing(Empty);
    ValidEnabled(config);
    assert Enabled(config.lanes)[..0] == [];
  }

  /** From nothing, every lane is created, and the i-th lane's objects are born at i. */
  lemma StartsFresh(empty: Daemon, lanes: seq<LaneConfig>, i: nat)
    requires StartingPoint(empty) && ValidLanes(lanes) && i < |lanes|
    ensures After(empty, lanes, i).clock == i && After(empty, lanes, i).hub == empty.hub
    ensures After(empty, lanes, i + 1) == CreateLane(After(empty, lanes, i), lanes[i])
    ensures SameLanes(Made(After(empty, lanes, i), lanes[i]), CreateLane(After(empty, lanes, i), lanes[i]).(clock := i))
  {
    StartsCounted(empty, lanes, i);
    AfterNext(empty, lanes, i);
    assert LaneAt(empty, After(empty, lanes, i), lanes[i], false);
    StartChannelsSlot(Made(After(empty, lanes, i), lanes[i]), lanes[i].id, lanes[i].channels, "");
  }

  lemma StartsCounted(empty: Daemon, lanes: seq<LaneConfig>, i: nat)
    requires StartingPoint(empty) && ValidLanes(lanes) && i <= |lanes|
    ensures Progress(empty, lanes, i, After(empty, lanes, i)) && After(empty, lanes, i).clock == i
  {
    forall id ensures LaneMatches(empty, id) { }
    ReconcileSome(empty, lanes, i);
  }

  /** The last walk of `start` over one lane: its resident worker, then its channels. */
  ghost function RestStarted(d: Daemon, lane: LaneConfig): Daemon {
    StartChannels(
      d.(workers := if lane.core.claude || lane.id in d.workers then d.workers else d.workers[lane.id := Resident(d.clock, lane.core)],
         claudes := if lane.core.claude then d.claudes[lane.id := Resident(d.clock, lane.core)] else d.claudes),
      lane.id, lane.channels)
  }

  ghost predicate SameRest(a: Daemon, b: Daemon) {
    a.workers == b.workers && a.claudes == b.claudes && a.channels == b.channels && a.running == b.running
  }

  ghost predicate LanesKept(a: Daemon, b: Daemon) {
    a.hub == b.hub && a.controllers == b.controllers && a.connections == b.connections && a.servers == b.servers
  }

  lemma RestFollows(empty: Daemon, lanes: seq<LaneConfig>, i: nat, d: Daemon)
    requires StartingPoint(empty) && ValidLanes(lanes) && i < |lanes|
    requires SameRest(d, After(empty, lanes, i)) && d.clock == i
    ensures SameRest(RestStarted(d, lanes[i]), After(empty, lanes, i + 1)) && LanesKept(d, RestStarted(d, lanes[i]))
  {
    StartsFresh(empty, lanes, i);
    RestIsCreate(d, After(empty, lanes, i), lanes[i]);
  }

  lemma RestIsCreate(d: Daemon, was: Daemon, lane: LaneConfig)
    requires SameRest(d, was) && d.clock == was.clock
    ensures SameRest(RestStarted(d, lane), CreateLane(was, lane)) && LanesKept(d, RestStarted(d, lane))
  {
    var own := d.(workers := Made(was, lane).workers, claudes := Made(was, lane).claudes);
    StartsAlike(own, Made(was, lane), lane.id, lane.channels);
  }

  /** Starting channels looks at nothing but the supervisor table, what runs and the date. */
  lemma {:induction false} StartsAlike(a: Daemon, b: Daemon, lane: string, channels: seq<ChannelConfig>)
    requires a.channels == b.channels && a.running == b.running && a.clock == b.clock
    ensures StartChannels(a, lane, channels).channels == StartChannels(b, lane, channels).channels
    ensures StartChannels(a, lane, channels).running == StartChannels(b, lane, channels).running
    ensures SameLanes(a, StartChannels(a, lane, channels)) && SameLanes(b, StartChannels(b, lane, channels))
  {
    if channels != [] { StartsAlike(a, b, lane, channels[..|channels| - 1]); }
  }
}
