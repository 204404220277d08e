/** Hot reload as reconciliation: what the daemon holds for each lane and channel, how
    `reload` changes it, and when the outcome is what a cold start would build. */
module Reload {
  import opened Prelude

  /** Configurations are compared by their JSON text; `text` stands for the parts that
      are only compared. */
  datatype ChannelConfig = ChannelConfig(id: string, enabled: bool, text: string)
  datatype Core = Core(claude: bool, text: string)
  datatype LaneConfig = LaneConfig(id: string, enabled: bool, core: Core, channels: seq<ChannelConfig>)
  datatype Config = Config(hub: Option<string>, lanes: seq<LaneConfig>)

  /** Every object remembers when it was made: an object that is kept keeps its `born`. */
  datatype Controller = Controller(born: nat, config: LaneConfig)
  datatype Connection = Connection(born: nat, core: Core, hub: string)
  datatype Resident = Resident(born: nat, core: Core)
  datatype Supervisor = Supervisor(born: nat, lane: string, channel: ChannelConfig)

  /** `running` holds the channel supervisors started and not stopped since. */
  datatype Daemon = Daemon(
    hub: Option<string>, controllers: map<string, Controller>, connections: map<string, Connection>,
    servers: map<string, nat>, workers: map<string, Resident>, claudes: map<string, Resident>,
    channels: map<string, Supervisor>, running: set<Supervisor>, clock: nat)

  const Empty := Daemon(None, map[], map[], map[], map[], map[], map[], {}, 0)

  // ---- configurations ----

  predicate Has(lane: LaneConfig, c: ChannelConfig) { c in lane.channels }

  ghost predicate ValidConfig(config: Config) {
    && (forall i, j :: 0 <= i < j < |config.lanes| ==> config.lanes[i].id != config.lanes[j].id)
    && (forall a, b, c, d :: a in config.lanes && b in config.lanes && Has(a, c) && Has(b, d) && c.id == d.id
          ==> a == b && c == d)
    && (forall lane :: lane in config.lanes ==> NoDuplicates(lane.channels))
  }

  function Enabled(lanes: seq<LaneConfig>): seq<LaneConfig> {
    if lanes == [] then []
    else
      var rest := Enabled(lanes[..|lanes| - 1]);
      if lanes[|lanes| - 1].enabled then rest + [lanes[|lanes| - 1]] else rest
  }

  /** The channel a lane wants driven under an id, if any. */
  ghost predicate Wants(lane: LaneConfig, x: string, c: ChannelConfig) {
    Has(lane, c) && c.enabled && c.id == x
  }

  ghost predicate WantsSome(lane: LaneConfig, x: string) { exists c :: Wants(lane, x, c) }

  // ---- the steps of reload ----

  function TearDown(d: Daemon, drop: set<string>): Daemon {
    d.(controllers := d.controllers - drop, connections := d.connections - drop, servers := d.servers - drop,
       workers := d.workers - drop, claudes := d.claudes - drop,
       channels := map x | x in d.channels && d.channels[x].lane !in drop :: d.channels[x],
       running := set s | s in d.running && !(s in d.channels.Values && s.lane in drop))
  }

  /** `#startChannelSupervisors`: every enabled channel gets a new supervisor. */
  function StartChannels(d: Daemon, lane: string, channels: seq<ChannelConfig>): Daemon {
    if channels == [] then d
    else
      var n := |channels| - 1;
      var before := StartChannels(d, lane, channels[..n]);
      if channels[n].enabled then StartOne(before, lane, channels[n]) else before
  }

  function StartOne(d: Daemon, lane: string, c: ChannelConfig): Daemon {
    var s := Supervisor(d.clock, lane, c);
    d.(channels := d.channels[c.id := s], running := d.running + {s})
  }

  /** The second half of `#syncChannelSupervisors`: only ids that are free. */
  function StartMissing(d: Daemon, lane: string, channels: seq<ChannelConfig>): Daemon {
    if channels == [] then d
    else
      var n := |channels| - 1;
      var before := StartMissing(d, lane, channels[..n]);
      if channels[n].enabled && channels[n].id !in before.channels then StartOne(before, lane, channels[n]) else before
  }

  /** Supervisors of this lane that the new configuration no longer wants as they are. */
  function Stale(d: Daemon, lane: LaneConfig): set<string> {
    set x | x in d.channels && d.channels[x].lane == lane.id
            && !(d.channels[x].channel in lane.channels && d.channels[x].channel.enabled && d.channels[x].channel.id == x)
  }

  function StopChannels(d: Daemon, ids: set<string>): Daemon {
    d.(channels := d.channels - ids,
       running := set s | s in d.running && !(s.channel.id in ids && s.channel.id in d.channels && d.channels[s.channel.id] == s))
  }

  /** After the stopping loop: stale drivers are gone, the configuration is updated. */
  function Updated(d: Daemon, lane: LaneConfig): Daemon
    requires lane.id in d.controllers
  {
    var kept := d.controllers[lane.id];
    StopChannels(d, Stale(d, lane)).(controllers :=
      d.controllers[lane.id := kept.(config := kept.config.(channels := lane.channels))])
  }

  function SyncLane(d: Daemon, lane: LaneConfig): Daemon
    requires lane.id in d.controllers
  {
    StartMissing(Updated(d, lane), lane.id, lane.channels).(clock := d.clock + 1)
  }

  /** The objects a new lane gets before its channels are started. */
  function Made(d: Daemon, lane: LaneConfig): Daemon {
    d.(controllers := d.controllers[lane.id := Controller(d.clock, lane)],
       connections := if d.hub.Some? then d.connections[lane.id := Connection(d.clock, lane.core, d.hub.value)] else d.connections,
       servers := d.servers[lane.id := d.clock],
       workers := if lane.core.claude || lane.id in d.workers then d.workers else d.workers[lane.id := Resident(d.clock, lane.core)],
       claudes := if lane.core.claude then d.claudes[lane.id := Resident(d.clock, lane.core)] else d.claudes)
  }

  function CreateLane(d: Daemon, lane: LaneConfig): Daemon {
    StartChannels(Made(d, lane), lane.id, lane.channels).(clock := d.clock + 1)
  }

  function Reconcile(d: Daemon, lane: LaneConfig): Daemon {
    if lane.id in d.controllers then SyncLane(d, lane) else CreateLane(d, lane)
  }

  function ReconcileAll(d: Daemon, lanes: seq<LaneConfig>): Daemon {
    if lanes == [] then d
    else Reconcile(ReconcileAll(d, lanes[..|lanes| - 1]), lanes[|lanes| - 1])
  }

  /** A lane survives when the Hub settings and its own settings outside `channels` do. */
  predicate Survives(d: Daemon, next: Config, id: string)
    requires id in d.controllers
  {
    d.hub == next.hub &&
    exists lane :: lane in next.lanes && lane.enabled && lane.id == id && lane.core == d.controllers[id].config.core
  }

  function Dropped(d: Daemon, next: Config): set<string> {
    set id | id in d.controllers && !Survives(d, next, id)
  }

  function Reloaded(d: Daemon, next: Config): Daemon {
    ReconcileAll(TearDown(d, Dropped(d, next)).(hub := next.hub), Enabled(next.lanes))
  }

  // ---- what an observer sees ----

  /** Everything but the birth dates; `strays` are drivers that run without being held. */
  datatype View = View(
    hub: Option<string>, controllers: map<string, LaneConfig>, connections: map<string, (Core, string)>,
    servers: set<string>, workers: map<string, Core>, claudes: map<string, Core>,
    channels: map<string, (string, ChannelConfig)>, strays: set<Supervisor>)

  function ViewOf(d: Daemon): View {
    View(d.hub,
         map id | id in d.controllers :: d.controllers[id].config,
         map id | id in d.connections :: (d.connections[id].core, d.connections[id].hub),
         d.servers.Keys,
         map id | id in d.workers :: d.workers[id].core,
         map id | id in d.claudes :: d.claudes[id].core,
         map x | x in d.channels :: (d.channels[x].lane, d.channels[x].channel),
         d.running - d.channels.Values)
  }

  ghost predicate LaneStarted(v: View, hub: Option<string>, lane: LaneConfig) {
    && lane.id in v.controllers && v.controllers[lane.id] == lane && lane.id in v.servers
    && (hub.Some? ==> lane.id in v.connections && v.connections[lane.id] == (lane.core, hub.value))
    && (lane.core.claude ==> lane.id !in v.workers && lane.id in v.claudes && v.claudes[lane.id] == lane.core)
    && (!lane.core.claude ==> lane.id !in v.claudes && lane.id in v.workers && v.workers[lane.id] == lane.core)
  }

  ghost predicate IsLane(lanes: seq<LaneConfig>, id: string) { exists i :: 0 <= i < |lanes| && lanes[i].id == id }

  /** No object belongs to anything but an enabled lane. */
  ghost predicate NothingElse(v: View, hub: Option<string>, lanes: seq<LaneConfig>) {
    && (forall id :: id in v.controllers || id in v.servers || id in v.workers || id in v.claudes ==> IsLane(lanes, id))
    && (forall id :: id in v.connections ==> hub.Some? && IsLane(lanes, id))
  }

  /** Exactly the enabled channels are driven, each once, for its own lane. */
  ghost predicate ChannelsStarted(v: View, lanes: seq<LaneConfig>) {
    && (forall lane, x, c :: lane in lanes && Wants(lane, x, c) ==> x in v.channels && v.channels[x] == (lane.id, c))
    && (forall x :: x in v.channels ==> exists lane :: lane in lanes && WantsSome(lane, x))
    && v.strays == {}
  }

  /** What `start` builds from a configuration. */
  ghost predicate IsColdStart(v: View, config: Config) {
    var lanes := Enabled(config.lanes);
    && v.hub == config.hub
    && (forall lane :: lane in lanes ==> LaneStarted(v, config.hub, lane))
    && NothingElse(v, config.hub, lanes)
    && ChannelsStarted(v, lanes)
  }
}
