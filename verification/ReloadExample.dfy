/** A reload that is not a cold start: a channel moves from the second lane to the first. */
module ReloadExample {
  import opened Prelude
  import opened Reload
  import opened ReloadTheorem

  const Plain := Core(false, "")
  const X := ChannelConfig("x", true, "")

  function Two(first: seq<ChannelConfig>, second: seq<ChannelConfig>): Config {
    Config(None, [LaneConfig("a", true, Plain, first), LaneConfig("b", true, Plain, second)])
  }

  const Before := Two([], [X])
  const After := Two([X], [])

  lemma TwoEnabled(config: Config)
    requires |config.lanes| == 2 && config.lanes[0].enabled && config.lanes[1].enabled
    ensures Enabled(config.lanes) == config.lanes
  {
    var lanes := config.lanes;
    assert lanes[..1][..0] == [];
    assert Enabled(lanes[..1]) == [lanes[0]];
    assert Enabled(lanes) == [lanes[0]] + [lanes[1]];
  }

  lemma TwoValid(first: seq<ChannelConfig>, second: seq<ChannelConfig>)
    requires (first == [] && second == [X]) || (first == [X] && second == [])
    ensures ValidConfig(Two(first, second))
  {
    var lanes := Two(first, second).lanes;
    assert lanes[0].id != lanes[1].id;
    forall lane, c | lane in lanes && Has(lane, c) ensures c == X && lane == lanes[if first == [] then 1 else 0] { }
  }

  lemma BothValid()
    ensures ValidConfig(Before) && ValidConfig(After)
  {
    TwoValid([], [X]);
    TwoValid([X], []);
  }

  /** Before the reload everything is as a cold start would have it. */
  lemma StartedOnBefore() returns (d: Daemon)
    ensures d == Reloaded(Empty, Before) && Sound(d) && Strays(d) == {}
    ensures d.hub == None && "x" in d.channels && d.channels["x"].lane == "b"
    ensures "b" in d.controllers && d.controllers["b"].config == Before.lanes[1]
  {
    BothValid();
    StartIsColdStart(Before);
    DaemonAfterReload(Empty, Before);
    TwoEnabled(Before);
    d := Reloaded(Empty, Before);
    assert IsColdStart(ViewOf(d), Before);
    assert Before.lanes[1] in Enabled(Before.lanes);
    assert LaneStarted(ViewOf(d), None, Before.lanes[1]);
    assert Wants(Before.lanes[1], "x", X);
    assert ViewOf(d).channels["x"] == ("b", X);
  }

  /** Two valid configurations; start on the first and reload the second. No driver ran
      unheld before, and yet the outcome is not a cold start's. */
  lemma MovingToAnEarlierLaneIsUnsafe()
    ensures ValidConfig(Before) && ValidConfig(After)
    ensures var d := Reloaded(Empty, Before);
      && Sound(d) && IsColdStart(ViewOf(d), Before) && Strays(d) == {}
      && !ReloadIsSafe(d, After) && !IsColdStart(ViewOf(Reloaded(d, After)), After)
  {
    BothValid();
    StartIsColdStart(Before);
    var d := StartedOnBefore();
    TwoEnabled(After);
    var lanes := Enabled(After.lanes);
    assert Wants(lanes[0], "x", X);
    assert lanes[1].id == "b";
    assert MovesAt(d, After, "x");
    ReloadIsColdStart(d, After);
  }
}
