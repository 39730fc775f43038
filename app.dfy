/** The dashboard server's state and its request handlers: the traffic
    simulator, the stats poll that drives it, the alert feed, the run
    control and the pre-warm done at startup. */
module App {
  import opened ThreatLevels
  import opened Traffic

  /** Drawing a row from an empty pool fails: random.randint(0, -1) raises. */
  datatype Error = EmptyPool

  datatype Result<T> = Success(value: T) | Failure(error: Error)

  /** The body of a stats reply. */
  datatype Stats = Stats(
    totalPackets: nat,
    threatsDetected: nat,
    threatLevel: ThreatLevel,
    threatLevelNormalized: RateLevel,
    simulationRunning: bool)

  /** The body of a start or stop reply. */
  datatype ControlReply = ControlReply(status: string, running: bool)

  /** The pre-warm runs this many simulations before serving. */
  const WarmupCount: nat := 20
  /** A stats poll simulates between these many packets, inclusive. */
  const MinBurst: nat := 1
  const MaxBurst: nat := 5

  /** The statistics reported for a state. */
  function StatsOf(s: State): Stats {
    Stats(s.total, s.threats, ThreatLevelOf(s.threats), RateLevelOf(s.threats, s.total), s.running)
  }

  /** The draws a random row index can produce for a pool of n rows. */
  predicate DrawsInPool(n: nat, draws: seq<int>) {
    n > 0 ==> forall i :: 0 <= i < |draws| ==> 0 <= draws[i] < n
  }

  /** The classifier's verdicts on the rows the draws pick. */
  function Verdicts<Row>(pool: seq<Row>, classify: Row -> Verdict, draws: seq<int>): seq<Verdict>
    requires |pool| > 0 && DrawsInPool(|pool|, draws)
  {
    seq(|draws|, i requires 0 <= i < |draws| => classify(pool[draws[i]]))
  }

  /** The process-wide state: the sample pool and the classifier, which
      never change, and the counters, the alert log and the run flag. */
  class Dashboard<Row> {
    const pool: seq<Row>
    const classify: Row -> Verdict
    var total: nat
    var threats: nat
    var alerts: seq<Alert>
    var running: bool

    function Snapshot(): State
      reads this
    {
      State(total, threats, alerts, running)
    }

    ghost predicate Valid()
      reads this
    {
      Inv(Snapshot())
    }

    /** The module-level initial values: zero counters, an empty log,
        running. */
    constructor (pool: seq<Row>, classify: Row -> Verdict)
      ensures Valid()
      ensures this.pool == pool && this.classify == classify
      ensures Snapshot() == Initial
    {
      this.pool := pool;
      this.classify := classify;
      total := 0;
      threats := 0;
      alerts := [];
      running := true;
    }

    /** Samples the row at index `draw`, classifies it and records it. */
    method SimulateTraffic(draw: int) returns (r: Result<bool>)
      requires Valid()
      requires |pool| > 0 ==> 0 <= draw < |pool|
      modifies this
      ensures Valid()
      ensures |pool| == 0 ==> r == Failure(EmptyPool) && Snapshot() == old(Snapshot())
      ensures |pool| > 0 ==>
        && r == Success(IsAttack(classify(pool[draw])))
        && Snapshot() == Step(old(Snapshot()), classify(pool[draw]))
    {
      if |pool| == 0 {
        return Failure(EmptyPool);
      }
      ghost var before := Snapshot();
      var v := classify(pool[draw]);
      total := total + 1;
      var isAttack := v.prediction == 1;
      if isAttack {
        threats := threats + 1;
        var alert := NewAlert(total, v.proba);
        alerts := [alert] + alerts;
        if |alerts| > LogCapacity {
          alerts := alerts[..LogCapacity];
        }
        assert alerts == Window([alert] + before.alerts);
      }
      assert Snapshot() == Step(before, v);
      StepPreservesInv(before, v);
      r := Success(isAttack);
    }

    /** The stats poll: while running, simulates |burst| packets, the i-th
        from row burst[i], then reports the derived statistics. */
    method GetStats(burst: seq<int>) returns (r: Result<Stats>)
      requires Valid()
      requires MinBurst <= |burst| <= MaxBurst && DrawsInPool(|pool|, burst)
      modifies this
      ensures Valid()
      ensures !old(running) ==> Snapshot() == old(Snapshot()) && r == Success(StatsOf(Snapshot()))
      ensures old(running) && |pool| == 0 ==> Snapshot() == old(Snapshot()) && r == Failure(EmptyPool)
      ensures old(running) && |pool| > 0 ==>
        && Snapshot() == Steps(old(Snapshot()), Verdicts(pool, classify, burst))
        && total == old(total) + |burst|
        && r == Success(StatsOf(Snapshot()))
    {
      if running {
        var i := 0;
        while i < |burst|
          invariant 0 <= i <= |burst|
          invariant Valid()
          invariant |pool| == 0 ==> i == 0 && Snapshot() == old(Snapshot())
          invariant |pool| > 0 ==> Snapshot() == Steps(old(Snapshot()), Verdicts(pool, classify, burst)[..i])
        {
          var simulated := SimulateTraffic(burst[i]);
          if simulated.Failure? {
            return Failure(simulated.error);
          }
          ghost var vs := Verdicts(pool, classify, burst);
          assert vs[..i + 1][..i] == vs[..i];
          i := i + 1;
        }
        if |pool| > 0 {
          ghost var vs := Verdicts(pool, classify, burst);
          assert vs[..|burst|] == vs;
          StepsCounts(old(Snapshot()), vs);
        }
      }
      r := Success(StatsOf(Snapshot()));
    }

    /** The alert feed: the log as it is, newest first. */
    method GetAlerts() returns (log: seq<Alert>)
      requires Valid()
      ensures log == alerts
      ensures |log| <= LogCapacity
      ensures forall i, j :: 0 <= i < j < |log| ==> log[i].id > log[j].id
    {
      log := alerts;
    }

    method StartSimulation() returns (reply: ControlReply)
      requires Valid()
      modifies this`running
      ensures Valid()
      ensures Snapshot() == old(Snapshot()).(running := true)
      ensures reply == ControlReply("started", true)
    {
      running := true;
      reply := ControlReply("started", running);
    }

    method StopSimulation() returns (reply: ControlReply)
      requires Valid()
      modifies this`running
      ensures Valid()
      ensures Snapshot() == old(Snapshot()).(running := false)
      ensures reply == ControlReply("stopped", false)
    {
      running := false;
      reply := ControlReply("stopped", running);
    }
  }

  /** Startup: the initial state, then WarmupCount simulations, the i-th
      from row warmup[i]. With an empty pool the first simulation fails and
      the server does not come up. */
  method Startup<Row>(pool: seq<Row>, classify: Row -> Verdict, warmup: seq<int>)
    returns (r: Result<Dashboard<Row>>)
    requires |warmup| == WarmupCount && DrawsInPool(|pool|, warmup)
    ensures r.Failure? <==> |pool| == 0
    ensures r.Success? ==>
      && fresh(r.value)
      && r.value.Valid()
      && r.value.pool == pool && r.value.classify == classify
      && r.value.Snapshot() == Steps(Initial, Verdicts(pool, classify, warmup))
      && r.value.total == WarmupCount
  {
    var d := new Dashboard(pool, classify);
    var i := 0;
    while i < |warmup|
      invariant 0 <= i <= |warmup|
      invariant d.Valid() && d.pool == pool && d.classify == classify
      invariant |pool| == 0 ==> i == 0
      invariant |pool| > 0 ==> d.Snapshot() == Steps(Initial, Verdicts(pool, classify, warmup)[..i])
    {
      var simulated := d.SimulateTraffic(warmup[i]);
      if simulated.Failure? {
        return Failure(simulated.error);
      }
      ghost var vs := Verdicts(pool, classify, warmup);
      assert vs[..i + 1][..i] == vs[..i];
      i := i + 1;
    }
    if |pool| == 0 {
      assert false;
    }
    ghost var vs := Verdicts(pool, classify, warmup);
    assert vs[..|warmup|] == vs;
    StepsCounts(Initial, vs);
    r := Success(d);
  }

  /** Stopping twice gives the same reply both times and leaves everything
      but the flag as it was. */
  method StopTwice<Row>(d: Dashboard<Row>) returns (first: ControlReply, second: ControlReply)
    requires d.Valid()
    modifies d
    ensures first == second == ControlReply("stopped", false)
    ensures d.Valid() && d.Snapshot() == old(d.Snapshot()).(running := false)
  {
    first := d.StopSimulation();
    second := d.StopSimulation();
  }

  /** Starting twice gives the same reply both times and leaves everything
      but the flag as it was. */
  method StartTwice<Row>(d: Dashboard<Row>) returns (first: ControlReply, second: ControlReply)
    requires d.Valid()
    modifies d
    ensures first == second == ControlReply("started", true)
    ensures d.Valid() && d.Snapshot() == old(d.Snapshot()).(running := true)
  {
    first := d.StartSimulation();
    second := d.StartSimulation();
  }

  /** A fresh dashboard over a single row that is always an attack with
      probability 0.95: three simulations give counters 3 and 3 and the
      alerts 3, 2, 1, all "High" with score 0.95. */
  method AllAttackRun() returns (log: seq<Alert>)
    ensures log == [Alert(3, High, 95, AlertKind), Alert(2, High, 95, AlertKind), Alert(1, High, 95, AlertKind)]
  {
    var d := new Dashboard([0], (_: int) => Verdict(1, 0.95));
    var v := Verdict(1, 0.95);
    assert d.classify(d.pool[0]) == v;
    var r1 := d.SimulateTraffic(0);
    assert [v][..0] == [];
    assert d.Snapshot() == Steps(Initial, [v]);
    var r2 := d.SimulateTraffic(0);
    assert [v, v][..1] == [v];
    assert d.Snapshot() == Steps(Initial, [v, v]);
    var r3 := d.SimulateTraffic(0);
    assert [v, v, v][..2] == [v, v];
    assert d.Snapshot() == Steps(Initial, [v, v, v]);
    AllAttackScenario();
    assert d.total == 3 && d.threats == 3;
    log := d.GetAlerts();
  }

  /** With the simulation stopped, five stats polls leave the total at 0. */
  method StoppedPolls() returns (stats: seq<Stats>)
    ensures |stats| == 5
    ensures forall i :: 0 <= i < |stats| ==> stats[i].totalPackets == 0 && !stats[i].simulationRunning
  {
    var d := new Dashboard([0, 1], (row: int) => if row == 0 then Verdict(1, 0.9) else Verdict(0, 0.0));
    var _ := d.StopSimulation();
    stats := [];
    var n := 0;
    while n < 5
      invariant 0 <= n <= 5 && |stats| == n
      invariant d.Valid() && d.Snapshot() == Initial.(running := false)
      invariant forall i :: 0 <= i < n ==> stats[i].totalPackets == 0 && !stats[i].simulationRunning
    {
      var r := d.GetStats([0]);
      stats := stats + [r.value];
      n := n + 1;
    }
  }
}
