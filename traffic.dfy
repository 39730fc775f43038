/** The aggregation state of the traffic simulator as a value, and one
    simulated packet as a transition on it. The class in module App keeps
    this state in fields; its methods are specified by the functions here. */
module Traffic {
  import opened ThreatLevels

  /** The alert log keeps at most this many alerts. */
  const LogCapacity: nat := 50
  /** The "type" of every alert. */
  const AlertKind: string := "Malicious Activity"

  /** What the classifier says about one sampled row: the predicted label
      (1 means attack) and the probability of the attack class. */
  datatype Verdict = Verdict(prediction: int, proba: real)

  /** One entry of the alert log; the score is in hundredths. */
  datatype Alert = Alert(id: nat, severity: Severity, score: int, kind: string)

  /** The counters, the newest-first alert log and the run flag. */
  datatype State = State(total: nat, threats: nat, alerts: seq<Alert>, running: bool)

  /** The state before any packet is simulated. */
  const Initial: State := State(0, 0, [], true)

  predicate IsAttack(v: Verdict) {
    v.prediction == 1
  }

  /** The alert built for an attack with the given id and probability. */
  function NewAlert(id: nat, proba: real): Alert {
    Alert(id, SeverityOf(proba), ScoreHundredths(proba), AlertKind)
  }

  /** The log after truncation to its first LogCapacity entries. */
  function Window(log: seq<Alert>): (w: seq<Alert>)
    ensures |w| <= LogCapacity
    ensures |w| == if |log| <= LogCapacity then |log| else LogCapacity
    ensures w == log[..|w|]
  {
    if |log| <= LogCapacity then log else log[..LogCapacity]
  }

  /** One simulated packet classified as v. */
  function Step(s: State, v: Verdict): State {
    var total := s.total + 1;
    if IsAttack(v) then
      State(total, s.threats + 1, Window([NewAlert(total, v.proba)] + s.alerts), s.running)
    else
      s.(total := total)
  }

  /** Packets classified as vs[0], vs[1], ... simulated one after another. */
  function Steps(s: State, vs: seq<Verdict>): State
    decreases |vs|
  {
    if vs == [] then s else Step(Steps(s, vs[..|vs| - 1]), vs[|vs| - 1])
  }

  /** The number of verdicts in vs that are attacks. */
  function Attacks(vs: seq<Verdict>): nat
    decreases |vs|
  {
    if vs == [] then 0
    else Attacks(vs[..|vs| - 1]) + (if IsAttack(vs[|vs| - 1]) then 1 else 0)
  }

  /** Every alert that simulating vs from a total of `total` creates, newest
      first, whether or not the log keeps it. */
  function Created(total: nat, vs: seq<Verdict>): seq<Alert>
    decreases |vs|
  {
    if vs == [] then []
    else
      var last := vs[|vs| - 1];
      (if IsAttack(last) then [NewAlert(total + |vs|, last.proba)] else [])
      + Created(total, vs[..|vs| - 1])
  }

  /** What every alert of the log satisfies by construction. */
  predicate WellFormed(a: Alert) {
    && a.kind == AlertKind
    && (a.severity == High ==> a.score >= 80)
    && (a.severity == Medium ==> a.score <= 80)
  }

  /** The invariant of the aggregation state: no more threats than packets,
      a log no longer than its capacity nor than the threat count, ids that
      are packet numbers already used and strictly decrease from the newest
      alert to the oldest. */
  predicate Inv(s: State) {
    && s.threats <= s.total
    && |s.alerts| <= LogCapacity
    && |s.alerts| <= s.threats
    && (forall i :: 0 <= i < |s.alerts| ==> 1 <= s.alerts[i].id <= s.total && WellFormed(s.alerts[i]))
    && (forall i, j :: 0 <= i < j < |s.alerts| ==> s.alerts[i].id > s.alerts[j].id)
  }

  lemma InitialInv()
    ensures Inv(Initial) && Initial.alerts == []
    ensures Initial.total == 0 && Initial.threats == 0 && Initial.running
  {
  }

  /** What one simulated packet does: the total always grows by one, the
      threat count grows by one exactly on an attack, the run flag stays.
      On an attack the new alert, numbered with the new total, goes in
      front of the first 49 old entries; otherwise the log stays as it is. */
  lemma StepEffect(s: State, v: Verdict)
    ensures Step(s, v).total == s.total + 1
    ensures Step(s, v).threats == s.threats + (if IsAttack(v) then 1 else 0)
    ensures Step(s, v).running == s.running
    ensures !IsAttack(v) ==> Step(s, v).alerts == s.alerts
    ensures IsAttack(v) ==>
      && |Step(s, v).alerts| >= 1
      && Step(s, v).alerts[0] == Alert(s.total + 1, if v.proba > SevereProbability then High else Medium,
                                       ScoreHundredths(v.proba), "Malicious Activity")
      && Step(s, v).alerts[1..] == s.alerts[..if |s.alerts| < LogCapacity then |s.alerts| else LogCapacity - 1]
  {
    if IsAttack(v) {
      var log := [NewAlert(s.total + 1, v.proba)] + s.alerts;
      var w := Window(log);
      assert w[1..] == log[1..|w|];
      assert log[1..] == s.alerts;
    }
  }

  /** Ids in a state satisfying Inv are unique. */
  lemma IdsUnique(s: State, i: nat, j: nat)
    requires Inv(s)
    requires i < |s.alerts| && j < |s.alerts| && i != j
    ensures s.alerts[i].id != s.alerts[j].id
  {
    if i < j {
      assert s.alerts[i].id > s.alerts[j].id;
    } else {
      assert s.alerts[j].id > s.alerts[i].id;
    }
  }

  lemma StepPreservesInv(s: State, v: Verdict)
    requires Inv(s)
    ensures Inv(Step(s, v))
  {
    if IsAttack(v) {
      var a := NewAlert(s.total + 1, v.proba);
      SeverityAgreesWithScore(v.proba);
      assert WellFormed(a);
      var log := [a] + s.alerts;
      var w := Step(s, v).alerts;
      assert w == Window(log);
      forall i | 0 <= i < |w|
        ensures 1 <= w[i].id <= s.total + 1 && WellFormed(w[i])
      {
        if i > 0 {
          assert w[i] == s.alerts[i - 1];
        }
      }
      forall i, j | 0 <= i < j < |w|
        ensures w[i].id > w[j].id
      {
        assert w[j] == s.alerts[j - 1];
        if i > 0 {
          assert w[i] == s.alerts[i - 1];
        }
      }
    }
  }

  /** On an attack with a full log, the oldest alert is evicted: the log
      stays full and the old last entry is no longer in it. */
  lemma StepEvictsOldest(s: State, v: Verdict)
    requires Inv(s)
    requires |s.alerts| == LogCapacity && IsAttack(v)
    ensures |Step(s, v).alerts| == LogCapacity
    ensures s.alerts[LogCapacity - 1] !in Step(s, v).alerts
  {
    var oldest := s.alerts[LogCapacity - 1];
    var w := Step(s, v).alerts;
    StepEffect(s, v);
    forall i | 0 <= i < |w|
      ensures w[i] != oldest
    {
      if i == 0 {
        assert w[0].id == s.total + 1;
      } else {
        assert w[i] == w[1..][i - 1] == s.alerts[i - 1];
        assert s.alerts[i - 1].id > oldest.id;
      }
    }
  }

  lemma {:induction false} StepsPreservesInv(s: State, vs: seq<Verdict>)
    requires Inv(s)
    ensures Inv(Steps(s, vs))
    decreases |vs|
  {
    if vs != [] {
      StepsPreservesInv(s, vs[..|vs| - 1]);
      StepPreservesInv(Steps(s, vs[..|vs| - 1]), vs[|vs| - 1]);
    }
  }

  /** Simulating n packets adds exactly n to the total and the number of
      attacks among them to the threat count; the run flag is untouched. */
  lemma {:induction false} StepsCounts(s: State, vs: seq<Verdict>)
    ensures Steps(s, vs).total == s.total + |vs|
    ensures Steps(s, vs).threats == s.threats + Attacks(vs)
    ensures Steps(s, vs).running == s.running
    decreases |vs|
  {
    if vs != [] {
      StepsCounts(s, vs[..|vs| - 1]);
    }
  }

  /** The threat counter counts every alert ever created, including those
      the log has since dropped. */
  lemma {:induction false} CreatedCount(total: nat, vs: seq<Verdict>)
    ensures |Created(total, vs)| == Attacks(vs)
    decreases |vs|
  {
    if vs != [] {
      CreatedCount(total, vs[..|vs| - 1]);
    }
  }

  lemma WindowAbsorbs(a: Alert, log: seq<Alert>)
    ensures Window([a] + Window(log)) == Window([a] + log)
  {
    if |log| > LogCapacity {
      assert ([a] + log)[..LogCapacity] == [a] + log[..LogCapacity - 1];
      assert ([a] + log[..LogCapacity])[..LogCapacity] == [a] + log[..LogCapacity - 1];
    }
  }

  /** The log is the bounded window of the whole alert history: after any
      run of packets it holds the newest LogCapacity alerts ever created,
      newest first. */
  lemma {:induction false} StepsWindow(s: State, vs: seq<Verdict>)
    requires |s.alerts| <= LogCapacity
    ensures Steps(s, vs).alerts == Window(Created(s.total, vs) + s.alerts)
    decreases |vs|
  {
    if vs != [] {
      var init := vs[..|vs| - 1];
      var last := vs[|vs| - 1];
      var prev := Steps(s, init);
      StepsWindow(s, init);
      StepsCounts(s, init);
      if IsAttack(last) {
        var a := NewAlert(s.total + |vs|, last.proba);
        assert Created(s.total, vs) == [a] + Created(s.total, init);
        WindowAbsorbs(a, Created(s.total, init) + s.alerts);
        assert [a] + (Created(s.total, init) + s.alerts) == ([a] + Created(s.total, init)) + s.alerts;
      } else {
        assert Created(s.total, vs) == Created(s.total, init);
      }
    }
  }

  /** When every attack in vs comes with probability p, every alert created
      reports the score and severity of p. */
  lemma {:induction false} CreatedUniformScore(total: nat, vs: seq<Verdict>, p: real)
    requires forall i :: 0 <= i < |vs| && IsAttack(vs[i]) ==> vs[i].proba == p
    ensures forall a :: a in Created(total, vs) ==> a.score == ScoreHundredths(p) && a.severity == SeverityOf(p)
    decreases |vs|
  {
    if vs != [] {
      var init := vs[..|vs| - 1];
      assert forall i :: 0 <= i < |init| ==> init[i] == vs[i];
      CreatedUniformScore(total, init, p);
    }
  }

  /** From the initial state, when every attack row comes with probability p
      (say one row always an attack at 0.9 and one always benign), the
      threat count is the number of attack draws and every logged alert
      reports the score and severity of p. */
  lemma UniformScoreRun(vs: seq<Verdict>, p: real)
    requires forall i :: 0 <= i < |vs| && IsAttack(vs[i]) ==> vs[i].proba == p
    ensures Steps(Initial, vs).threats == Attacks(vs)
    ensures forall a :: a in Steps(Initial, vs).alerts ==> a.score == ScoreHundredths(p) && a.severity == SeverityOf(p)
  {
    StepsCounts(Initial, vs);
    StepsWindow(Initial, vs);
    CreatedUniformScore(0, vs, p);
    var created := Created(0, vs);
    assert created + [] == created;
    var w := Steps(Initial, vs).alerts;
    assert w == created[..|w|];
  }

  /** The cumulative tier never goes down while packets are simulated. */
  lemma ThreatLevelNeverDrops(s: State, vs: seq<Verdict>)
    ensures ThreatLevelOf(s.threats).Rank() <= ThreatLevelOf(Steps(s, vs).threats).Rank()
  {
    StepsCounts(s, vs);
    ThreatLevelMonotone(s.threats, Steps(s, vs).threats);
  }

  /** From the initial state, three packets of a row classified as an attack
      with probability 0.95 produce three "High" alerts scored 0.95 with
      ids 3, 2, 1 in that order. */
  lemma AllAttackScenario()
    ensures var v := Verdict(1, 0.95);
      Steps(Initial, [v, v, v]) == State(3, 3, [Alert(3, High, 95, AlertKind),
                                                Alert(2, High, 95, AlertKind),
                                                Alert(1, High, 95, AlertKind)], true)
  {
    var v := Verdict(1, 0.95);
    assert ScoreHundredths(0.95) == 95;
    var a1, a2, a3 := NewAlert(1, 0.95), NewAlert(2, 0.95), NewAlert(3, 0.95);
    assert [v][..0] == [];
    assert Steps(Initial, [v]) == State(1, 1, [a1], true);
    assert [v, v][..1] == [v];
    assert Steps(Initial, [v, v]) == State(2, 2, [a2, a1], true);
    assert [v, v, v][..2] == [v, v];
    assert Steps(Initial, [v, v, v]) == State(3, 3, [a3, a2, a1], true);
  }
}
