/** The statistics aggregator: one `Stats` record, replaced wholesale by three entry
    points (one record per live message, one batch of uploaded results, a reset).
    The record itself lives in `StatsStore`, the single cell that the live-log
    supervisor and the upload page share. */
module Stats {
  import opened Logs

  datatype Stats = Stats(
    totalThreats: nat,
    safeRequests: nat,
    totalRequests: nat,
    avgRiskScore: real,
    isMonitoring: bool)

  /** The threat/safe partition of the total. */
  predicate Balanced(s: Stats)
  {
    s.totalThreats + s.safeRequests == s.totalRequests
  }

  /** A record with every field at its reset value, stated field by field. */
  predicate IsReset(s: Stats)
  {
    s.totalThreats == 0 && s.safeRequests == 0 && s.totalRequests == 0 &&
    s.avgRiskScore == 0.0 && !s.isMonitoring
  }

  /** The record the provider starts with and `resetStats` writes. */
  function Initial(): (r: Stats)
    ensures IsReset(r)
  {
    Stats(0, 0, 0, 0.0, false)
  }

  /** The reset record is the only one with every field at its reset value. */
  lemma {:induction false} ResetIsInitial(s: Stats)
    requires IsReset(s)
    ensures s == Initial()
  {
  }

  /** `updateFromLiveLog`: one more request and the running mean advanced by a single
      sample; `LiveLogStep` states the rest of what it promises. */
  function UpdateFromLiveLog(prev: Stats, log: LogEntry): (r: Stats)
    ensures r.totalRequests == prev.totalRequests + 1
  {
    var isThreat := IsThreat(log.tag);
    var newTotalRequests := prev.totalRequests + 1;
    var newThreats := if isThreat then prev.totalThreats + 1 else prev.totalThreats;
    var newSafe := if !isThreat then prev.safeRequests + 1 else prev.safeRequests;
    var count := prev.totalRequests as real;
    var currentSum := prev.avgRiskScore * count;
    var newAvg := if newTotalRequests > 0
      then (currentSum + RiskPercent(log)) / (count + 1.0)
      else 0.0;
    Stats(newThreats, newSafe, newTotalRequests, newAvg, true)
  }

  /** A live message is counted on exactly one side, chosen by the "Safe" test, so the
      partition survives; the record enters live mode; from an empty record the mean
      is the message's own percentage. */
  lemma {:induction false} LiveLogStep(prev: Stats, log: LogEntry)
    ensures IsThreat(log.tag) ==>
      UpdateFromLiveLog(prev, log).totalThreats == prev.totalThreats + 1 &&
      UpdateFromLiveLog(prev, log).safeRequests == prev.safeRequests
    ensures !IsThreat(log.tag) ==>
      UpdateFromLiveLog(prev, log).totalThreats == prev.totalThreats &&
      UpdateFromLiveLog(prev, log).safeRequests == prev.safeRequests + 1
    ensures Balanced(prev) ==> Balanced(UpdateFromLiveLog(prev, log))
    ensures UpdateFromLiveLog(prev, log).isMonitoring
    ensures prev.totalRequests == 0 ==>
      UpdateFromLiveLog(prev, log).avgRiskScore == RiskPercent(log)
  {
  }

  /** `results.reduce((sum, r) => sum + Math.abs(r.risk_score * 100), 0)` */
  function SumRisk(results: seq<LogEntry>): (total: real)
    ensures total >= 0.0
  {
    if results == [] then 0.0
    else SumRisk(results[..|results| - 1]) + RiskPercent(results[|results| - 1])
  }

  /** `updateFromCSV`: the record computed from the uploaded results alone (the previous
      record is not an argument); `BatchStats` states what it promises. */
  function UpdateFromCSV(results: seq<LogEntry>): (r: Stats)
    ensures r.totalRequests == |results|
  {
    var threats := CountThreats(results);
    var safe := CountSafe(results);
    var total := |results|;
    var avgRisk := if total > 0 then SumRisk(results) / total as real else 0.0;
    Stats(threats, safe, total, avgRisk, false)
  }

  /** The batch record partitions the list into the two filters, averages the
      percentages over the list, and is in batch mode; the empty list gives a zero
      mean. */
  lemma {:induction false} BatchStats(results: seq<LogEntry>)
    ensures Balanced(UpdateFromCSV(results))
    ensures UpdateFromCSV(results).totalThreats == CountThreats(results)
    ensures UpdateFromCSV(results).safeRequests == CountSafe(results)
    ensures results == [] ==> UpdateFromCSV(results).avgRiskScore == 0.0
    ensures results != [] ==>
      UpdateFromCSV(results).avgRiskScore == SumRisk(results) / |results| as real
    ensures !UpdateFromCSV(results).isMonitoring
  {
    CountsPartition(results);
  }

  /** A reset is indistinguishable from uploading an empty batch. */
  lemma {:induction false} ResetIsEmptyBatch()
    ensures IsReset(UpdateFromCSV([]))
  {
  }

  /** The stats after feeding `logs`, in arrival order, to `updateFromLiveLog`. */
  function Replay(start: Stats, logs: seq<LogEntry>): (r: Stats)
    ensures r.totalRequests == start.totalRequests + |logs|
  {
    if logs == [] then start
    else UpdateFromLiveLog(Replay(start, logs[..|logs| - 1]), logs[|logs| - 1])
  }

  /** A stream of live messages keeps the threat/safe partition, whatever the stream. */
  lemma {:induction false} ReplayBalanced(start: Stats, logs: seq<LogEntry>)
    requires Balanced(start)
    ensures Balanced(Replay(start, logs))
    decreases |logs|
  {
    if logs != [] {
      ReplayBalanced(start, logs[..|logs| - 1]);
      LiveLogStep(Replay(start, logs[..|logs| - 1]), logs[|logs| - 1]);
    }
  }

  /** The running-sum identity of `updateFromLiveLog`: the new mean times the new total is
      the old sum plus the new sample, so no sample is lost or counted twice. */
  lemma {:induction false} RunningSum(prev: Stats, log: LogEntry)
    ensures UpdateFromLiveLog(prev, log).avgRiskScore * (prev.totalRequests + 1) as real
         == prev.avgRiskScore * prev.totalRequests as real + RiskPercent(log)
  {
    var n := (prev.totalRequests + 1) as real;
    var x := prev.avgRiskScore * prev.totalRequests as real + RiskPercent(log);
    assert UpdateFromLiveLog(prev, log).avgRiskScore == x / n;
    assert (x / n) * n == x;
  }

  lemma {:induction false} DivMul(x: real, n: real)
    requires n > 0.0
    ensures (x / n) * n == x
  {
  }

  /** The batch mean times the batch size is the sum of the samples. */
  lemma {:induction false} BatchSum(results: seq<LogEntry>)
    ensures UpdateFromCSV(results).avgRiskScore * |results| as real == SumRisk(results)
  {
    if results != [] {
      var n := |results| as real;
      var x := SumRisk(results);
      DivMul(x, n);
      assert UpdateFromCSV(results).avgRiskScore == x / n;
    }
  }

  /** Replaying live messages from a reset counts them as the batch filters do. */
  lemma {:induction false} ReplayCounts(start: Stats, logs: seq<LogEntry>)
    requires IsReset(start)
    ensures Replay(start, logs).totalThreats == CountThreats(logs)
    ensures Replay(start, logs).safeRequests == CountSafe(logs)
    decreases |logs|
  {
    if logs != [] {
      ReplayCounts(start, logs[..|logs| - 1]);
      LiveLogStep(Replay(start, logs[..|logs| - 1]), logs[|logs| - 1]);
    }
  }

  /** One step of the running-sum identity, with the sum of the earlier samples,
      the new count and the new sum given by name. */
  lemma {:induction false} SumStep(before: Stats, last: LogEntry, after: Stats,
                                   m: real, sum: real, n: real, total: real)
    requires after == UpdateFromLiveLog(before, last)
    requires m == before.totalRequests as real && n == m + 1.0
    requires before.avgRiskScore * m == sum
    requires total == sum + RiskPercent(last)
    ensures after.avgRiskScore * n == total
  {
    RunningSum(before, last);
  }

  /** Replaying live messages from an empty record keeps the running-sum identity: the
      mean times the count is the sum of all samples seen. */
  lemma {:induction false} ReplaySum(start: Stats, logs: seq<LogEntry>)
    requires start.totalRequests == 0
    ensures Replay(start, logs).avgRiskScore * |logs| as real == SumRisk(logs)
    decreases |logs|
  {
    if logs != [] {
      var init := logs[..|logs| - 1];
      var last := logs[|logs| - 1];
      ReplaySum(start, init);
      SumStep(Replay(start, init), last, Replay(start, logs),
        |init| as real, SumRisk(init), |logs| as real, SumRisk(logs));
    }
  }

  lemma {:induction false} Cancel(a: real, b: real, n: real)
    requires n > 0.0 && a * n == b * n
    ensures a == b
  {
  }

  /** Replaying live messages from a reset reaches the batch mean. */
  lemma {:induction false} ReplayMean(start: Stats, logs: seq<LogEntry>)
    requires IsReset(start)
    ensures Replay(start, logs).avgRiskScore == UpdateFromCSV(logs).avgRiskScore
  {
    if logs != [] {
      ReplaySum(start, logs);
      BatchSum(logs);
      Cancel(Replay(start, logs).avgRiskScore, UpdateFromCSV(logs).avgRiskScore, |logs| as real);
    } else {
      BatchStats(logs);
    }
  }

  /** Feeding a list one record at a time from a reset gives the same counts and the
      same mean as uploading it as one batch; only the mode flag tells them apart. */
  lemma {:induction false} ReplayMatchesBatch(start: Stats, logs: seq<LogEntry>)
    requires IsReset(start)
    ensures Replay(start, logs) == UpdateFromCSV(logs).(isMonitoring := logs != [])
  {
    ReplayCounts(start, logs);
    ReplayMean(start, logs);
    BatchStats(logs);
    if logs != [] {
      LiveLogStep(Replay(start, logs[..|logs| - 1]), logs[|logs| - 1]);
    }
  }

  /** A sample equal to the current mean leaves the mean where it is. */
  lemma {:induction false} MeanKeeps(before: Stats, last: LogEntry, after: Stats)
    requires after == UpdateFromLiveLog(before, last)
    requires RiskPercent(last) == before.avgRiskScore
    ensures after.avgRiskScore == before.avgRiskScore
  {
    RunningSum(before, last);
    var k := before.totalRequests as real;
    var x := before.avgRiskScore;
    var n := k + 1.0;
    assert (before.totalRequests + 1) as real == n;
    assert after.avgRiskScore * n == x * k + x;
    ScaleStep(k, x, n);
    Cancel(after.avgRiskScore, x, n);
  }

  lemma {:induction false} ScaleStep(k: real, x: real, n: real)
    requires n == k + 1.0
    ensures x * n == x * k + x
  {
  }

  /** Live messages that all carry the same risk percentage leave that percentage as
      the mean, however many there are. */
  lemma {:induction false} ConstantStreamMean(start: Stats, logs: seq<LogEntry>)
    requires IsReset(start) && logs != []
    requires forall i :: 0 <= i < |logs| ==> RiskPercent(logs[i]) == RiskPercent(logs[0])
    ensures Replay(start, logs).avgRiskScore == RiskPercent(logs[0])
    decreases |logs|
  {
    var init := logs[..|logs| - 1];
    var last := logs[|logs| - 1];
    if init == [] {
      LiveLogStep(start, last);
    } else {
      assert init[0] == logs[0];
      ConstantStreamMean(start, init);
      MeanKeeps(Replay(start, init), last, Replay(start, logs));
    }
  }

  /** The shared stats cell (`useState` in the stats provider); every entry point
      replaces the whole record. */
  class StatsStore {
    var stats: Stats

    ghost predicate Valid()
      reads this
    {
      stats.totalThreats + stats.safeRequests == stats.totalRequests
    }

    constructor ()
      ensures Valid() && IsReset(stats)
    {
      stats := Initial();
    }

    method ApplyLiveLog(log: LogEntry)
      requires Valid()
      modifies this
      ensures Valid() && stats == UpdateFromLiveLog(old(stats), log)
    {
      LiveLogStep(stats, log);
      stats := UpdateFromLiveLog(stats, log);
    }

    method ApplyCSV(results: seq<LogEntry>)
      requires Valid()
      modifies this
      ensures Valid() && stats == UpdateFromCSV(results)
    {
      CountsPartition(results);
      stats := UpdateFromCSV(results);
    }

    method ResetStats()
      requires Valid()
      modifies this
      ensures Valid() && IsReset(stats)
    {
      stats := Initial();
    }
  }
}
