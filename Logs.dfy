/** One classified traffic observation as the backend sends it, and the label tests
    the dashboard applies to it. Classification is never an enum in the dashboard:
    every test is a substring test on the free-text label. */
module Logs {
  import opened Text

  /** A log record: the fields the dashboard reads (`timestamp`, `ip`, `url`,
      `request_count`, `error_rate`, `response_size`, `label`, `risk_score`). */
  datatype LogEntry = LogEntry(
    timestamp: string,
    ip: string,
    url: string,
    requestCount: int,
    errorRate: real,
    responseSize: int,
    tag: string,   // the `label` field (the word is reserved in Dafny)
    riskScore: real)

  function Abs(x: real): (r: real)
    ensures r >= 0.0
  {
    if x < 0.0 then -x else x
  }

  /** `Math.abs(risk_score * 100)`: the severity the dashboard shows and averages. */
  function RiskPercent(e: LogEntry): (r: real)
    ensures r >= 0.0
  {
    Abs(e.riskScore * 100.0)
  }

  /** A record counts as a threat when its label does not contain "Safe". */
  predicate IsThreat(tag: string)
    ensures |tag| < |"Safe"| ==> IsThreat(tag)
  {
    !Contains(tag, "Safe")
  }

  /** A record raises an alert when its label names one of the three attack kinds. */
  predicate RaisesAlert(tag: string)
    ensures |tag| < |"DDoS"| ==> !RaisesAlert(tag)
  {
    Contains(tag, "Data Leakage") || Contains(tag, "Brute Force") || Contains(tag, "DDoS")
  }

  /** The colour class a label is shown with; the tests run in this order, so
      "Data Leakage" wins over "Brute Force", which wins over "DDoS". */
  datatype Severity = Leakage | BruteForce | DDoS | Normal

  function SeverityOf(tag: string): (r: Severity)
    ensures r == Leakage <==> Contains(tag, "Data Leakage")
    ensures r == BruteForce <==> !Contains(tag, "Data Leakage") && Contains(tag, "Brute Force")
    ensures r == DDoS <==>
      !Contains(tag, "Data Leakage") && !Contains(tag, "Brute Force") && Contains(tag, "DDoS")
  {
    if Contains(tag, "Data Leakage") then Leakage
    else if Contains(tag, "Brute Force") then BruteForce
    else if Contains(tag, "DDoS") then DDoS
    else Normal
  }

  /** `getStatusColor`: the text colour class a label is shown with on both pages. */
  function StatusColor(tag: string): (r: string)
    ensures r == "text-red-500" <==> SeverityOf(tag) == Leakage
    ensures r == "text-orange-500" <==> SeverityOf(tag) == BruteForce
    ensures r == "text-yellow-500" <==> SeverityOf(tag) == DDoS
    ensures r == "text-green-500" <==> SeverityOf(tag) == Normal
  {
    assert "text-yellow-500"[5] != "text-orange-500"[5];

    match SeverityOf(tag)
    case Leakage => "text-red-500"
    case BruteForce => "text-orange-500"
    case DDoS => "text-yellow-500"
    case Normal => "text-green-500"
  }

  /** An alert is raised exactly for the labels that get a non-default colour. */
  lemma {:induction false} AlertIffColoured(tag: string)
    ensures RaisesAlert(tag) <==> SeverityOf(tag) != Normal
  {
  }

  /** The alert test is narrower than the threat count: a label that is neither safe nor
      one of the three named attacks is counted as a threat but raises no alert ... */
  lemma {:induction false} ThreatWithoutAlert()
    ensures IsThreat("Anomaly") && !RaisesAlert("Anomaly")
  {
    AbsentFirstChar("Anomaly", "Safe");
    AbsentFirstChar("Anomaly", "Data Leakage");
    AbsentFirstChar("Anomaly", "Brute Force");
    AbsentFirstChar("Anomaly", "DDoS");
  }

  /** ... and the two tests are independent: a label containing both "Safe" and "DDoS"
      is counted as safe and still raises an alert. */
  lemma {:induction false} SafeWithAlert()
    ensures !IsThreat("Safe DDoS") && RaisesAlert("Safe DDoS")
  {
    ContainsPrefix("Safe", " DDoS");
    assert "Safe" + " DDoS" == "Safe DDoS";
    ContainsSuffix("Safe ", "DDoS");
    assert "Safe " + "DDoS" == "Safe DDoS";
  }

  /** `logs.filter(l => !l.label.includes('Safe')).length` */
  function CountThreats(logs: seq<LogEntry>): (n: nat)
    ensures n <= |logs|
  {
    if logs == [] then 0
    else CountThreats(logs[..|logs| - 1]) + (if IsThreat(logs[|logs| - 1].tag) then 1 else 0)
  }

  /** `logs.filter(l => l.label.includes('Safe')).length` */
  function CountSafe(logs: seq<LogEntry>): (n: nat)
    ensures n <= |logs|
  {
    if logs == [] then 0
    else CountSafe(logs[..|logs| - 1]) + (if IsThreat(logs[|logs| - 1].tag) then 0 else 1)
  }

  /** The two filters partition every list: each record is in exactly one of them. */
  lemma {:induction false} CountsPartition(logs: seq<LogEntry>)
    ensures CountThreats(logs) + CountSafe(logs) == |logs|
    decreases |logs|
  {
    if logs != [] {
      CountsPartition(logs[..|logs| - 1]);
    }
  }

  /** The summary figures of a list: its length and the two filter counts. */
  datatype Tally = Tally(total: nat, threats: nat, safe: nat)

  /** `total`, `totalThreats`, `totalSafe` on the upload page, `threatCount` and
      `safeCount` on the live page: every record is counted once, on one side. */
  function Summary(logs: seq<LogEntry>): (r: Tally)
    ensures r.total == |logs| && r.threats + r.safe == r.total
    ensures r.threats == CountThreats(logs) && r.safe == CountSafe(logs)
  {
    CountsPartition(logs);
    Tally(|logs|, CountThreats(logs), CountSafe(logs))
  }

  /** The counts only depend on which records are present, not on their order:
      splitting a list splits its counts. */
  lemma {:induction false} CountsAppend(a: seq<LogEntry>, b: seq<LogEntry>)
    ensures CountThreats(a + b) == CountThreats(a) + CountThreats(b)
    ensures CountSafe(a + b) == CountSafe(a) + CountSafe(b)
    decreases |b|
  {
    if b == [] {
      assert a + b == a;
    } else {
      CountsAppend(a, b[..|b| - 1]);
      assert (a + b)[..|a + b| - 1] == a + b[..|b| - 1];
    }
  }
}
