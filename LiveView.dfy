/** What the live page derives from the window of recent records on every render:
    the line chart of the newest twenty, the counts, the rows the "how many" selector
    shows, their export, and the colour classes of a label. */
module LiveView {
  import opened Wrappers
  import opened Lists
  import opened Logs
  import opened Csv
  import opened LiveLog

  /** The chart shows at most this many records. */
  const ChartSize: nat := 20

  /** The measurements one chart point carries. */
  datatype Sample = Sample(requests: int, errorRate: real, responseSize: real, riskScore: real)

  datatype ChartPoint = ChartPoint(index: nat, sample: Sample)

  /** A record as a chart sample: the response size in thousands and the risk as the
      non-negative percentage. */
  function SampleOf(e: LogEntry): (r: Sample)
    ensures r.riskScore >= 0.0
  {
    Sample(e.requestCount, e.errorRate, e.responseSize as real / 1000.0, RiskPercent(e))
  }

  /** `reverse` on a fresh copy. */
  function Reverse<T>(s: seq<T>): (r: seq<T>)
    ensures |r| == |s|
    ensures forall i :: 0 <= i < |s| ==> r[i] == s[|s| - 1 - i]
  {
    if s == [] then [] else Reverse(s[1..]) + [s[0]]
  }

  /** `.map((log, index) => ({ index: index + 1, ... }))` */
  function Plot(s: seq<LogEntry>): (r: seq<ChartPoint>)
    ensures |r| == |s|
    ensures forall i :: 0 <= i < |s| ==> r[i] == ChartPoint(i + 1, SampleOf(s[i]))
  {
    if s == [] then []
    else
      var rest := Plot(s[1..]);
      [ChartPoint(1, SampleOf(s[0]))] + seq(|rest|, i requires 0 <= i < |rest| =>
        rest[i].(index := rest[i].index + 1))
  }

  /** `chartData`: `logs.slice(0, 20).reverse()` plotted. */
  function ChartData(logs: seq<LogEntry>): (r: seq<ChartPoint>)
    ensures |r| == Min(ChartSize, |logs|)
    ensures forall i :: 0 <= i < |r| ==> r[i].index == i + 1
  {
    Plot(Reverse(Slice(logs, ChartSize)))
  }

  /** The chart holds the newest twenty records, oldest first, numbered from 1; the
      window itself is newest first. */
  lemma {:induction false} ChartShape(logs: seq<LogEntry>)
    ensures |ChartData(logs)| == Min(ChartSize, |logs|)
    ensures forall i :: 0 <= i < |ChartData(logs)| ==>
      ChartData(logs)[i].index == i + 1 &&
      ChartData(logs)[i].sample == SampleOf(logs[|ChartData(logs)| - 1 - i])
  {
  }

  /** The samples of a chart, without their numbers. */
  function Samples(points: seq<ChartPoint>): (r: seq<Sample>)
    ensures |r| == |points|
    ensures forall i :: 0 <= i < |points| ==> r[i] == points[i].sample
  {
    if points == [] then [] else [points[0].sample] + Samples(points[1..])
  }

  /** After a push, the window is the new record followed by the old ones. */
  lemma {:induction false} PushShift(window: seq<LogEntry>, data: LogEntry)
    requires |window| <= WindowCap
    ensures forall k :: 1 <= k < |Push(window, data)| ==>
      Push(window, data)[k] == window[k - 1]
  {
    var w := Push(window, data);
    forall k | 1 <= k < |w| ensures w[k] == window[k - 1] {
      assert w[k] == w[1..][k - 1];
    }
  }

  /** Point `i` of the chart, read back in the window. */
  lemma {:induction false} SampleAt(logs: seq<LogEntry>, i: nat)
    requires i < Min(ChartSize, |logs|)
    ensures |Samples(ChartData(logs))| == Min(ChartSize, |logs|)
    ensures Samples(ChartData(logs))[i] == SampleOf(logs[Min(ChartSize, |logs|) - 1 - i])
  {
    ChartShape(logs);
  }

  lemma {:induction false} ChartGrows(window: seq<LogEntry>, data: LogEntry)
    requires |window| < ChartSize
    ensures Samples(ChartData(Push(window, data))) ==
      Samples(ChartData(window)) + [SampleOf(data)]
  {
    var w := Push(window, data);
    var before := Samples(ChartData(window));
    var after := Samples(ChartData(w));
    var n := |window|;
    PushKeepsCap(window, data);
    PushShift(window, data);
    ChartShape(window);
    ChartShape(w);
    assert |w| == n + 1 && |before| == n && |after| == n + 1;
    forall i | 0 <= i < n + 1 ensures after[i] == (before + [SampleOf(data)])[i] {
      SampleAt(w, i);
      if i < n {
        SampleAt(window, i);
        assert w[n - i] == window[n - 1 - i];
      }
    }
  }

  lemma {:induction false} ChartSlides(window: seq<LogEntry>, data: LogEntry)
    requires ChartSize <= |window| <= WindowCap
    ensures Samples(ChartData(Push(window, data))) ==
      Samples(ChartData(window))[1..] + [SampleOf(data)]
  {
    var w := Push(window, data);
    var before := Samples(ChartData(window));
    var after := Samples(ChartData(w));
    var n := ChartSize;
    PushShift(window, data);
    ChartShape(window);
    ChartShape(w);
    assert |before| == n && |after| == n;
    forall i | 0 <= i < n ensures after[i] == (before[1..] + [SampleOf(data)])[i] {
      SampleAt(w, i);
      if i < n - 1 {
        SampleAt(window, i + 1);
        assert w[n - 1 - i] == window[n - 2 - i];
      }
    }
  }

  /** A new message appears as the last point; the chart grows until it holds twenty,
      then its oldest point drops out. */
  lemma {:induction false} ChartAfterPush(window: seq<LogEntry>, data: LogEntry)
    requires |window| <= WindowCap
    ensures |window| < ChartSize ==>
      Samples(ChartData(Push(window, data))) ==
        Samples(ChartData(window)) + [SampleOf(data)]
    ensures |window| >= ChartSize ==>
      Samples(ChartData(Push(window, data))) ==
        Samples(ChartData(window))[1..] + [SampleOf(data)]
  {
    if |window| < ChartSize {
      ChartGrows(window, data);
    } else {
      ChartSlides(window, data);
    }
  }

  /** `displayedLogs`: the whole window for "all", otherwise its newest `n`. */
  function DisplayedLogs(logs: seq<LogEntry>, limit: Limit): (r: seq<LogEntry>)
    ensures |r| <= |logs| && r == logs[..|r|]
  {
    match limit
    case All => logs
    case Top(n) => Slice(logs, n)
  }

  /** The displayed rows are the newest ones, newest first, as many as chosen and as
      there are. */
  lemma {:induction false} DisplayedPrefix(logs: seq<LogEntry>, limit: Limit)
    ensures limit.All? ==> DisplayedLogs(logs, limit) == logs
    ensures limit.Top? ==>
      |DisplayedLogs(logs, limit)| == Min(limit.n, |logs|) &&
      DisplayedLogs(logs, limit) == logs[..|DisplayedLogs(logs, limit)|]
  {
  }

  /** `exportLiveLogs`: nothing when no row is displayed, else the CSV of those rows. */
  function ExportLive(logs: seq<LogEntry>, limit: Limit, show: real -> string)
    : (r: Option<string>)
    ensures r.None? <==> logs == [] || limit == Top(0)
    ensures r.Some? ==> r.value == CsvText(DisplayedLogs(logs, limit), show)
  {
    var rows := DisplayedLogs(logs, limit);
    assert |rows| == 0 <==> logs == [] || limit == Top(0);
    Export(rows, show)
  }

  /** `getAlertColor`: the background of the alert banner for a label. */
  function AlertColor(tag: string): (r: string)
    ensures r == "bg-red-900/20 border-red-800" <==> SeverityOf(tag) == Leakage
    ensures r == "bg-orange-900/20 border-orange-800" <==> SeverityOf(tag) == BruteForce
    ensures r == "bg-yellow-900/20 border-yellow-800" <==> SeverityOf(tag) == DDoS
    ensures r == "bg-green-900/20 border-green-800" <==> SeverityOf(tag) == Normal
  {
    assert "bg-yellow-900/20 border-yellow-800"[3] != "bg-orange-900/20 border-orange-800"[3];

    match SeverityOf(tag)
    case Leakage => "bg-red-900/20 border-red-800"
    case BruteForce => "bg-orange-900/20 border-orange-800"
    case DDoS => "bg-yellow-900/20 border-yellow-800"
    case Normal => "bg-green-900/20 border-green-800"
  }

  /** The banner and the label text follow the same precedence: two labels get the same
      banner exactly when they get the same text colour. */
  lemma {:induction false} SamePrecedence(a: string, b: string)
    ensures AlertColor(a) == AlertColor(b) <==> StatusColor(a) == StatusColor(b)
  {
    assert "bg-red-900/20 border-red-800"[3] == 'r';
    assert "bg-orange-900/20 border-orange-800"[3] == 'o';
    assert "bg-yellow-900/20 border-yellow-800"[3] == 'y';
    assert "bg-green-900/20 border-green-800"[3] == 'g';
    assert "text-red-500"[5] == 'r';
    assert "text-orange-500"[5] == 'o';
    assert "text-yellow-500"[5] == 'y';
    assert "text-green-500"[5] == 'g';
  }
}
