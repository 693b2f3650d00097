/** What the upload page derives from the analysis results on every render: the rows
    sorted by error rate, the preview the "Top N" selector picks, the export of that
    preview, and the colour of a point in the scatter chart. */
module UploadView {
  import opened Wrappers
  import opened Text
  import opened Lists
  import opened Logs
  import opened Csv

  /** Highest error rate first. */
  ghost predicate SortedDesc(s: seq<LogEntry>)
  {
    forall i, j :: 0 <= i < j < |s| ==> s[i].errorRate >= s[j].errorRate
  }

  /** Puts `x` into the sorted `t` in front of the first row whose error rate is not
      higher, so `x` goes before the rows with an equal rate. */
  function Insert(x: LogEntry, t: seq<LogEntry>): (r: seq<LogEntry>)
    ensures multiset(r) == multiset(t) + multiset{x}
  {
    if t == [] then [x]
    else if t[0].errorRate <= x.errorRate then [x] + t
    else
      assert t == [t[0]] + t[1..];
      [t[0]] + Insert(x, t[1..])
  }

  /** No row of `s` has an error rate above `v`. */
  ghost predicate AtMost(s: seq<LogEntry>, v: real)
  {
    forall i :: 0 <= i < |s| ==> s[i].errorRate <= v
  }

  lemma {:induction false} InsertAtMost(x: LogEntry, t: seq<LogEntry>, v: real)
    requires AtMost(t, v) && x.errorRate <= v
    ensures AtMost(Insert(x, t), v)
    decreases |t|
  {
    if t != [] && t[0].errorRate > x.errorRate {
      InsertAtMost(x, t[1..], v);
    }
  }

  lemma {:induction false} TailSorted(t: seq<LogEntry>)
    requires SortedDesc(t) && t != []
    ensures SortedDesc(t[1..]) && AtMost(t[1..], t[0].errorRate)
  {
  }

  lemma {:induction false} ConsSorted(a: LogEntry, s: seq<LogEntry>)
    requires SortedDesc(s) && AtMost(s, a.errorRate)
    ensures SortedDesc([a] + s)
  {
    var r := [a] + s;
    forall i, j | 0 <= i < j < |r| ensures r[i].errorRate >= r[j].errorRate {
      assert r[j] == s[j - 1];
      if i > 0 {
        assert r[i] == s[i - 1];
      }
    }
  }

  lemma {:induction false} InsertSorted(x: LogEntry, t: seq<LogEntry>)
    requires SortedDesc(t)
    ensures SortedDesc(Insert(x, t))
    decreases |t|
  {
    if t == [] {
    } else if t[0].errorRate <= x.errorRate {
      ConsSorted(x, t);
    } else {
      TailSorted(t);
      InsertSorted(x, t[1..]);
      InsertAtMost(x, t[1..], t[0].errorRate);
      ConsSorted(t[0], Insert(x, t[1..]));
    }
  }

  /** `[...results].sort((a, b) => b.error_rate - a.error_rate)`: a sorted copy, rows
      of equal rate kept in their original order (the sort is stable). */
  function SortDesc(s: seq<LogEntry>): (r: seq<LogEntry>)
    ensures multiset(r) == multiset(s)
  {
    if s == [] then []
    else
      assert s == [s[0]] + s[1..];
      Insert(s[0], SortDesc(s[1..]))
  }

  lemma {:induction false} SortDescSorted(s: seq<LogEntry>)
    ensures SortedDesc(SortDesc(s))
    decreases |s|
  {
    if s != [] {
      SortDescSorted(s[1..]);
      InsertSorted(s[0], SortDesc(s[1..]));
    }
  }

  /** The rows of `s` whose error rate is `k`, in their order in `s`. */
  function WithRate(s: seq<LogEntry>, k: real): (r: seq<LogEntry>)
  {
    if s == [] then []
    else (if s[0].errorRate == k then [s[0]] else []) + WithRate(s[1..], k)
  }

  lemma {:induction false} InsertWithRate(x: LogEntry, t: seq<LogEntry>, k: real)
    requires SortedDesc(t)
    ensures WithRate(Insert(x, t), k) ==
      if x.errorRate == k then [x] + WithRate(t, k) else WithRate(t, k)
    decreases |t|
  {
    if t == [] {
      assert [x][1..] == [];
    } else if t[0].errorRate <= x.errorRate {
      assert ([x] + t)[1..] == t;
    } else {
      assert SortedDesc(t[1..]) by {
        forall i, j | 0 <= i < j < |t| - 1 ensures t[1..][i].errorRate >= t[1..][j].errorRate {
          assert t[1..][i] == t[i + 1] && t[1..][j] == t[j + 1];
        }
      }
      InsertWithRate(x, t[1..], k);
      assert ([t[0]] + Insert(x, t[1..]))[1..] == Insert(x, t[1..]);
    }
  }

  /** The sort is stable: for every error rate, the rows with that rate come out in the
      order they went in. */
  lemma {:induction false} SortStable(s: seq<LogEntry>, k: real)
    ensures WithRate(SortDesc(s), k) == WithRate(s, k)
    decreases |s|
  {
    if s != [] {
      SortStable(s[1..], k);
      SortDescSorted(s[1..]);
      InsertWithRate(s[0], SortDesc(s[1..]), k);
    }
  }

  /** `previewRows`: the results in their original order for "all", otherwise the
      first `n` of the sorted copy. */
  function PreviewRows(results: seq<LogEntry>, limit: Limit): (r: seq<LogEntry>)
    ensures limit.All? ==> r == results
    ensures limit.Top? ==> |r| == Min(limit.n, |results|)
  {
    match limit
    case All => results
    case Top(n) => Slice(SortDesc(results), n)
  }

  /** Cutting a sorted list leaves a sorted front, each of whose rows is at least as
      high as every row after the cut. */
  lemma {:induction false} SortedCut(s: seq<LogEntry>, m: nat)
    requires SortedDesc(s) && m <= |s|
    ensures SortedDesc(s[..m])
    ensures forall x, y :: x in s[..m] && y in s[m..] ==> x.errorRate >= y.errorRate
  {
    assert SortedDesc(s[..m]) by {
      forall i, j | 0 <= i < j < m ensures s[..m][i].errorRate >= s[..m][j].errorRate {
        assert s[..m][i] == s[i] && s[..m][j] == s[j];
      }
    }
    forall x, y | x in s[..m] && y in s[m..] ensures x.errorRate >= y.errorRate {
      var i :| 0 <= i < m && s[..m][i] == x;
      var j :| 0 <= j < |s| - m && s[m..][j] == y;
      assert s[i] == x && s[m + j] == y;
    }
  }

  /** A numeric choice shows the rows of highest error rate, highest first, each taken
      from the results: the rows left out are no higher than any row shown. */
  lemma {:induction false} PreviewTop(results: seq<LogEntry>, n: nat)
    ensures SortedDesc(PreviewRows(results, Top(n)))
    ensures multiset(PreviewRows(results, Top(n))) <= multiset(results)
    ensures forall x, y ::
      (x in PreviewRows(results, Top(n)) &&
       y in multiset(results) - multiset(PreviewRows(results, Top(n)))) ==>
        x.errorRate >= y.errorRate
  {
    var sorted := SortDesc(results);
    var m := Min(n, |results|);
    var r := PreviewRows(results, Top(n));
    SortDescSorted(results);
    SortedCut(sorted, m);
    assert r == sorted[..m];
    assert sorted == r + sorted[m..];
    assert multiset(results) - multiset(r) == multiset(sorted[m..]);
  }

  /** `exportTopN`: nothing when the preview is empty, else the CSV of the preview. */
  function ExportTopN(results: seq<LogEntry>, limit: Limit, show: real -> string)
    : (r: Option<string>)
    ensures r.None? <==> results == [] || limit == Top(0)
    ensures r.Some? ==> r.value == CsvText(PreviewRows(results, limit), show)
  {
    var rows := PreviewRows(results, limit);
    assert |rows| == 0 <==> results == [] || limit == Top(0);
    Export(rows, show)
  }

  /** A colour as its three channels. */
  datatype Rgb = Rgb(red: int, green: int, blue: int)

  /** `Math.max(0, Math.min(1, x))` */
  function Clamp(x: real): (t: real)
    ensures 0.0 <= t <= 1.0
    ensures 0.0 <= x <= 1.0 ==> t == x
  {
    if x < 0.0 then 0.0 else if x > 1.0 then 1.0 else x
  }

  /** `Math.round` over the reals: halves round up. */
  function Round(x: real): (n: int)
    ensures x - 0.5 < n as real <= x + 0.5
  {
    (x + 0.5).Floor
  }

  /** One channel of `colorFromError`: `round(c0 + (c1 - c0) * t)`. */
  function Channel(c0: int, c1: int, t: real): (n: int)
    ensures c0 as real + (c1 - c0) as real * t - 0.5 < n as real
    ensures n as real <= c0 as real + (c1 - c0) as real * t + 0.5
  {
    Round(c0 as real + (c1 - c0) as real * t)
  }

  /** A channel stays between its two end values. */
  lemma {:induction false} ChannelBetween(c0: int, c1: int, t: real)
    requires 0.0 <= t <= 1.0
    ensures c0 <= c1 ==> c0 <= Channel(c0, c1, t) <= c1
    ensures c1 <= c0 ==> c1 <= Channel(c0, c1, t) <= c0
  {
    var x := c0 as real + (c1 - c0) as real * t;
    if c0 <= c1 {
      assert c0 as real <= x <= c1 as real by {
        assert 0.0 <= (c1 - c0) as real * t <= (c1 - c0) as real;
      }
    } else {
      assert c1 as real <= x <= c0 as real by {
        assert (c1 - c0) as real <= (c1 - c0) as real * t <= 0.0;
      }
    }
  }

  /** `colorFromError(er)`, from green (#22c55e) at no errors to red (#ef4444); every
      channel stays within the two end colours, whatever the error rate. */
  function ColorFromError(er: real): (c: Rgb)
    ensures 34 <= c.red <= 239 && 68 <= c.green <= 197 && 68 <= c.blue <= 94
  {
    var t := Clamp(er / 100.0);
    ChannelBetween(34, 239, t);
    ChannelBetween(197, 68, t);
    ChannelBetween(94, 68, t);
    Rgb(Channel(34, 239, t), Channel(197, 68, t), Channel(94, 68, t))
  }

  /** The clamp pins the two ends: at or below 0 the colour is the green, at or above
      100 it is the red. */
  lemma {:induction false} ColorEnds(er: real)
    ensures er <= 0.0 ==> ColorFromError(er) == Rgb(34, 197, 94)
    ensures er >= 100.0 ==> ColorFromError(er) == Rgb(239, 68, 68)
  {
    if er <= 0.0 {
      assert Clamp(er / 100.0) == 0.0;
    }
    if er >= 100.0 {
      assert Clamp(er / 100.0) == 1.0;
    }
  }

  /** A higher error rate is never greener: red does not fall and green does not
      rise. */
  lemma {:induction false} ColorMonotone(a: real, b: real)
    requires a <= b
    ensures ColorFromError(a).red <= ColorFromError(b).red
    ensures ColorFromError(a).green >= ColorFromError(b).green
    ensures ColorFromError(a).blue >= ColorFromError(b).blue
  {
    var s := Clamp(a / 100.0);
    var t := Clamp(b / 100.0);
    assert s <= t;
    assert 205.0 * s <= 205.0 * t;
    assert -129.0 * s >= -129.0 * t;
    assert -26.0 * s >= -26.0 * t;
  }

  /** `` `rgb(${r}, ${g}, ${b})` `` */
  function RgbText(c: Rgb): (r: string)
    ensures |r| >= 5 && r[..4] == "rgb(" && r[|r| - 1] == ')'
  {
    "rgb(" + IntToString(c.red) + ", " + IntToString(c.green) + ", " +
      IntToString(c.blue) + ")"
  }

  /** The two end colours as the page writes them. */
  lemma {:induction false} GreenText()
    ensures RgbText(ColorFromError(0.0)) == "rgb(34, 197, 94)"
  {
    ColorEnds(0.0);
    GreenNumerals();
  }

  lemma {:induction false} RedText()
    ensures RgbText(ColorFromError(100.0)) == "rgb(239, 68, 68)"
  {
    ColorEnds(100.0);
    RedNumerals();
  }

  lemma {:induction false} GreenNumerals()
    ensures IntToString(34) == "34" && IntToString(197) == "197" && IntToString(94) == "94"
  {
    assert NatToString(34) == NatToString(3) + [Digit(4)];
    assert NatToString(19) == NatToString(1) + [Digit(9)];
    assert NatToString(197) == NatToString(19) + [Digit(7)];
    assert NatToString(94) == NatToString(9) + [Digit(4)];
  }

  lemma {:induction false} RedNumerals()
    ensures IntToString(239) == "239" && IntToString(68) == "68"
  {
    assert NatToString(23) == NatToString(2) + [Digit(3)];
    assert NatToString(239) == NatToString(23) + [Digit(9)];
    assert NatToString(68) == NatToString(6) + [Digit(8)];
  }
}
