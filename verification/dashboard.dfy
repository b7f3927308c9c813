/** The totals and the chart of src/components/Dashboard.jsx. The component's
    state (`stats`, `qrMetrics`, `chartData`, `loading`) is a class whose two
    fetch methods receive the backend's answers as inputs. */
module Dashboard {
  import opened Common
  import Utils

  /** The `stats` state. */
  datatype Stats = Stats(totalWorkers: int, totalQRCodes: int, totalScans: int)

  /** A `qr_codes` row as the chart and the metrics read it: `created_at`,
      `scan_count`, and the `error` and `generationTime` fields that
      `calculateQRMetrics` looks at. */
  datatype QrRow = QrRow(createdAt: string, scanCount: Option<int>, failed: bool, generationTime: Option<real>)

  /** The line chart: one label and one data point per QR code. */
  datatype Chart = Chart(labels: seq<string>, data: seq<int>)

  /** `reduce((acc, curr) => acc + curr.visits_count, 0)`; a null count adds nothing. */
  function SumVisits(visits: seq<Option<int>>): (total: int)
    ensures (forall i | 0 <= i < |visits| :: visits[i].None?) ==> total == 0
  {
    if visits == [] then 0 else SumVisits(visits[..|visits| - 1]) + OrZero(visits[|visits| - 1])
  }

  /** The sum over two batches of rows is the sum of their sums. */
  lemma {:induction false} SumVisitsAppend(a: seq<Option<int>>, b: seq<Option<int>>)
    ensures SumVisits(a + b) == SumVisits(a) + SumVisits(b)
  {
    if b == [] {
      assert a + b == a;
    } else {
      assert (a + b)[..|a + b| - 1] == a + b[..|b| - 1];
      SumVisitsAppend(a, b[..|b| - 1]);
    }
  }

  /** With no negative counts, the total is at least any one worker's count. */
  lemma {:induction false} SumVisitsBound(visits: seq<Option<int>>)
    requires forall i | 0 <= i < |visits| :: OrZero(visits[i]) >= 0
    ensures SumVisits(visits) >= 0
    ensures forall i | 0 <= i < |visits| :: SumVisits(visits) >= OrZero(visits[i])
  {
    if visits != [] {
      var init := visits[..|visits| - 1];
      SumVisitsBound(init);
    }
  }

  /** `scanData?.reduce(...) || 0`: the sum of `visits_count`, or 0 when
      there is no data. */
  function TotalScans(scanData: Option<seq<Option<int>>>): (total: int)
    ensures scanData.None? ==> total == 0
    ensures scanData.Some? ==> total == SumVisits(scanData.value)
  {
    if scanData.None? then 0 else SumVisits(scanData.value)
  }

  /** The stats `fetchStats` sets: the two counts (null shown as 0) and the total. */
  function StatsOf(workersCount: Option<int>, qrCodesCount: Option<int>, scanData: Option<seq<Option<int>>>): (s: Stats)
    ensures s.totalWorkers == OrZero(workersCount) && s.totalQRCodes == OrZero(qrCodesCount)
    ensures s.totalScans == TotalScans(scanData)
  {
    Stats(OrZero(workersCount), OrZero(qrCodesCount), TotalScans(scanData))
  }

  /** The labels and data of `fetchQRMetrics`, with `formatTimestamp` as `format`. */
  function ChartOf(qrCodes: seq<QrRow>, format: string -> string): (c: Chart)
    ensures |c.labels| == |c.data| == |qrCodes|
    ensures forall i | 0 <= i < |qrCodes| :: c.labels[i] == format(qrCodes[i].createdAt)
    ensures forall i | 0 <= i < |qrCodes| :: c.data[i] == OrZero(qrCodes[i].scanCount)
  {
    Chart(seq(|qrCodes|, i requires 0 <= i < |qrCodes| => format(qrCodes[i].createdAt)),
          seq(|qrCodes|, i requires 0 <= i < |qrCodes| => OrZero(qrCodes[i].scanCount)))
  }

  /** The chart of two batches of codes is the two charts side by side. */
  lemma ChartAppend(a: seq<QrRow>, b: seq<QrRow>, format: string -> string)
    ensures ChartOf(a + b, format) == Chart(ChartOf(a, format).labels + ChartOf(b, format).labels,
                                            ChartOf(a, format).data + ChartOf(b, format).data)
  {
  }

  /** What `calculateQRMetrics` reads of a row. */
  function Generated(qrCodes: seq<QrRow>): (g: seq<Utils.Generated>)
    ensures |g| == |qrCodes|
    ensures forall i | 0 <= i < |qrCodes| :: g[i] == Utils.Generated(qrCodes[i].failed, qrCodes[i].generationTime)
  {
    seq(|qrCodes|, i requires 0 <= i < |qrCodes| => Utils.Generated(qrCodes[i].failed, qrCodes[i].generationTime))
  }

  /** The state of the dashboard component. */
  class DashboardView {
    var stats: Stats
    var qrMetrics: Option<Utils.QRMetrics>
    var chartData: Option<Chart>
    var loading: bool

    /** The initial state: zero stats, no metrics, no chart, loading. */
    constructor()
      ensures stats == Stats(0, 0, 0) && qrMetrics.None? && chartData.None? && loading
    {
      stats := Stats(0, 0, 0);
      qrMetrics := None;
      chartData := None;
      loading := true;
    }

    /** `fetchStats`: sets `stats` from the two counts and the visit rows. */
    method FetchStats(workersCount: Option<int>, qrCodesCount: Option<int>, scanData: Option<seq<Option<int>>>)
      modifies this
      ensures stats == StatsOf(workersCount, qrCodesCount, scanData)
      ensures qrMetrics == old(qrMetrics) && chartData == old(chartData) && loading == old(loading)
    {
      var totalScans := TotalScans(scanData);
      stats := Stats(OrZero(workersCount), OrZero(qrCodesCount), totalScans);
    }

    /** `fetchQRMetrics`: with rows, sets the metrics and the chart; without,
        leaves both as they were; in every case clears `loading`. */
    method FetchQRMetrics(qrCodes: Option<seq<QrRow>>, format: string -> string)
      modifies this
      ensures !loading
      ensures qrCodes.Some? ==> qrMetrics == Some(Utils.CalculateQRMetrics(Some(Generated(qrCodes.value))))
      ensures qrCodes.Some? ==> chartData == Some(ChartOf(qrCodes.value, format))
      ensures qrCodes.None? ==> qrMetrics == old(qrMetrics) && chartData == old(chartData)
      ensures stats == old(stats)
    {
      if qrCodes.Some? {
        var metrics := Utils.CalculateQRMetrics(Some(Generated(qrCodes.value)));
        qrMetrics := Some(metrics);
        var dates := seq(|qrCodes.value|, i requires 0 <= i < |qrCodes.value| => format(qrCodes.value[i].createdAt));
        var scans := seq(|qrCodes.value|, i requires 0 <= i < |qrCodes.value| => OrZero(qrCodes.value[i].scanCount));
        chartData := Some(Chart(dates, scans));
      }
      loading := false;
    }
  }

  /** For fetched rows the metrics count every row, and the chart has one
      point per row. */
  lemma MetricsMatchChart(qrCodes: seq<QrRow>, format: string -> string)
    ensures Utils.CalculateQRMetrics(Some(Generated(qrCodes))).totalGenerated == |ChartOf(qrCodes, format).data|
  {
  }
}
